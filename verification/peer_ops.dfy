/** The code that runs under a peer's lock or the map's lock, statement by statement,
    proved against the steps of the registry. */
module PeerOps {
  import opened Clock
  import opened PeerModel
  import opened Registry
  import opened Values

  class PeerCell {
    var socketAddr: Addr
    var lastReg: Time
    var lastAccess: Time
    var guid: Bytes
    var uuid: Bytes
    var pk: Bytes
    var inProgress: bool
    var verifiedAt: Option<Time>
    var ip: string
    var regCount: nat
    var regAt: Time

    ghost function View(): Peer
      reads this
    {
      Peer(socketAddr, lastReg, lastAccess, guid, uuid, pk, inProgress, verifiedAt, ip, regCount, regAt)
    }

    constructor (now: Time)
      ensures View() == DefaultPeer(now)
    {
      socketAddr, lastReg, lastAccess := UNSPECIFIED, ExpiredTime(now), now;
      guid, uuid, pk, inProgress := [], [], [], false;
      verifiedAt, ip, regCount, regAt := None, "", 0, ExpiredTime(now);
    }

    /** `stage_peer_registration`. */
    method StageRegistration(addr: Addr, newUuid: Bytes, newPk: Bytes, managed: bool, now: Time) returns (stage: Stage)
      modifies this
      ensures Staged(View(), stage) == StagePeer(old(View()), addr, newUuid, newPk, managed, now)
    {
      if inProgress {
        return Busy;
      }
      if uuid == [] {
      } else if managed {
      } else if uuid == newUuid {
        if ip != addr.ip && pk != newPk {
          return UuidMismatch;
        }
      } else {
        return UuidMismatch;
      }

      if AsSecs(Elapsed(now, regAt)) > 6 {
        regCount := 0;
      } else if regCount > 2 {
        return TooFrequent;
      }
      regCount := regCount + 1;
      regAt := now;

      var ipChanged := uuid != [] && ip != addr.ip;
      var changed := uuid == [] || uuid != newUuid || pk != newPk || ipChanged;
      if !changed {
        return Unchanged;
      }
      stage := Persist(guid, Rollback(socketAddr, lastReg, uuid, pk, ip, verifiedAt), addr.ip, ipChanged);
      socketAddr, lastReg := addr, now;
      uuid, pk, ip := newUuid, newPk, addr.ip;
      inProgress := true;
    }

    /** The locked part of `register_peer_common`. */
    method Heartbeat(addr: Addr, unmanaged: bool, now: Time) returns (requestPk: bool)
      modifies this
      ensures Beaten(View(), requestPk) == BeatPeer(old(View()), addr, unmanaged, now)
    {
      var ipChange := addr.ip != (if socketAddr.port != 0 then socketAddr.ip else ip);
      if IsLoopback(addr.ip) {
        ipChange := false;
      }
      var expired := false;
      if !unmanaged {
        expired := true;
        if verifiedAt.Some? {
          expired := AsSecs(Elapsed(now, verifiedAt.value)) >= DEPLOYMENT_VERIFICATION_CACHE_SECS;
        }
      }
      requestPk := pk == [] || ipChange || expired;
      if !requestPk {
        socketAddr, lastReg := addr, now;
      }
    }

    /** The end of the persistence task. */
    method EndWrite(result: Option<Bytes>, rollback: Rollback, managed: bool, now: Time)
      modifies this
      ensures View() == if result.Some? then CommitPeer(old(View()), result.value, managed, now)
                        else RollBackPeer(old(View()), rollback)
    {
      if result.Some? {
        guid := result.value;
        inProgress := false;
        if managed {
          verifiedAt := Some(now);
        }
      } else {
        socketAddr, lastReg := rollback.socketAddr, rollback.lastReg;
        uuid, pk, ip := rollback.uuid, rollback.pk, rollback.ip;
        verifiedAt := rollback.verifiedAt;
        inProgress := false;
      }
    }
  }

  /** The test of the removal loop on the object it finds under a candidate's id. */
  predicate Idle(s: State, e: Task, h: Handle, id: Id, locked: set<Id>)
    requires e.Evicting? && id in e.candidates && h in s.heap
  {
    StrongCount(s, h) <= 2 && id !in locked && s.heap[h].lastAccess == e.candidates[id].access
  }

  /** Entries already taken out do not change the test of the others. */
  lemma SameTest(s: State, e: Task, gone: set<Id>, id: Id, locked: set<Id>)
    requires e.Evicting? && id in e.candidates && id !in gone
    requires forall id :: id in s.cache ==> s.cache[id] in s.heap
    ensures var entries := s.cache - gone;
      (id in entries && Idle(s, e, entries[id], id, locked)) <==> ShouldRemove(s, e, id, locked)
  {
  }

  /** The cache's map, changed under its write lock. */
  class CacheMap {
    var entries: map<Id, Handle>

    /** The removal loop of `evict_inactive`, candidate by candidate. Taking entries out
        one at a time removes the same ones as testing all of them at once. */
    method RemoveIdle(s: State, e: Task, candidates: seq<Id>, locked: set<Id>) returns (removed: nat)
      requires e.Evicting? && s.cache == entries
      requires forall id :: id in s.cache ==> s.cache[id] in s.heap
      requires forall id :: id in candidates <==> id in e.candidates
      requires forall i, j :: 0 <= i < j < |candidates| ==> candidates[i] != candidates[j]
      modifies this
      ensures entries == old(entries) - Removed(s, e, locked)
      ensures removed == |Removed(s, e, locked)|
    {
      removed := 0;
      var k := 0;
      ghost var gone: set<Id> := {};
      while k < |candidates|
        invariant 0 <= k <= |candidates|
        invariant gone == Gone(s, e, candidates[..k], locked)
        invariant entries == old(entries) - gone && removed == |gone|
      {
        var id := candidates[k];
        GoneNext(s, e, candidates, k, locked);
        SameTest(s, e, gone, id, locked);
        if id in entries && Idle(s, e, entries[id], id, locked) {
          MinusMore(old(entries), gone, id);
          entries := entries - {id};
          removed := removed + 1;
          gone := gone + {id};
        }
        k := k + 1;
      }
      assert candidates[..k] == candidates;
      GoneAll(s, e, candidates, locked);
    }
  }

  /** What the loop has taken out after the given candidates. */
  ghost function Gone(s: State, e: Task, candidates: seq<Id>, locked: set<Id>): set<Id>
    requires e.Evicting?
  {
    if candidates == [] then {}
    else
      var n := |candidates| - 1;
      Gone(s, e, candidates[..n], locked) + (if ShouldRemove(s, e, candidates[n], locked) then {candidates[n]} else {})
  }

  lemma {:induction false} GoneMember(s: State, e: Task, candidates: seq<Id>, locked: set<Id>, id: Id)
    requires e.Evicting?
    ensures id in Gone(s, e, candidates, locked) <==> id in candidates && ShouldRemove(s, e, id, locked)
  {
    if candidates != [] {
      var n := |candidates| - 1;
      GoneMember(s, e, candidates[..n], locked, id);
      assert candidates == candidates[..n] + [candidates[n]];
    }
  }

  lemma GoneNext(s: State, e: Task, candidates: seq<Id>, k: nat, locked: set<Id>)
    requires e.Evicting? && k < |candidates|
    requires forall i, j :: 0 <= i < j < |candidates| ==> candidates[i] != candidates[j]
    ensures candidates[k] !in Gone(s, e, candidates[..k], locked)
    ensures Gone(s, e, candidates[..k + 1], locked) ==
      Gone(s, e, candidates[..k], locked) + (if ShouldRemove(s, e, candidates[k], locked) then {candidates[k]} else {})
  {
    GoneMember(s, e, candidates[..k], locked, candidates[k]);
    assert candidates[..k + 1][..k] == candidates[..k];
  }

  lemma GoneAll(s: State, e: Task, candidates: seq<Id>, locked: set<Id>)
    requires e.Evicting? && forall id :: id in candidates <==> id in e.candidates
    ensures Gone(s, e, candidates, locked) == Removed(s, e, locked)
  {
    forall id ensures id in Gone(s, e, candidates, locked) <==> id in Removed(s, e, locked) {
      GoneMember(s, e, candidates, locked, id);
    }
  }

  lemma MinusMore(m: map<Id, Handle>, gone: set<Id>, id: Id)
    ensures m - gone - {id} == m - (gone + {id})
  {
  }
}
