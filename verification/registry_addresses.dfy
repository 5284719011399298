/** A recorded socket address lies at the address stored with the identity, and exactly
    when that stops. */
module RegistryAddresses {
  import opened Clock
  import opened PeerModel
  import opened Registry
  import opened RegistryInv
  import opened Values

  /** A heartbeat from a loopback address other than the stored one that the peer accepts,
      because it has a key and its verification has not expired. */
  predicate LoopbackMoves(p: Peer, addr: Addr, unmanaged: bool, now: Time) {
    && addr.port != 0 && IsLoopback(addr.ip) && addr.ip != p.ip
    && p.pk != [] && !VerificationExpired(p, unmanaged, now)
  }

  /** Such a heartbeat, and no other, breaks the agreement. */
  lemma BeatBreaksAddrIff(p: Peer, addr: Addr, unmanaged: bool, now: Time)
    ensures LoopbackMoves(p, addr, unmanaged, now) ==> !AddrOk(BeatPeer(p, addr, unmanaged, now).peer)
    ensures AddrOk(p) && !LoopbackMoves(p, addr, unmanaged, now) ==> AddrOk(BeatPeer(p, addr, unmanaged, now).peer)
  {
  }

  ghost predicate BadBeat(s: State, step: Step, id: Id)
    requires Enabled(s, step)
  {
    && step.Beat? && s.tasks[step.t].h.id == id
    && LoopbackMoves(s.heap[s.tasks[step.t].h], s.tasks[step.t].purpose.addr, s.unmanaged, s.now)
  }

  ghost predicate RollbackAddrOk(r: Rollback) {
    r.socketAddr.port != 0 ==> r.socketAddr.ip == r.ip
  }

  ghost predicate AddrTask(task: Task, id: Id) {
    match task
    case Caching(l, _) => l.id == id ==> AddrOk(l.peer)
    case Evicting(next, _, _, _, _) => next.Some? && next.value.id == id ==> AddrOk(next.value.peer)
    case Dropping(next, _) => next.Some? && next.value.id == id ==> AddrOk(next.value.peer)
    case Persisting(j) => j.h.id == id ==> RollbackAddrOk(j.rollback)
    case Persisted(j, _) => j.h.id == id ==> RollbackAddrOk(j.rollback)
    case _ => true
  }

  ghost predicate AddrInv(s: State, id: Id) {
    && (forall h :: h in s.heap && h.id == id ==> AddrOk(s.heap[h]))
    && (forall t :: t in s.tasks ==> AddrTask(s.tasks[t], id))
  }

  lemma AddrSetTask(s: State, t: nat, task: Task, id: Id)
    requires AddrInv(s, id) && AddrTask(task, id)
    ensures AddrInv(SetTask(s, t, task), id) && AddrInv(EndTask(s, t), id) && AddrInv(Spawn(s, task), id)
  {
  }

  lemma AddrSetPeer(s: State, h: Handle, p: Peer, id: Id)
    requires AddrInv(s, id) && (h.id == id ==> AddrOk(p))
    ensures AddrInv(SetPeer(s, h, p), id)
  {
  }

  lemma AddrPublish(s: State, t: nat, l: Loader, id: Id)
    requires AddrInv(s, id) && (l.id == id ==> AddrOk(l.peer))
    ensures AddrInv(Publish(s, t, l), id)
  {
  }

  lemma AddrLookupStep(s: State, step: Step, id: Id)
    requires AddrInv(s, id) && Enabled(s, step)
    requires step.Find? || step.ReadRow? || step.ReadFailed? || step.Release?
    ensures AddrInv(Apply(s, step), id)
  {
    var t, s' := step.t, Apply(s, step);
    AddrSetTask(s, t, if t in s'.tasks then s'.tasks[t] else Looking(id, Read), id);
  }

  lemma AddrSweepStep(s: State, step: Step, id: Id)
    requires AddrInv(s, id) && Enabled(s, step)
    requires step.SweepInside? || step.Inspect? || step.DropSnapshot? || step.Remove?
    ensures AddrInv(Apply(s, step), id)
  {
    assert AddrTask(s.tasks[step.t], id);
  }

  lemma AddrCacheStep(s: State, step: Step, id: Id)
    requires AddrInv(s, id) && Enabled(s, step)
    requires step.CacheLook? || step.CacheInsert? || step.CacheFinal?
    ensures AddrInv(Apply(s, step), id)
  {
    var t, l := step.t, s.tasks[step.t].loader;
    assert AddrTask(s.tasks[t], id);
    if l.id in s.cache {
      AddrSetTask(s, t, Holding(s.cache[l.id], l.purpose), id);
    } else if !step.CacheLook? && |s.cache| < s.cap {
      AddrPublish(s, t, l, id);
    } else if step.CacheFinal? {
      AddrSetTask(s, t, Caching(Loader(l.id, l.purpose, DefaultPeer(s.now), false, l.mark), Look), id);
    } else {
      AddrSetTask(s, t, Caching(l, if |s.cache| < s.cap then Insert else Sweep), id);
    }
  }

  lemma AddrTouch(s: State, t: nat, id: Id)
    requires AddrInv(s, id) && Enabled(s, Touch(t))
    ensures AddrInv(Apply(s, Touch(t)), id)
  {
    var h := s.tasks[t].h;
    var p := s.heap[h].(lastAccess := s.now);
    AddrSetPeer(s, h, p, id);
    AddrSetTask(SetPeer(s, h, p), t, Holding(h, s.tasks[t].purpose), id);
  }

  lemma AddrBeat(s: State, t: nat, id: Id)
    requires AddrInv(s, id) && Enabled(s, Beat(t)) && !BadBeat(s, Beat(t), id)
    ensures AddrInv(Apply(s, Beat(t)), id)
  {
    var h, addr := s.tasks[t].h, s.tasks[t].purpose.addr;
    BeatBreaksAddrIff(s.heap[h], addr, s.unmanaged, s.now);
    var p := BeatPeer(s.heap[h], addr, s.unmanaged, s.now).peer;
    AddrSetPeer(s, h, p, id);
    AddrSetTask(SetPeer(s, h, p), t, Looking(id, Read), id);
  }

  lemma AddrVerify(s: State, t: nat, id: Id)
    requires AddrInv(s, id) && Enabled(s, Verify(t))
    ensures AddrInv(Apply(s, Verify(t)), id)
  {
    var h := s.tasks[t].h;
    var p := s.heap[h].(verifiedAt := Some(s.now));
    AddrSetPeer(s, h, p, id);
    AddrSetTask(SetPeer(s, h, p), t, Looking(id, Read), id);
  }

  lemma AddrFinish(s: State, t: nat, id: Id)
    requires AddrInv(s, id) && Enabled(s, Finish(t))
    ensures AddrInv(Apply(s, Finish(t)), id)
  {
    var j := s.tasks[t].job;
    assert AddrTask(s.tasks[t], id);
    var p := Apply(s, Finish(t)).heap[j.h];
    AddrSetPeer(s, j.h, p, id);
    AddrSetTask(SetPeer(s, j.h, p), t, Looking(id, Read), id);
  }

  lemma AddrWrite(s: State, t: nat, ok: bool, newGuid: Bytes, id: Id)
    requires AddrInv(s, id) && Enabled(s, WriteRow(t, ok, newGuid))
    ensures AddrInv(Apply(s, WriteRow(t, ok, newGuid)), id)
  {
    assert AddrTask(s.tasks[t], id);
  }

  lemma AddrStage(s: State, t: nat, h: Handle, pu: Purpose, id: Id)
    requires AddrInv(s, id) && h in s.heap && pu.Register?
    ensures AddrInv(DoStage(s, t, h, pu), id)
  {
    var r := StagePeer(s.heap[h], pu.addr, pu.uuid, pu.pk, !s.unmanaged, s.now);
    var s1 := SetPeer(s, h, r.peer);
    AddrSetPeer(s, h, r.peer, id);
    match r.stage
    case Persist(guid, rollback, ip, _) =>
      AddrSetTask(s1, t, Awaiting(h), id);
      AddrSetTask(SetTask(s1, t, Awaiting(h)), t, Persisting(Job(h, guid, pu.uuid, pu.pk, ip, rollback)), id);
    case _ => AddrSetTask(s1, t, Verifying(h), id);
  }

  /** Every step but such a heartbeat keeps the agreement. */
  lemma AddrStep(s: State, step: Step, id: Id)
    requires AddrInv(s, id) && Enabled(s, step) && !BadBeat(s, step, id)
    ensures AddrInv(Apply(s, step), id)
  {
    if step.Find? || step.ReadRow? || step.ReadFailed? || step.Release? {
      AddrLookupStep(s, step, id);
    } else if step.SweepInside? || step.Inspect? || step.DropSnapshot? || step.Remove? {
      AddrSweepStep(s, step, id);
    } else if step.CacheLook? || step.CacheInsert? || step.CacheFinal? {
      AddrCacheStep(s, step, id);
    } else if step.Touch? {
      AddrTouch(s, step.t, id);
    } else if step.Beat? {
      AddrBeat(s, step.t, id);
    } else if step.Verify? {
      AddrVerify(s, step.t, id);
    } else if step.Finish? {
      AddrFinish(s, step.t, id);
    } else if step.WriteRow? {
      AddrWrite(s, step.t, step.ok, step.newGuid, id);
    } else if step.StageStep? {
      AddrStage(s, step.t, s.tasks[step.t].h, s.tasks[step.t].purpose, id);
    }
  }

  // ----- runs -----

  ghost predicate NoBadBeatAt(run: seq<State>, steps: seq<Step>, k: nat, id: Id)
    requires |run| == |steps| + 1 && k < |steps|
  {
    Enabled(run[k], steps[k]) && !BadBeat(run[k], steps[k], id)
  }

  /** None of the steps from m up to i is a heartbeat that moves this peer to loopback. */
  ghost predicate NoBadBeat(run: seq<State>, steps: seq<Step>, m: nat, i: nat, id: Id)
    requires |run| == |steps| + 1 && i <= |steps|
  {
    forall k: nat {:trigger NoBadBeatAt(run, steps, k, id)} :: m <= k < i ==> NoBadBeatAt(run, steps, k, id)
  }

  lemma {:induction false} RunAddr(run: seq<State>, steps: seq<Step>, i: nat, id: Id)
    requires IsRun(run, steps) && i <= |steps| && NoBadBeat(run, steps, 0, i, id)
    ensures AddrInv(run[i], id)
  {
    if i > 0 {
      RunAddr(run, steps, i - 1, id);
      assert StepAt(run, steps, i - 1) && NoBadBeatAt(run, steps, i - 1, id);
      AddrStep(run[i - 1], steps[i - 1], id);
    }
  }

  /** The cached peer of this id has its recorded address at its stored one. */
  ghost predicate AddrAgrees(s: State, id: Id) {
    id in s.cache && s.cache[id] in s.heap ==> AddrOk(s.heap[s.cache[id]])
  }

  lemma BadBeatBreaks(s: State, step: Step, id: Id)
    requires Inv(s) && Enabled(s, step) && BadBeat(s, step, id)
    ensures !AddrAgrees(Apply(s, step), id)
  {
    assert TaskOk(s, s.tasks[step.t]);
  }

  /** Recorded and stored address of a peer agree all along a run exactly when none of
      its heartbeats came from another, loopback, address and was accepted. */
  lemma AddressesAgreeIff(run: seq<State>, steps: seq<Step>, i: nat, id: Id)
    requires IsRun(run, steps) && i <= |steps|
    ensures (forall k: nat :: k <= i ==> AddrAgrees(run[k], id)) <==> NoBadBeat(run, steps, 0, i, id)
  {
    if NoBadBeat(run, steps, 0, i, id) {
      forall k: nat | k <= i ensures AddrAgrees(run[k], id) {
        RunAddr(run, steps, k, id);
        RunInv(run, steps, k);
      }
    } else {
      var k: nat :| k < i && !NoBadBeatAt(run, steps, k, id);
      assert StepAt(run, steps, k);
      RunInv(run, steps, k);
      BadBeatBreaks(run[k], steps[k], id);
      assert !AddrAgrees(run[k + 1], id);
    }
  }
}
