/** The inductive invariant of the registry and the proof that every step keeps it. */
module RegistryInv {
  import opened Clock
  import opened PeerModel
  import opened Registry
  import opened Values

  /** A non-empty guid names a row of that id; without a management server the
      row's uuid is the one given. */
  ghost predicate Bound(s: State, id: Id, guid: Bytes, uuid: Bytes) {
    guid != [] ==> guid in s.db && s.db[guid].id == id && (s.unmanaged ==> s.db[guid].uuid == uuid)
  }

  ghost predicate CacheOk(s: State) {
    |s.cache| <= s.cap && forall id :: id in s.cache ==> s.cache[id].id == id && s.cache[id] in s.heap
  }

  ghost predicate AllocOk(s: State) {
    && (forall h :: h in s.heap ==> h.serial < s.nextSerial)
    && (forall t :: t in s.tasks ==> t < s.nextTask)
  }

  ghost predicate PeerOk(s: State, h: Handle)
    requires h in s.heap
  {
    Bound(s, h.id, s.heap[h].guid, s.heap[h].uuid)
  }

  ghost predicate PeersOk(s: State)
    requires CacheOk(s)
  {
    forall id :: id in s.cache ==> PeerOk(s, s.cache[id])
  }

  ghost predicate LoaderOk(s: State, l: Loader) {
    Bound(s, l.id, l.peer.guid, l.peer.uuid) && !l.peer.inProgress && ValidPurpose(l.purpose)
  }

  ghost predicate NextOk(s: State, next: Option<Loader>) {
    next.Some? ==> LoaderOk(s, next.value)
  }

  ghost predicate SnapshotOk(s: State, snapshot: map<Id, Handle>) {
    forall id :: id in snapshot ==> snapshot[id].id == id && Current(s, snapshot[id])
  }

  ghost predicate IdleCandidate(k: Candidate, idle: nat, now: Time) {
    AsSecs(Elapsed(now, k.access)) >= idle && AsSecs(Elapsed(now, k.reg)) >= ACTIVE_GRACE_SECS
  }

  ghost predicate CandidatesOk(s: State, idle: nat, snapshot: map<Id, Handle>, candidates: map<Id, Candidate>) {
    && idle >= ACTIVE_GRACE_SECS
    && forall id :: id in candidates ==> id in snapshot && IdleCandidate(candidates[id], idle, s.now)
  }

  /** A write under way still stands on the object it staged. */
  ghost predicate JobOk(s: State, j: Job) {
    && Current(s, j.h)
    && s.heap[j.h].inProgress
    && s.heap[j.h].uuid == j.uuid && s.heap[j.h].pk == j.pk && s.heap[j.h].ip == j.ip
    && s.heap[j.h].guid == j.guid
    && j.uuid != [] && j.pk != []
    && Bound(s, j.h.id, j.guid, j.rollback.uuid)
  }

  ghost predicate ResultOk(s: State, j: Job, g: Bytes) {
    && g != [] && g in s.db && s.db[g].id == j.h.id && s.db[g].uuid == j.uuid
    && (j.guid != [] ==> g == j.guid)
  }

  ghost predicate TaskOk(s: State, task: Task) {
    match task
    case Looking(_, purpose) => ValidPurpose(purpose)
    case Touching(h, purpose) => Current(s, h) && ValidPurpose(purpose)
    case Missed(_, purpose) => ValidPurpose(purpose)
    case Caching(l, _) => LoaderOk(s, l)
    case Evicting(next, idle, snapshot, inspected, candidates) =>
      && NextOk(s, next) && SnapshotOk(s, snapshot) && CandidatesOk(s, idle, snapshot, candidates)
      && candidates.Keys <= inspected
    case Dropping(next, _) => NextOk(s, next)
    case Holding(h, purpose) => Current(s, h) && ValidPurpose(purpose)
    case Verifying(h) => Current(s, h)
    case Awaiting(h) => Current(s, h)
    case Persisting(j) => JobOk(s, j)
    case Persisted(j, result) => JobOk(s, j) && (result.Some? ==> ResultOk(s, j, result.value))
  }

  ghost predicate TasksOk(s: State) {
    forall t :: t in s.tasks ==> TaskOk(s, s.tasks[t])
  }

  ghost predicate JobOn(s: State, t: nat, h: Handle) {
    t in s.tasks && IsJob(s.tasks[t]) && s.tasks[t].job.h == h
  }

  /** At most one write is under way on an object, and a raised flag has its write. */
  ghost predicate WritersOk(s: State) {
    && (forall t, u, h :: JobOn(s, t, h) && JobOn(s, u, h) ==> t == u)
    && (forall h :: Current(s, h) && s.heap[h].inProgress ==> exists t :: JobOn(s, t, h))
  }

  ghost predicate Inv(s: State) {
    CacheOk(s) && AllocOk(s) && TableOk(s.db) && PeersOk(s) && TasksOk(s) && WritersOk(s)
  }

  // ----- steps that move one task and nothing else -----

  lemma TaskOkSameWorld(s: State, s': State, task: Task)
    requires TaskOk(s, task)
    requires s'.cache == s.cache && s'.heap == s.heap && s'.db == s.db && s'.unmanaged == s.unmanaged && s'.now >= s.now
    ensures TaskOk(s', task)
  {
    if task.Evicting? {
      forall id | id in task.candidates
        ensures IdleCandidate(task.candidates[id], task.idle, s'.now)
      {
        var k := task.candidates[id];
        assert Elapsed(s'.now, k.access) >= Elapsed(s.now, k.access) && Elapsed(s'.now, k.reg) >= Elapsed(s.now, k.reg);
      }
    }
  }

  lemma SetTaskInv(s: State, t: nat, task: Task)
    requires Inv(s) && t in s.tasks && !IsJob(s.tasks[t]) && !IsJob(task) && TaskOk(s, task)
    ensures Inv(SetTask(s, t, task))
  {
    var s' := SetTask(s, t, task);
    forall u | u in s'.tasks ensures TaskOk(s', s'.tasks[u]) {
      TaskOkSameWorld(s, s', s'.tasks[u]);
    }
    WritersSameJobs(s, s');
  }

  lemma EndTaskInv(s: State, t: nat)
    requires Inv(s) && t in s.tasks && !IsJob(s.tasks[t])
    ensures Inv(EndTask(s, t))
  {
    var s' := EndTask(s, t);
    forall u | u in s'.tasks ensures TaskOk(s', s'.tasks[u]) {
      TaskOkSameWorld(s, s', s'.tasks[u]);
    }
    WritersSameJobs(s, s');
  }

  lemma SpawnInv(s: State, task: Task)
    requires Inv(s) && !IsJob(task) && TaskOk(s, task)
    ensures Inv(Spawn(s, task))
  {
    var s' := Spawn(s, task);
    forall u | u in s'.tasks ensures TaskOk(s', s'.tasks[u]) {
      TaskOkSameWorld(s, s', s'.tasks[u]);
    }
    WritersSameJobs(s, s');
  }

  lemma TickInv(s: State, to: Time)
    requires Inv(s) && to >= s.now
    ensures Inv(s.(now := to))
  {
    var s' := s.(now := to);
    forall u | u in s'.tasks ensures TaskOk(s', s'.tasks[u]) {
      TaskOkSameWorld(s, s', s'.tasks[u]);
    }
    WritersSameJobs(s, s');
  }

  /** The writes under way and the flags are the same in both states. */
  lemma WritersSameJobs(s: State, s': State)
    requires WritersOk(s)
    requires forall t, h :: JobOn(s', t, h) <==> JobOn(s, t, h)
    requires forall h :: Current(s', h) && s'.heap[h].inProgress ==> Current(s, h) && s.heap[h].inProgress
    ensures WritersOk(s')
  {
  }

  // ----- a peer whose identity is left alone -----

  ghost predicate SameIdentity(p: Peer, q: Peer) {
    p.guid == q.guid && p.uuid == q.uuid && p.pk == q.pk && p.ip == q.ip && p.inProgress == q.inProgress
  }

  lemma SetPeerInv(s: State, h: Handle, p: Peer)
    requires Inv(s) && h in s.heap && SameIdentity(s.heap[h], p)
    ensures Inv(SetPeer(s, h, p))
  {
    var s' := SetPeer(s, h, p);
    forall u | u in s'.tasks ensures TaskOk(s', s'.tasks[u]) {
      assert TaskOk(s, s.tasks[u]);
      TaskOkSetPeer(s, h, p, s.tasks[u]);
    }
    WritersSameJobs(s, s');
  }

  lemma TaskOkSetPeer(s: State, h: Handle, p: Peer, task: Task)
    requires h in s.heap && SameIdentity(s.heap[h], p) && TaskOk(s, task)
    ensures TaskOk(SetPeer(s, h, p), task)
  {
  }

  // ----- publishing a peer -----

  lemma TaskOkPublish(s: State, t: nat, l: Loader, task: Task)
    requires CacheOk(s) && AllocOk(s) && TaskOk(s, task) && l.id !in s.cache
    ensures TaskOk(Publish(s, t, l), task)
  {
  }

  lemma PublishInv(s: State, t: nat, l: Loader)
    requires Inv(s) && t in s.tasks && !IsJob(s.tasks[t])
    requires LoaderOk(s, l) && l.id !in s.cache && |s.cache| < s.cap
    ensures Inv(Publish(s, t, l))
  {
    var s' := Publish(s, t, l);
    forall u | u in s'.tasks ensures TaskOk(s', s'.tasks[u]) {
      if u != t {
        TaskOkPublish(s, t, l, s.tasks[u]);
      }
    }
    PublishPeers(s, t, l);
    PublishWriters(s, t, l);
  }

  lemma PublishPeers(s: State, t: nat, l: Loader)
    requires CacheOk(s) && AllocOk(s) && PeersOk(s) && t in s.tasks
    requires LoaderOk(s, l) && l.id !in s.cache && |s.cache| < s.cap
    ensures CacheOk(Publish(s, t, l)) && AllocOk(Publish(s, t, l)) && PeersOk(Publish(s, t, l))
  {
    var s' := Publish(s, t, l);
    forall id | id in s'.cache && id != l.id ensures PeerOk(s', s'.cache[id]) {
      assert PeerOk(s, s.cache[id]);
    }
  }

  lemma PublishWriters(s: State, t: nat, l: Loader)
    requires WritersOk(s) && AllocOk(s) && t in s.tasks && !IsJob(s.tasks[t]) && !l.peer.inProgress && l.id !in s.cache
    ensures WritersOk(Publish(s, t, l))
  {
    var s' := Publish(s, t, l);
    forall h | Current(s', h) && s'.heap[h].inProgress
      ensures Current(s, h) && s.heap[h].inProgress
    {
      assert h.id != l.id;
    }
    WritersSameJobs(s, s');
  }

  // ----- eviction -----

  /** The holder of the only counted reference is the eviction itself. */
  lemma SoleHolder(s: State, t: nat, h: Handle)
    requires t in s.tasks && Holds(s.tasks[t], h) && StrongCount(s, h) <= 2
    ensures Holders(s, h) == {t}
  {
    var hs := Holders(s, h);
    assert t in hs;
    assert hs == {t} + (hs - {t});
    assert |hs| == 1 + |hs - {t}|;
  }

  /** What the removal test establishes: the object is the one in the snapshot, no
      other task refers to it, no write is under way on it, and nobody has looked
      it up for at least the idle time. */
  lemma RemovedIsIdle(s: State, t: nat, locked: set<Id>, id: Id)
    requires Inv(s) && t in s.tasks && s.tasks[t].Evicting?
    requires id in Removed(s, s.tasks[t], locked)
    ensures id in s.cache && Current(s, s.cache[id])
    ensures id in s.tasks[t].snapshot && s.tasks[t].snapshot[id] == s.cache[id]
    ensures Holders(s, s.cache[id]) == {t}
    ensures !s.heap[s.cache[id]].inProgress
    ensures AsSecs(Elapsed(s.now, s.heap[s.cache[id]].lastAccess)) >= s.tasks[t].idle
    ensures id in s.tasks[t].candidates && AsSecs(Elapsed(s.now, s.tasks[t].candidates[id].reg)) >= ACTIVE_GRACE_SECS
  {
    var e := s.tasks[t];
    var h := s.cache[id];
    assert TaskOk(s, e);
    assert ShouldRemove(s, e, id, locked);
    assert Current(s, e.snapshot[id]);
    SoleHolder(s, t, h);
    assert forall u :: JobOn(s, u, h) ==> u in Holders(s, h);
  }

  /** Another task keeps everything it relies on when an eviction removes entries. */
  lemma TaskOkRemove(s: State, t: nat, locked: set<Id>, u: nat)
    requires Inv(s) && t in s.tasks && s.tasks[t].Evicting? && u in s.tasks && u != t
    ensures TaskOk(DoRemove(s, t, s.tasks[t], locked), s.tasks[u])
  {
    var s' := DoRemove(s, t, s.tasks[t], locked);
    assert TaskOk(s, s.tasks[u]);
    forall h | HoldsLive(s.tasks[u], h) && Current(s, h)
      ensures Current(s', h)
    {
      assert u in Holders(s, h);
      if h.id in Removed(s, s.tasks[t], locked) {
        RemovedIsIdle(s, t, locked, h.id);
      }
    }
    if s.tasks[u].Evicting? {
      var snapshot := s.tasks[u].snapshot;
      forall id | id in snapshot ensures snapshot[id].id == id && Current(s', snapshot[id]) {
        assert HoldsLive(s.tasks[u], snapshot[id]);
      }
    } else if IsJob(s.tasks[u]) {
      assert HoldsLive(s.tasks[u], s.tasks[u].job.h);
    }
  }

  lemma RemoveInv(s: State, t: nat, locked: set<Id>)
    requires Inv(s) && t in s.tasks && s.tasks[t].Evicting?
    ensures Inv(DoRemove(s, t, s.tasks[t], locked))
  {
    var s' := DoRemove(s, t, s.tasks[t], locked);
    assert TaskOk(s, s.tasks[t]);
    forall u | u in s'.tasks ensures TaskOk(s', s'.tasks[u]) {
      if u != t {
        TaskOkRemove(s, t, locked, u);
      }
    }
    SmallerMap(s.cache, Removed(s, s.tasks[t], locked));
    WritersSameJobs(s, s');
  }

  lemma SmallerMap<K, V>(m: map<K, V>, ks: set<K>)
    ensures |m - ks| <= |m|
  {
    assert (m - ks).Keys <= m.Keys;
    SubsetSize((m - ks).Keys, m.Keys);
  }

  // ----- staging, writing and finishing a registration -----

  /** Only a write on the object itself depends on the object's contents. */
  lemma TaskOkOtherPeer(s: State, h: Handle, p: Peer, task: Task)
    requires h in s.heap && TaskOk(s, task) && !(IsJob(task) && task.job.h == h)
    ensures TaskOk(SetPeer(s, h, p), task)
  {
  }

  lemma StageInv(s: State, t: nat, h: Handle, pu: Purpose)
    requires Inv(s) && t in s.tasks && s.tasks[t] == Holding(h, pu) && pu.Register?
    ensures Inv(DoStage(s, t, h, pu))
  {
    assert TaskOk(s, s.tasks[t]);
    var r := StagePeer(s.heap[h], pu.addr, pu.uuid, pu.pk, !s.unmanaged, s.now);
    if r.stage.Persist? {
      PersistInv(s, t, h, pu);
    } else {
      var s1 := SetPeer(s, h, r.peer);
      SetPeerInv(s, h, r.peer);
      if r.stage.Unchanged? && !s.unmanaged {
        SetTaskInv(s1, t, Verifying(h));
      } else {
        EndTaskInv(s1, t);
      }
    }
  }

  lemma PersistInv(s: State, t: nat, h: Handle, pu: Purpose)
    requires Inv(s) && t in s.tasks && s.tasks[t] == Holding(h, pu) && pu.Register?
    requires Current(s, h) && ValidPurpose(pu)
    requires StagePeer(s.heap[h], pu.addr, pu.uuid, pu.pk, !s.unmanaged, s.now).stage.Persist?
    ensures Inv(DoStage(s, t, h, pu))
  {
    forall u ensures !JobOn(s, u, h) {
      assert u in s.tasks ==> TaskOk(s, s.tasks[u]);
    }
    PersistAlloc(s, t, h, pu);
    PersistTasks(s, t, h, pu);
    PersistPeers(s, t, h, pu);
    PersistWriters(s, t, h, pu);
  }

  lemma PersistAlloc(s: State, t: nat, h: Handle, pu: Purpose)
    requires AllocOk(s) && TableOk(s.db) && t in s.tasks && h in s.heap && pu.Register?
    requires StagePeer(s.heap[h], pu.addr, pu.uuid, pu.pk, !s.unmanaged, s.now).stage.Persist?
    ensures AllocOk(DoStage(s, t, h, pu)) && TableOk(DoStage(s, t, h, pu).db)
  {
  }

  lemma PersistTasks(s: State, t: nat, h: Handle, pu: Purpose)
    requires AllocOk(s) && TasksOk(s) && t in s.tasks && Current(s, h) && PeerOk(s, h)
    requires pu.Register? && ValidPurpose(pu) && forall u :: !JobOn(s, u, h)
    requires StagePeer(s.heap[h], pu.addr, pu.uuid, pu.pk, !s.unmanaged, s.now).stage.Persist?
    ensures TasksOk(DoStage(s, t, h, pu))
  {
    var r := StagePeer(s.heap[h], pu.addr, pu.uuid, pu.pk, !s.unmanaged, s.now);
    var s' := DoStage(s, t, h, pu);
    forall u | u in s'.tasks ensures TaskOk(s', s'.tasks[u]) {
      if u != t && u != s.nextTask {
        assert !JobOn(s, u, h);
        TaskOkOtherPeer(s, h, r.peer, s.tasks[u]);
        TaskOkSameWorld(SetPeer(s, h, r.peer), s', s.tasks[u]);
      }
    }
  }

  lemma PersistPeers(s: State, t: nat, h: Handle, pu: Purpose)
    requires Inv(s) && Current(s, h) && pu.Register? && ValidPurpose(pu)
    requires StagePeer(s.heap[h], pu.addr, pu.uuid, pu.pk, !s.unmanaged, s.now).stage.Persist?
    ensures var s' := DoStage(s, t, h, pu); CacheOk(s') && PeersOk(s')
  {
    var s' := DoStage(s, t, h, pu);
    assert PeerOk(s, h);
    forall id | id in s'.cache ensures PeerOk(s', s'.cache[id]) {
      assert PeerOk(s, s.cache[id]);
    }
  }

  lemma PersistWriters(s: State, t: nat, h: Handle, pu: Purpose)
    requires Inv(s) && t in s.tasks && s.tasks[t] == Holding(h, pu) && pu.Register? && h in s.heap
    requires forall u :: !JobOn(s, u, h)
    requires StagePeer(s.heap[h], pu.addr, pu.uuid, pu.pk, !s.unmanaged, s.now).stage.Persist?
    ensures WritersOk(DoStage(s, t, h, pu))
  {
    var s' := DoStage(s, t, h, pu);
    forall u, k ensures JobOn(s', u, k) <==> JobOn(s, u, k) || (u == s.nextTask && k == h) {
    }
    assert JobOn(s', s.nextTask, h);
    forall k | Current(s', k) && s'.heap[k].inProgress ensures exists u :: JobOn(s', u, k) {
      if k != h {
        assert Current(s, k);
        var u :| JobOn(s, u, k);
        assert JobOn(s', u, k);
      }
    }
  }

  /** What a write may do to the table: rows stay under their guid and id, and
      without a management server they keep their uuid. */
  ghost predicate TableGrows(s: State, db: Table) {
    forall g :: g in s.db ==> g in db && db[g].id == s.db[g].id && (s.unmanaged ==> db[g].uuid == s.db[g].uuid)
  }

  lemma WriteTable(s: State, j: Job, ok: bool, newGuid: Bytes)
    requires Inv(s) && JobOk(s, j) && newGuid != []
    ensures var w := WriteOf(s.db, j, ok, newGuid);
      && TableOk(w.db)
      && TableGrows(s, w.db)
      && (w.result.None? ==> w.db == s.db)
      && (w.result.Some? ==> ResultOk(s.(db := w.db), j, w.result.value)
                             && w.db[w.result.value] == Row(j.h.id, j.uuid, j.pk, j.ip))
      && (forall g :: g in w.db && (g !in s.db || w.db[g] != s.db[g]) ==> w.db[g].id == j.h.id)
  {
    assert PeerOk(s, j.h);
  }

  /** Two writes are never on the same object. */
  lemma OtherJob(s: State, t: nat, u: nat)
    requires TasksOk(s) && WritersOk(s) && t in s.tasks && IsJob(s.tasks[t]) && u in s.tasks && u != t
    ensures TaskOk(s, s.tasks[u]) && (IsJob(s.tasks[u]) ==> s.tasks[u].job.h != s.tasks[t].job.h)
  {
    assert JobOn(s, t, s.tasks[t].job.h);
    assert IsJob(s.tasks[u]) ==> JobOn(s, u, s.tasks[u].job.h);
  }

  lemma WriteInv(s: State, t: nat, ok: bool, newGuid: Bytes)
    requires Inv(s) && t in s.tasks && s.tasks[t].Persisting? && newGuid != []
    ensures Inv(DoWriteRow(s, t, s.tasks[t].job, ok, newGuid))
    ensures TableGrows(s, DoWriteRow(s, t, s.tasks[t].job, ok, newGuid).db)
  {
    var j := s.tasks[t].job;
    var s' := DoWriteRow(s, t, j, ok, newGuid);
    assert TaskOk(s, s.tasks[t]);
    WriteTable(s, j, ok, newGuid);
    forall u | u in s'.tasks ensures TaskOk(s', s'.tasks[u]) {
      if u != t {
        OtherJob(s, t, u);
        TaskOkGrow(s, s', s.tasks[u]);
      }
    }
    PeersOkGrow(s, s');
    WritersSameJobs(s, s');
  }

  lemma PeersOkGrow(s: State, s': State)
    requires CacheOk(s) && PeersOk(s) && TableGrows(s, s'.db)
    requires s'.cache == s.cache && s'.heap == s.heap && s'.cap == s.cap && s'.unmanaged == s.unmanaged
    ensures CacheOk(s') && PeersOk(s')
  {
    forall id | id in s'.cache ensures PeerOk(s', s'.cache[id]) {
      assert PeerOk(s, s.cache[id]);
    }
  }

  lemma TaskOkGrow(s: State, s': State, task: Task)
    requires TaskOk(s, task) && TableGrows(s, s'.db)
    requires s'.cache == s.cache && s'.heap == s.heap && s'.unmanaged == s.unmanaged && s'.now == s.now
    requires task.Persisted? && task.result.Some? ==> task.result.value in s.db && s'.db[task.result.value] == s.db[task.result.value]
    ensures TaskOk(s', task)
  {
  }

  lemma FinishInv(s: State, t: nat)
    requires Inv(s) && t in s.tasks && s.tasks[t].Persisted?
    ensures Inv(DoFinish(s, t, s.tasks[t].job, s.tasks[t].result))
  {
    var j, result := s.tasks[t].job, s.tasks[t].result;
    assert TaskOk(s, s.tasks[t]);
    assert JobOn(s, t, j.h);
    var s' := DoFinish(s, t, j, result);
    forall u | u in s'.tasks ensures TaskOk(s', s'.tasks[u]) {
      assert TaskOk(s, s.tasks[u]);
      assert !JobOn(s, u, j.h);
      TaskOkOtherPeer(s, j.h, s'.heap[j.h], s.tasks[u]);
      TaskOkSameWorld(SetPeer(s, j.h, s'.heap[j.h]), s', s.tasks[u]);
    }
    forall id | id in s'.cache ensures PeerOk(s', s'.cache[id]) {
      assert PeerOk(s, s.cache[id]);
    }
    FinishWriters(s, t);
  }

  lemma FinishWriters(s: State, t: nat)
    requires WritersOk(s) && t in s.tasks && s.tasks[t].Persisted? && s.tasks[t].job.h in s.heap
    ensures WritersOk(DoFinish(s, t, s.tasks[t].job, s.tasks[t].result))
  {
    var s' := DoFinish(s, t, s.tasks[t].job, s.tasks[t].result);
    forall u, k ensures JobOn(s', u, k) <==> JobOn(s, u, k) && u != t {
    }
    forall k | Current(s', k) && s'.heap[k].inProgress ensures exists u :: JobOn(s', u, k) {
      assert k != s.tasks[t].job.h && Current(s, k);
      var u :| JobOn(s, u, k);
      assert JobOn(s', u, k);
    }
  }

  // ----- the remaining steps -----

  lemma FindInv(s: State, t: nat)
    requires Inv(s) && Enabled(s, Find(t))
    ensures Inv(Apply(s, Find(t)))
  {
    var task := s.tasks[t];
    assert TaskOk(s, task);
    if task.id in s.cache {
      SetTaskInv(s, t, Touching(s.cache[task.id], task.purpose));
    } else if task.purpose.Peek? {
      EndTaskInv(s, t);
    } else {
      SetTaskInv(s, t, Missed(task.id, task.purpose));
    }
  }

  lemma TouchInv(s: State, t: nat)
    requires Inv(s) && Enabled(s, Touch(t))
    ensures Inv(Apply(s, Touch(t)))
  {
    var task := s.tasks[t];
    assert TaskOk(s, task);
    var p := s.heap[task.h].(lastAccess := s.now);
    SetPeerInv(s, task.h, p);
    SetTaskInv(SetPeer(s, task.h, p), t, Holding(task.h, task.purpose));
  }

  lemma ReadStepInv(s: State, step: Step)
    requires Inv(s) && Enabled(s, step)
    requires step.ReadRow? || step.ReadFailed?
    ensures Inv(Apply(s, step))
  {
    var t := step.t;
    var task := s.tasks[t];
    assert TaskOk(s, task);
    match step
    case ReadRow(_, stored) =>
      if stored.None? && !task.purpose.Register? {
        EndTaskInv(s, t);
      } else {
        SetTaskInv(s, t, Apply(s, step).tasks[t]);
      }
    case ReadFailed(_) => EndTaskInv(s, t);
  }

  lemma CacheLookInv(s: State, t: nat)
    requires Inv(s) && Enabled(s, CacheLook(t))
    ensures Inv(Apply(s, CacheLook(t)))
  {
    var l := s.tasks[t].loader;
    assert TaskOk(s, s.tasks[t]);
    if l.id in s.cache {
      SetTaskInv(s, t, Holding(s.cache[l.id], l.purpose));
    } else {
      SetTaskInv(s, t, Caching(l, if |s.cache| < s.cap then Insert else Sweep));
    }
  }

  lemma CacheInsertInv(s: State, t: nat)
    requires Inv(s) && Enabled(s, CacheInsert(t))
    ensures Inv(Apply(s, CacheInsert(t)))
  {
    var l := s.tasks[t].loader;
    assert TaskOk(s, s.tasks[t]);
    if l.id in s.cache {
      SetTaskInv(s, t, Holding(s.cache[l.id], l.purpose));
    } else if |s.cache| < s.cap {
      PublishInv(s, t, l);
    } else {
      SetTaskInv(s, t, Caching(l, Sweep));
    }
  }

  lemma CacheFinalInv(s: State, t: nat)
    requires Inv(s) && Enabled(s, CacheFinal(t))
    ensures Inv(Apply(s, CacheFinal(t)))
  {
    var l := s.tasks[t].loader;
    assert TaskOk(s, s.tasks[t]);
    if l.id in s.cache {
      SetTaskInv(s, t, Holding(s.cache[l.id], l.purpose));
    } else if |s.cache| < s.cap {
      PublishInv(s, t, l);
    } else if l.purpose.Register? && l.fromGet {
      SetTaskInv(s, t, Caching(Loader(l.id, l.purpose, DefaultPeer(s.now), false, l.mark), Look));
    } else {
      EndTaskInv(s, t);
    }
  }

  lemma InspectInv(s: State, t: nat, id: Id)
    requires Inv(s) && Enabled(s, Inspect(t, id))
    ensures Inv(DoInspect(s, t, s.tasks[t], id))
  {
    assert TaskOk(s, s.tasks[t]);
    SetTaskInv(s, t, DoInspect(s, t, s.tasks[t], id).tasks[t]);
  }

  lemma SweepStepInv(s: State, step: Step)
    requires Inv(s) && Enabled(s, step)
    requires step.SweepBegin? || step.SweepInside? || step.DropSnapshot?
    ensures Inv(Apply(s, step))
  {
    match step
    case SweepBegin(idle) => SpawnInv(s, Evicting(None, idle, s.cache, {}, map[]));
    case SweepInside(t) =>
      assert TaskOk(s, s.tasks[t]);
      SetTaskInv(s, t, Evicting(Some(s.tasks[t].loader), ACTIVE_GRACE_SECS, s.cache, {}, map[]));
    case DropSnapshot(t) =>
      assert TaskOk(s, s.tasks[t]);
      match s.tasks[t].next {
        case Some(l) => SetTaskInv(s, t, Caching(l, Final));
        case None => EndTaskInv(s, t);
      }
  }

  lemma BeatInv(s: State, t: nat)
    requires Inv(s) && Enabled(s, Beat(t))
    ensures Inv(Apply(s, Beat(t)))
  {
    assert TaskOk(s, s.tasks[t]);
    var h := s.tasks[t].h;
    var p := BeatPeer(s.heap[h], s.tasks[t].purpose.addr, s.unmanaged, s.now).peer;
    SetPeerInv(s, h, p);
    EndTaskInv(SetPeer(s, h, p), t);
  }

  lemma VerifyInv(s: State, t: nat)
    requires Inv(s) && Enabled(s, Verify(t))
    ensures Inv(Apply(s, Verify(t)))
  {
    assert TaskOk(s, s.tasks[t]);
    var h := s.tasks[t].h;
    var p := s.heap[h].(verifiedAt := Some(s.now));
    SetPeerInv(s, h, p);
    EndTaskInv(SetPeer(s, h, p), t);
  }

  lemma WriteStepInv(s: State, step: Step)
    requires Inv(s) && Enabled(s, step)
    requires step.Remove? || step.StageStep? || step.WriteRow? || step.Finish?
    ensures Inv(Apply(s, step))
  {
    match step
    case Remove(t, locked) => RemoveInv(s, t, locked);
    case StageStep(t) => StageInv(s, t, s.tasks[t].h, s.tasks[t].purpose);
    case WriteRow(t, ok, newGuid) => WriteInv(s, t, ok, newGuid);
    case Finish(t) => FinishInv(s, t);
  }

  lemma WorldStepInv(s: State, step: Step)
    requires Inv(s) && Enabled(s, step)
    requires step.Tick? || step.Begin? || step.Restart?
    ensures Inv(Apply(s, step))
  {
    match step
    case Tick(to) => TickInv(s, to);
    case Begin(id, purpose) => SpawnInv(s, Looking(id, purpose));
    case Restart =>
  }

  /** Every step keeps the invariant. */
  lemma StepInv(s: State, step: Step)
    requires Inv(s) && Enabled(s, step)
    ensures Inv(Apply(s, step))
  {
    if step.Find? {
      FindInv(s, step.t);
    } else if step.Touch? {
      TouchInv(s, step.t);
    } else if step.ReadRow? || step.ReadFailed? {
      ReadStepInv(s, step);
    } else if step.CacheLook? {
      CacheLookInv(s, step.t);
    } else if step.CacheInsert? {
      CacheInsertInv(s, step.t);
    } else if step.CacheFinal? {
      CacheFinalInv(s, step.t);
    } else if step.SweepBegin? || step.SweepInside? || step.DropSnapshot? {
      SweepStepInv(s, step);
    } else if step.Inspect? {
      InspectInv(s, step.t, step.id);
    } else if step.Beat? {
      BeatInv(s, step.t);
    } else if step.Verify? {
      VerifyInv(s, step.t);
    } else if step.Release? {
      EndTaskInv(s, step.t);
    } else if step.Remove? || step.StageStep? || step.WriteRow? || step.Finish? {
      WriteStepInv(s, step);
    } else {
      WorldStepInv(s, step);
    }
  }

  /** Every state of every run satisfies the invariant. */
  lemma {:induction false} RunInv(run: seq<State>, steps: seq<Step>, i: nat)
    requires IsRun(run, steps) && i < |run|
    ensures Inv(run[i])
  {
    if i > 0 {
      RunInv(run, steps, i - 1);
      assert StepAt(run, steps, i - 1);
      StepInv(run[i - 1], steps[i - 1]);
    }
  }
}
