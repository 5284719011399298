/** The cache agrees with the table, id by id, and exactly when it can stop agreeing. */
module RegistryCoherence {
  import opened PeerModel
  import opened Registry
  import opened RegistryInv
  import opened Values

  /** No entry for the loader's id was removed from the map since its row was read. */
  ghost predicate Fresh(s: State, l: Loader) {
    forall k :: l.mark <= k < |s.evictions| ==> l.id !in s.evictions[k]
  }

  ghost predicate RowIs(s: State, id: Id, guid: Bytes, uuid: Bytes, pk: Bytes, ip: string) {
    guid in s.db && s.db[guid] == Row(id, uuid, pk, ip)
  }

  /** A peer that was stored and is not being written is what its row says. */
  ghost predicate CohPeer(s: State, id: Id, p: Peer) {
    p.guid != [] && !p.inProgress ==> RowIs(s, id, p.guid, p.uuid, p.pk, p.ip)
  }

  ghost predicate CohLoader(s: State, l: Loader) {
    l.mark <= |s.evictions| && (Fresh(s, l) && l.id !in s.cache ==> CohPeer(s, l.id, l.peer))
  }

  /** The row still is what it was before the registration was staged. */
  ghost predicate PreStage(s: State, j: Job) {
    j.guid != [] ==> RowIs(s, j.h.id, j.guid, j.rollback.uuid, j.rollback.pk, j.rollback.ip)
  }

  /** What a task that is about this id relies on. */
  ghost predicate CohTask(s: State, task: Task, id: Id) {
    match task
    case Caching(l, _) => l.id == id ==> CohLoader(s, l)
    case Evicting(next, _, _, _, _) => next.Some? && next.value.id == id ==> CohLoader(s, next.value)
    case Dropping(next, _) => next.Some? && next.value.id == id ==> CohLoader(s, next.value)
    case Persisting(j) => j.h.id == id ==> PreStage(s, j)
    case Persisted(j, result) =>
      j.h.id == id ==> if result.Some? then RowIs(s, id, result.value, j.uuid, j.pk, j.ip) else PreStage(s, j)
    case _ => true
  }

  ghost predicate Coh(s: State, id: Id)
    requires CacheOk(s)
  {
    && (id in s.cache ==> CohPeer(s, id, s.heap[s.cache[id]]))
    && (forall t :: t in s.tasks ==> CohTask(s, s.tasks[t], id))
  }

  /** The step puts a peer into the map under this id. */
  ghost predicate Inserts(s: State, step: Step, id: Id)
    requires Enabled(s, step)
  {
    && (step.CacheInsert? || step.CacheFinal?)
    && s.tasks[step.t].loader.id == id && id !in s.cache && |s.cache| < s.cap
  }

  /** The row the peer was read from is no longer in the table as it was read. */
  ghost predicate RowChanged(s: State, l: Loader) {
    l.peer.guid != [] && !RowIs(s, l.id, l.peer.guid, l.peer.uuid, l.peer.pk, l.peer.ip)
  }

  ghost predicate StaleInsert(s: State, step: Step, id: Id)
    requires Enabled(s, step)
  {
    Inserts(s, step, id) && RowChanged(s, s.tasks[step.t].loader)
  }

  // ----- steps that leave table, map and identities alone -----

  lemma CohQuiet(s: State, s': State, x: Id)
    requires CacheOk(s) && CacheOk(s') && Coh(s, x)
    requires s'.cache == s.cache && s'.db == s.db && s'.evictions == s.evictions
    requires x in s.cache ==> SameIdentity(s.heap[s.cache[x]], s'.heap[s.cache[x]])
    requires forall t :: t in s'.tasks ==> (t in s.tasks && s'.tasks[t] == s.tasks[t]) || CohTask(s, s'.tasks[t], x)
    ensures Coh(s', x)
  {
    forall t | t in s'.tasks ensures CohTask(s', s'.tasks[t], x) {
      assert CohTask(s, s'.tasks[t], x);
    }
  }

  lemma CohSetTask(s: State, t: nat, task: Task, x: Id)
    requires CacheOk(s) && Coh(s, x) && CohTask(s, task, x)
    ensures CacheOk(SetTask(s, t, task)) && Coh(SetTask(s, t, task), x)
  {
    CohQuiet(s, SetTask(s, t, task), x);
  }

  lemma CohEndTask(s: State, t: nat, x: Id)
    requires CacheOk(s) && Coh(s, x)
    ensures CacheOk(EndTask(s, t)) && Coh(EndTask(s, t), x)
  {
    CohQuiet(s, EndTask(s, t), x);
  }

  lemma CohSpawn(s: State, task: Task, x: Id)
    requires CacheOk(s) && Coh(s, x) && CohTask(s, task, x)
    ensures CacheOk(Spawn(s, task)) && Coh(Spawn(s, task), x)
  {
    CohQuiet(s, Spawn(s, task), x);
  }

  lemma CohSetPeer(s: State, h: Handle, p: Peer, x: Id)
    requires CacheOk(s) && Coh(s, x) && h in s.heap && SameIdentity(s.heap[h], p)
    ensures CacheOk(SetPeer(s, h, p)) && Coh(SetPeer(s, h, p), x)
  {
    CohQuiet(s, SetPeer(s, h, p), x);
  }

  lemma CohPublish(s: State, t: nat, l: Loader, x: Id)
    requires CacheOk(s) && AllocOk(s) && Coh(s, x) && l.id !in s.cache && |s.cache| < s.cap
    requires l.id == x ==> CohPeer(s, x, l.peer)
    ensures CacheOk(Publish(s, t, l)) && Coh(Publish(s, t, l), x)
  {
    var s' := Publish(s, t, l);
    forall u | u in s'.tasks ensures CohTask(s', s'.tasks[u], x) {
      if u != t {
        assert CohTask(s, s.tasks[u], x);
      }
    }
  }

  lemma CohRemove(s: State, t: nat, locked: set<Id>, x: Id)
    requires CacheOk(s) && Coh(s, x) && t in s.tasks && s.tasks[t].Evicting?
    requires CacheOk(DoRemove(s, t, s.tasks[t], locked))
    ensures Coh(DoRemove(s, t, s.tasks[t], locked), x)
  {
    var gone := Removed(s, s.tasks[t], locked);
    var s' := DoRemove(s, t, s.tasks[t], locked);
    forall l | CohLoader(s, l) ensures CohLoader(s', l) {
      assert s'.evictions[|s.evictions|] == gone;
      assert Fresh(s', l) ==> Fresh(s, l) && l.id !in gone by {
        assert forall k :: 0 <= k < |s.evictions| ==> s'.evictions[k] == s.evictions[k];
      }
    }
    forall u | u in s'.tasks ensures CohTask(s', s'.tasks[u], x) {
      assert CohTask(s, s.tasks[u], x);
    }
  }

  // ----- registration -----

  lemma CohPersist(s: State, t: nat, h: Handle, pu: Purpose, x: Id)
    requires CacheOk(s) && AllocOk(s) && Coh(s, x) && t in s.tasks && pu.Register?
    requires Current(s, h) && CacheOk(DoStage(s, t, h, pu))
    requires StagePeer(s.heap[h], pu.addr, pu.uuid, pu.pk, !s.unmanaged, s.now).stage.Persist?
    ensures Coh(DoStage(s, t, h, pu), x)
  {
    var s' := DoStage(s, t, h, pu);
    forall u | u in s'.tasks ensures CohTask(s', s'.tasks[u], x) {
      if u != t && u != s.nextTask {
        assert CohTask(s, s.tasks[u], x);
      }
    }
  }

  lemma CohStaged(s: State, t: nat, h: Handle, pu: Purpose, x: Id)
    requires CacheOk(s) && Coh(s, x) && t in s.tasks && pu.Register? && h in s.heap
    requires !StagePeer(s.heap[h], pu.addr, pu.uuid, pu.pk, !s.unmanaged, s.now).stage.Persist?
    ensures CacheOk(DoStage(s, t, h, pu)) && Coh(DoStage(s, t, h, pu), x)
  {
    var r := StagePeer(s.heap[h], pu.addr, pu.uuid, pu.pk, !s.unmanaged, s.now);
    CohSetPeer(s, h, r.peer, x);
    CohEndTask(SetPeer(s, h, r.peer), t, x);
    CohSetTask(SetPeer(s, h, r.peer), t, Verifying(h), x);
  }

  lemma CohStage(s: State, t: nat, h: Handle, pu: Purpose, x: Id)
    requires CacheOk(s) && AllocOk(s) && Coh(s, x) && t in s.tasks && pu.Register?
    requires Current(s, h) && CacheOk(DoStage(s, t, h, pu))
    ensures Coh(DoStage(s, t, h, pu), x)
  {
    if StagePeer(s.heap[h], pu.addr, pu.uuid, pu.pk, !s.unmanaged, s.now).stage.Persist? {
      CohPersist(s, t, h, pu, x);
    } else {
      CohStaged(s, t, h, pu, x);
    }
  }

  /** A row of another id is not touched by the write. */
  lemma OtherRow(s: State, j: Job, ok: bool, newGuid: Bytes, id: Id, guid: Bytes, uuid: Bytes)
    requires Inv(s) && JobOk(s, j) && newGuid != [] && id != j.h.id && guid != [] && Bound(s, id, guid, uuid)
    ensures var db := WriteOf(s.db, j, ok, newGuid).db; guid in db && db[guid] == s.db[guid]
  {
    WriteTable(s, j, ok, newGuid);
  }

  lemma CohWriteLoader(s: State, t: nat, ok: bool, newGuid: Bytes, l: Loader)
    requires Inv(s) && t in s.tasks && s.tasks[t].Persisting? && newGuid != [] && LoaderOk(s, l) && CohLoader(s, l)
    ensures CohLoader(DoWriteRow(s, t, s.tasks[t].job, ok, newGuid), l)
  {
    var j := s.tasks[t].job;
    assert TaskOk(s, s.tasks[t]);
    if l.id != j.h.id && l.peer.guid != [] {
      OtherRow(s, j, ok, newGuid, l.id, l.peer.guid, l.peer.uuid);
    }
  }

  lemma CohWriteJob(s: State, t: nat, ok: bool, newGuid: Bytes, u: nat, x: Id)
    requires Inv(s) && Coh(s, x) && t in s.tasks && s.tasks[t].Persisting? && newGuid != []
    requires u in s.tasks && u != t && IsJob(s.tasks[u])
    ensures CohTask(DoWriteRow(s, t, s.tasks[t].job, ok, newGuid), s.tasks[u], x)
  {
    var j, task := s.tasks[t].job, s.tasks[u];
    OtherJob(s, t, u);
    assert TaskOk(s, s.tasks[t]) && CohTask(s, task, x);
    var g := if task.Persisted? && task.result.Some? then task.result.value else task.job.guid;
    if g != [] {
      OtherRow(s, j, ok, newGuid, task.job.h.id, g, s.db[g].uuid);
    }
  }

  lemma CohWriteTask(s: State, t: nat, ok: bool, newGuid: Bytes, u: nat, x: Id)
    requires Inv(s) && Coh(s, x) && t in s.tasks && s.tasks[t].Persisting? && newGuid != []
    requires u in s.tasks && u != t
    ensures CohTask(DoWriteRow(s, t, s.tasks[t].job, ok, newGuid), s.tasks[u], x)
  {
    var task := s.tasks[u];
    assert TaskOk(s, task) && CohTask(s, task, x);
    if IsJob(task) {
      CohWriteJob(s, t, ok, newGuid, u, x);
    } else {
      forall l | LoaderOk(s, l) && CohLoader(s, l)
        ensures CohLoader(DoWriteRow(s, t, s.tasks[t].job, ok, newGuid), l)
      {
        CohWriteLoader(s, t, ok, newGuid, l);
      }
    }
  }

  lemma CohWrite(s: State, t: nat, ok: bool, newGuid: Bytes, x: Id)
    requires Inv(s) && Coh(s, x) && t in s.tasks && s.tasks[t].Persisting? && newGuid != []
    ensures Coh(DoWriteRow(s, t, s.tasks[t].job, ok, newGuid), x)
  {
    var j := s.tasks[t].job;
    var s' := DoWriteRow(s, t, j, ok, newGuid);
    assert TaskOk(s, s.tasks[t]) && CohTask(s, s.tasks[t], x);
    WriteTable(s, j, ok, newGuid);
    forall u | u in s'.tasks ensures CohTask(s', s'.tasks[u], x) {
      if u != t {
        CohWriteTask(s, t, ok, newGuid, u, x);
      }
    }
    if x in s.cache && x != j.h.id {
      var p := s.heap[s.cache[x]];
      assert PeerOk(s, s.cache[x]);
      if p.guid != [] {
        OtherRow(s, j, ok, newGuid, x, p.guid, p.uuid);
      }
    }
  }

  lemma CohFinish(s: State, t: nat, x: Id)
    requires Inv(s) && Coh(s, x) && t in s.tasks && s.tasks[t].Persisted? && s.tasks[t].job.h in s.heap
    requires CacheOk(DoFinish(s, t, s.tasks[t].job, s.tasks[t].result))
    ensures Coh(DoFinish(s, t, s.tasks[t].job, s.tasks[t].result), x)
  {
    var j := s.tasks[t].job;
    var s' := DoFinish(s, t, j, s.tasks[t].result);
    assert TaskOk(s, s.tasks[t]) && CohTask(s, s.tasks[t], x);
    forall u | u in s'.tasks ensures CohTask(s', s'.tasks[u], x) {
      assert CohTask(s, s.tasks[u], x);
    }
  }

  // ----- runs -----

  lemma CohLookupStep(s: State, step: Step, x: Id)
    requires CacheOk(s) && Coh(s, x) && Enabled(s, step)
    requires step.Find? || step.ReadRow? || step.ReadFailed? || step.Release?
    ensures CacheOk(Apply(s, step)) && Coh(Apply(s, step), x)
  {
    var t, task := step.t, s.tasks[step.t];
    CohEndTask(s, t, x);
    match step
    case Find(_) =>
      CohSetTask(s, t, if task.id in s.cache then Touching(s.cache[task.id], task.purpose) else Missed(task.id, task.purpose), x);
    case ReadRow(_, stored) =>
      var p := if stored.Some? then FromRow(stored.value, s.now) else DefaultPeer(s.now);
      CohSetTask(s, t, Caching(Loader(task.id, task.purpose, p, stored.Some?, |s.evictions|), Look), x);
    case _ =>
  }

  lemma CohPeerStep(s: State, step: Step, x: Id)
    requires CacheOk(s) && Coh(s, x) && Enabled(s, step)
    requires step.Touch? || step.Beat? || step.Verify?
    ensures CacheOk(Apply(s, step)) && Coh(Apply(s, step), x)
  {
    var t, h := step.t, s.tasks[step.t].h;
    var p := Apply(s, step).heap[h];
    CohSetPeer(s, h, p, x);
    if step.Touch? {
      CohSetTask(SetPeer(s, h, p), t, Holding(h, s.tasks[t].purpose), x);
    } else {
      CohEndTask(SetPeer(s, h, p), t, x);
    }
  }

  lemma CohSweepStep(s: State, step: Step, x: Id)
    requires CacheOk(s) && Coh(s, x) && Enabled(s, step)
    requires step.SweepBegin? || step.SweepInside? || step.Inspect? || step.DropSnapshot?
    ensures CacheOk(Apply(s, step)) && Coh(Apply(s, step), x)
  {
    if step.SweepBegin? {
      CohSpawn(s, Evicting(None, step.idle, s.cache, {}, map[]), x);
    } else {
      var t, s' := step.t, Apply(s, step);
      assert CohTask(s, s.tasks[t], x);
      if t in s'.tasks {
        CohSetTask(s, t, s'.tasks[t], x);
      } else {
        CohEndTask(s, t, x);
      }
    }
  }

  lemma CohCacheStep(s: State, step: Step, x: Id)
    requires CacheOk(s) && AllocOk(s) && TasksOk(s) && Coh(s, x) && Enabled(s, step) && !StaleInsert(s, step, x)
    requires step.CacheLook? || step.CacheInsert? || step.CacheFinal?
    ensures CacheOk(Apply(s, step)) && Coh(Apply(s, step), x)
  {
    var t, l := step.t, s.tasks[step.t].loader;
    assert CohTask(s, s.tasks[t], x) && TaskOk(s, s.tasks[t]);
    if l.id in s.cache {
      CohSetTask(s, t, Holding(s.cache[l.id], l.purpose), x);
    } else if !step.CacheLook? && |s.cache| < s.cap {
      CohPublish(s, t, l, x);
    } else if step.CacheFinal? {
      CohEndTask(s, t, x);
      CohSetTask(s, t, Caching(Loader(l.id, l.purpose, DefaultPeer(s.now), false, l.mark), Look), x);
    } else {
      CohSetTask(s, t, Caching(l, if |s.cache| < s.cap then Insert else Sweep), x);
    }
  }

  lemma CohWriteStep(s: State, step: Step, x: Id)
    requires Inv(s) && Coh(s, x) && Enabled(s, step)
    requires step.Remove? || step.StageStep? || step.WriteRow? || step.Finish?
    ensures CacheOk(Apply(s, step)) && Coh(Apply(s, step), x)
  {
    StepInv(s, step);
    assert TaskOk(s, s.tasks[step.t]);
    match step
    case Remove(t, locked) => CohRemove(s, t, locked, x);
    case StageStep(t) => CohStage(s, t, s.tasks[t].h, s.tasks[t].purpose, x);
    case WriteRow(t, ok, newGuid) => CohWrite(s, t, ok, newGuid, x);
    case Finish(t) => CohFinish(s, t, x);
  }

  lemma CohWorldStep(s: State, step: Step, x: Id)
    requires CacheOk(s) && Coh(s, x) && Enabled(s, step)
    requires step.Tick? || step.Begin? || step.Restart?
    ensures CacheOk(Apply(s, step)) && Coh(Apply(s, step), x)
  {
    if step.Begin? {
      CohSpawn(s, Looking(step.id, step.purpose), x);
    } else if step.Tick? {
      CohQuiet(s, Apply(s, step), x);
    }
  }

  /** Every step but the insertion of a stale row of this id keeps cache and table in
      agreement about it. */
  lemma StepCoh(s: State, step: Step, x: Id)
    requires Inv(s) && Coh(s, x) && Enabled(s, step) && !StaleInsert(s, step, x)
    ensures CacheOk(Apply(s, step)) && Coh(Apply(s, step), x)
  {
    if step.Find? || step.ReadRow? || step.ReadFailed? || step.Release? {
      CohLookupStep(s, step, x);
    } else if step.Touch? || step.Beat? || step.Verify? {
      CohPeerStep(s, step, x);
    } else if step.SweepBegin? || step.SweepInside? || step.Inspect? || step.DropSnapshot? {
      CohSweepStep(s, step, x);
    } else if step.CacheLook? || step.CacheInsert? || step.CacheFinal? {
      CohCacheStep(s, step, x);
    } else if step.Tick? || step.Begin? || step.Restart? {
      CohWorldStep(s, step, x);
    } else {
      CohWriteStep(s, step, x);
    }
  }

  ghost predicate NoStaleAt(run: seq<State>, steps: seq<Step>, k: nat, id: Id)
    requires |run| == |steps| + 1 && k < |steps|
  {
    Enabled(run[k], steps[k]) && !StaleInsert(run[k], steps[k], id)
  }

  /** None of the first `i` steps caches a changed row of this id. */
  ghost predicate NoStale(run: seq<State>, steps: seq<Step>, i: nat, id: Id)
    requires |run| == |steps| + 1 && i <= |steps|
  {
    forall k: nat {:trigger NoStaleAt(run, steps, k, id)} :: k < i ==> NoStaleAt(run, steps, k, id)
  }

  lemma CohAt(run: seq<State>, steps: seq<Step>, k: nat, id: Id)
    requires IsRun(run, steps) && k < |steps| && StepAt(run, steps, k) && NoStaleAt(run, steps, k, id)
    requires CacheOk(run[k]) && Coh(run[k], id)
    ensures CacheOk(run[k + 1]) && Coh(run[k + 1], id)
  {
    RunInv(run, steps, k);
    StepCoh(run[k], steps[k], id);
  }

  lemma {:induction false} RunCoh(run: seq<State>, steps: seq<Step>, i: nat, id: Id)
    requires IsRun(run, steps) && i <= |steps| && NoStale(run, steps, i, id)
    ensures CacheOk(run[i]) && Coh(run[i], id)
  {
    if i > 0 {
      RunCoh(run, steps, i - 1, id);
      assert StepAt(run, steps, i - 1) && NoStaleAt(run, steps, i - 1, id);
      CohAt(run, steps, i - 1, id);
    }
  }

  /** The cached peer of this id, if it was stored and is not being written, equals its row. */
  ghost predicate Agrees(s: State, id: Id) {
    id in s.cache && s.cache[id] in s.heap ==> CohPeer(s, id, s.heap[s.cache[id]])
  }

  lemma StaleBreaks(s: State, step: Step, id: Id)
    requires Inv(s) && Enabled(s, step) && StaleInsert(s, step, id)
    ensures !Agrees(Apply(s, step), id)
  {
    assert TaskOk(s, s.tasks[step.t]);
  }

  /** Cache and table agree about an id all along a run exactly when the run never puts
      into the map a peer of this id whose row has changed since it was read. */
  lemma AgreementIff(run: seq<State>, steps: seq<Step>, i: nat, id: Id)
    requires IsRun(run, steps) && i <= |steps|
    ensures (forall k: nat :: k <= i ==> Agrees(run[k], id)) <==> NoStale(run, steps, i, id)
  {
    if NoStale(run, steps, i, id) {
      forall k: nat | k <= i ensures Agrees(run[k], id) {
        RunCoh(run, steps, k, id);
      }
    } else {
      var k: nat :| k < i && !NoStaleAt(run, steps, k, id);
      assert StepAt(run, steps, k);
      RunInv(run, steps, k);
      StaleBreaks(run[k], steps[k], id);
      assert !Agrees(run[k + 1], id);
    }
  }

  // ----- no eviction between a read and its insertion -----

  /** If step k inserts a stored peer of this id, no eviction took the id out of the map
      since the row was read. */
  ghost predicate FreshAt(run: seq<State>, steps: seq<Step>, k: nat, id: Id)
    requires |run| == |steps| + 1 && k < |steps|
  {
    && Enabled(run[k], steps[k])
    && (Inserts(run[k], steps[k], id) && run[k].tasks[steps[k].t].loader.peer.guid != [] ==>
          Fresh(run[k], run[k].tasks[steps[k].t].loader))
  }

  ghost predicate FreshInserts(run: seq<State>, steps: seq<Step>, i: nat, id: Id)
    requires |run| == |steps| + 1 && i <= |steps|
  {
    forall k: nat {:trigger FreshAt(run, steps, k, id)} :: k < i ==> FreshAt(run, steps, k, id)
  }

  lemma FreshIsNotStale(s: State, step: Step, id: Id)
    requires CacheOk(s) && Coh(s, id) && Enabled(s, step) && TasksOk(s) && Inserts(s, step, id)
    requires Fresh(s, s.tasks[step.t].loader)
    ensures !StaleInsert(s, step, id)
  {
    assert CohTask(s, s.tasks[step.t], id) && TaskOk(s, s.tasks[step.t]);
  }

  lemma {:induction false} FreshNoStale(run: seq<State>, steps: seq<Step>, i: nat, id: Id)
    requires IsRun(run, steps) && i <= |steps| && FreshInserts(run, steps, i, id)
    ensures NoStale(run, steps, i, id)
  {
    if i > 0 {
      FreshNoStale(run, steps, i - 1, id);
      assert FreshAt(run, steps, i - 1, id);
      FreshNoStaleAt(run, steps, i - 1, id);
    }
  }

  lemma FreshNoStaleAt(run: seq<State>, steps: seq<Step>, k: nat, id: Id)
    requires IsRun(run, steps) && k < |steps| && NoStale(run, steps, k, id) && FreshAt(run, steps, k, id)
    ensures NoStaleAt(run, steps, k, id)
  {
    RunCoh(run, steps, k, id);
    RunInv(run, steps, k);
    if StaleInsert(run[k], steps[k], id) {
      FreshIsNotStale(run[k], steps[k], id);
    }
  }

  /** A stored cached peer that is not being written equals its row, and while it is
      being written the row is the previous registration or the staged one. */
  ghost predicate Coherent(s: State, id: Id) {
    id in s.cache && s.cache[id] in s.heap && s.heap[s.cache[id]].guid != [] ==>
      var h, p := s.cache[id], s.heap[s.cache[id]];
      && (!p.inProgress ==> RowIs(s, id, p.guid, p.uuid, p.pk, p.ip))
      && (p.inProgress ==>
            exists t ::
              JobOn(s, t, h) && (PreStage(s, s.tasks[t].job) || RowIs(s, id, p.guid, p.uuid, p.pk, p.ip)))
  }

  lemma CoherentAt(run: seq<State>, steps: seq<Step>, i: nat, id: Id)
    requires IsRun(run, steps) && i <= |steps| && NoStale(run, steps, i, id)
    ensures Coherent(run[i], id)
  {
    RunInv(run, steps, i);
    RunCoh(run, steps, i, id);
    var s := run[i];
    if id in s.cache && s.heap[s.cache[id]].guid != [] && s.heap[s.cache[id]].inProgress {
      var h := s.cache[id];
      assert Current(s, h);
      var t :| JobOn(s, t, h);
      assert TaskOk(s, s.tasks[t]) && CohTask(s, s.tasks[t], id);
    }
  }

  /** Along every run in which no eviction of an id falls between a lookup's read of its
      row and the insertion of what it read, the cache is coherent for that id,
      whatever happens to other ids. */
  lemma CacheCoherence(run: seq<State>, steps: seq<Step>, i: nat, id: Id)
    requires IsRun(run, steps) && i <= |steps| && FreshInserts(run, steps, i, id)
    ensures Coherent(run[i], id)
  {
    FreshNoStale(run, steps, i, id);
    CoherentAt(run, steps, i, id);
  }

  /** The first stale insertion of an id comes after an eviction took that id out of the
      map between the read and the insertion. */
  lemma StaleNeedsEviction(run: seq<State>, steps: seq<Step>, i: nat, id: Id)
    requires IsRun(run, steps) && i < |steps| && NoStale(run, steps, i, id) && !NoStaleAt(run, steps, i, id)
    ensures StepAt(run, steps, i)
    ensures var l := run[i].tasks[steps[i].t].loader;
      l.id == id && exists k :: l.mark <= k < |run[i].evictions| && id in run[i].evictions[k]
  {
    RunCoh(run, steps, i, id);
    RunInv(run, steps, i);
    assert StepAt(run, steps, i);
    if Fresh(run[i], run[i].tasks[steps[i].t].loader) {
      FreshIsNotStale(run[i], steps[i], id);
    }
  }
}
