/** What becomes of a peer's entry, objects and row while nobody registers it. */
module RegistryReload {
  import opened PeerModel
  import opened Registry
  import opened RegistryAddresses
  import opened RegistryFrame
  import opened RegistryInv
  import opened Values

  // ----- quiet steps -----

  /** The step neither stages a registration of this id nor moves it to loopback. */
  ghost predicate QuietFor(s: State, step: Step, id: Id)
    requires Enabled(s, step)
  {
    !BadBeat(s, step, id) && !(step.StageStep? && s.tasks[step.t].h.id == id)
  }

  ghost predicate QuietAt(run: seq<State>, steps: seq<Step>, k: nat, id: Id)
    requires |run| == |steps| + 1 && k < |steps|
  {
    Enabled(run[k], steps[k]) && QuietFor(run[k], steps[k], id)
  }

  ghost predicate QuietRun(run: seq<State>, steps: seq<Step>, m: nat, j: nat, id: Id)
    requires |run| == |steps| + 1 && j <= |steps|
  {
    forall k: nat {:trigger QuietAt(run, steps, k, id)} :: m <= k < j ==> QuietAt(run, steps, k, id)
  }

  // ----- the entry of the map -----

  /** A round of eviction or a restart took the id out of the map. */
  ghost predicate TakenAt(run: seq<State>, k: nat, id: Id)
    requires k + 1 < |run|
  {
    id in run[k].cache && id !in run[k + 1].cache
  }

  ghost predicate TakenOut(run: seq<State>, m: nat, j: nat, id: Id)
    requires j < |run|
  {
    exists k: nat :: m <= k < j && TakenAt(run, k, id)
  }

  lemma SlotCacheStep(s: State, step: Step, id: Id)
    requires Enabled(s, step) && (step.CacheLook? || step.CacheInsert? || step.CacheFinal?)
    ensures id in Apply(s, step).cache ==>
      (id in s.cache && Apply(s, step).cache[id] == s.cache[id]) || Apply(s, step).cache[id].serial >= s.nextSerial
  {
    var t, l := step.t, s.tasks[step.t].loader;
    if l.id !in s.cache && |s.cache| < s.cap && !step.CacheLook? {
      assert Apply(s, step).cache == Publish(s, t, l).cache;
    } else {
      assert Apply(s, step).cache == s.cache;
    }
  }

  /** An entry that was not there before is a new object. */
  lemma SlotStep(s: State, step: Step, id: Id)
    requires Enabled(s, step)
    ensures id in Apply(s, step).cache ==>
      (id in s.cache && Apply(s, step).cache[id] == s.cache[id]) || Apply(s, step).cache[id].serial >= s.nextSerial
    ensures Apply(s, step).nextSerial >= s.nextSerial
  {
    if step.CacheLook? || step.CacheInsert? || step.CacheFinal? {
      SlotCacheStep(s, step, id);
    }
    if !step.Restart? {
      StepFrame(s, step);
    }
  }

  /** An object that was taken out never comes back: the entry is still the object, or,
      once the id was taken out, an object made later. */
  lemma {:induction false} RunSlot(run: seq<State>, steps: seq<Step>, m: nat, j: nat, h: Handle)
    requires IsRun(run, steps) && m <= j <= |steps| && Current(run[m], h)
    ensures run[j].nextSerial >= run[m].nextSerial
    ensures if TakenOut(run, m, j, h.id)
            then h.id in run[j].cache ==> run[j].cache[h.id].serial >= run[m].nextSerial
            else h.id in run[j].cache && run[j].cache[h.id] == h
    decreases j
  {
    if m < j {
      RunSlot(run, steps, m, j - 1, h);
      assert StepAt(run, steps, j - 1);
      SlotStep(run[j - 1], steps[j - 1], h.id);
      SlotOnce(run, steps, m, j, h);
    }
  }

  lemma SlotOnce(run: seq<State>, steps: seq<Step>, m: nat, j: nat, h: Handle)
    requires |run| == |steps| + 1 && m < j <= |steps|
    ensures TakenOut(run, m, j, h.id) <==> TakenOut(run, m, j - 1, h.id) || TakenAt(run, j - 1, h.id)
  {
    if TakenOut(run, m, j, h.id) {
      var k: nat :| m <= k < j && TakenAt(run, k, h.id);
    }
  }

  // ----- stored peers have a guid -----

  /** A peer as its row, or the default, makes it, but for heartbeats. */
  ghost predicate Blank(p: Peer) {
    p.verifiedAt.None? && !p.inProgress && (p.guid == [] ==> p.uuid == [] && p.pk == []) && AddrOk(p) && p.regCount == 0
  }

  ghost predicate BlankTask(task: Task) {
    match task
    case Caching(l, _) => Blank(l.peer)
    case Evicting(next, _, _, _, _) => next.Some? ==> Blank(next.value.peer)
    case Dropping(next, _) => next.Some? ==> Blank(next.value.peer)
    case Persisting(j) => j.guid == [] ==> j.rollback.uuid == []
    case Persisted(j, _) => j.guid == [] ==> j.rollback.uuid == []
    case _ => true
  }

  ghost predicate Keyed(p: Peer) {
    !p.inProgress && p.guid == [] ==> p.uuid == []
  }

  ghost predicate KeyedInv(s: State) {
    (forall h :: h in s.heap ==> Keyed(s.heap[h])) && (forall t :: t in s.tasks ==> BlankTask(s.tasks[t]))
  }

  lemma KeyedSetTask(s: State, t: nat, task: Task)
    requires KeyedInv(s) && BlankTask(task)
    ensures KeyedInv(SetTask(s, t, task)) && KeyedInv(EndTask(s, t)) && KeyedInv(Spawn(s, task))
  {
  }

  lemma KeyedSetPeer(s: State, h: Handle, p: Peer)
    requires KeyedInv(s) && Keyed(p)
    ensures KeyedInv(SetPeer(s, h, p))
  {
  }

  lemma KeyedPublish(s: State, t: nat, l: Loader)
    requires KeyedInv(s) && Blank(l.peer)
    ensures KeyedInv(Publish(s, t, l))
  {
  }

  lemma KeyedLookupStep(s: State, step: Step)
    requires TableOk(s.db) && KeyedInv(s) && Enabled(s, step)
    requires step.Find? || step.ReadRow? || step.ReadFailed? || step.Release?
    ensures KeyedInv(Apply(s, step))
  {
    var t, s' := step.t, Apply(s, step);
    KeyedSetTask(s, t, if t in s'.tasks then s'.tasks[t] else Looking("", Read));
  }

  lemma KeyedSweepStep(s: State, step: Step)
    requires KeyedInv(s) && Enabled(s, step)
    requires step.SweepInside? || step.Inspect? || step.DropSnapshot? || step.Remove?
    ensures KeyedInv(Apply(s, step))
  {
    assert BlankTask(s.tasks[step.t]);
  }

  lemma KeyedCacheStep(s: State, step: Step)
    requires KeyedInv(s) && Enabled(s, step)
    requires step.CacheLook? || step.CacheInsert? || step.CacheFinal?
    ensures KeyedInv(Apply(s, step))
  {
    var t, l := step.t, s.tasks[step.t].loader;
    assert BlankTask(s.tasks[t]);
    if l.id in s.cache {
      KeyedSetTask(s, t, Holding(s.cache[l.id], l.purpose));
    } else if !step.CacheLook? && |s.cache| < s.cap {
      KeyedPublish(s, t, l);
    } else if step.CacheFinal? {
      KeyedSetTask(s, t, Caching(Loader(l.id, l.purpose, DefaultPeer(s.now), false, l.mark), Look));
    } else {
      KeyedSetTask(s, t, Caching(l, if |s.cache| < s.cap then Insert else Sweep));
    }
  }

  lemma KeyedPeerStep(s: State, step: Step)
    requires KeyedInv(s) && Enabled(s, step) && (step.Touch? || step.Beat? || step.Verify?)
    ensures KeyedInv(Apply(s, step))
  {
    var t, h := step.t, s.tasks[step.t].h;
    var p := Apply(s, step).heap[h];
    KeyedSetPeer(s, h, p);
    KeyedSetTask(SetPeer(s, h, p), t, Holding(h, if step.Touch? then s.tasks[t].purpose else Read));
  }

  lemma FinishedKeyed(s: State, t: nat)
    requires Inv(s) && KeyedInv(s) && Enabled(s, Finish(t))
    ensures Keyed(Apply(s, Finish(t)).heap[s.tasks[t].job.h])
  {
    assert TaskOk(s, s.tasks[t]) && BlankTask(s.tasks[t]);
  }

  lemma KeyedFinish(s: State, t: nat)
    requires Inv(s) && KeyedInv(s) && Enabled(s, Finish(t))
    ensures KeyedInv(Apply(s, Finish(t)))
  {
    var h := s.tasks[t].job.h;
    var p := Apply(s, Finish(t)).heap[h];
    FinishedKeyed(s, t);
    KeyedSetPeer(s, h, p);
    KeyedSetTask(SetPeer(s, h, p), t, Looking("", Read));
  }

  lemma KeyedWrite(s: State, t: nat, ok: bool, newGuid: Bytes)
    requires KeyedInv(s) && Enabled(s, WriteRow(t, ok, newGuid))
    ensures KeyedInv(Apply(s, WriteRow(t, ok, newGuid)))
  {
    assert BlankTask(s.tasks[t]);
  }

  lemma KeyedStage(s: State, t: nat, h: Handle, pu: Purpose)
    requires KeyedInv(s) && h in s.heap && pu.Register?
    ensures KeyedInv(DoStage(s, t, h, pu))
  {
    var r := StagePeer(s.heap[h], pu.addr, pu.uuid, pu.pk, !s.unmanaged, s.now);
    var s1 := SetPeer(s, h, r.peer);
    KeyedSetPeer(s, h, r.peer);
    match r.stage
    case Persist(guid, rollback, ip, _) =>
      KeyedSetTask(s1, t, Awaiting(h));
      KeyedSetTask(SetTask(s1, t, Awaiting(h)), t, Persisting(Job(h, guid, pu.uuid, pu.pk, ip, rollback)));
    case _ => KeyedSetTask(s1, t, Verifying(h));
  }

  lemma KeyedStep(s: State, step: Step)
    requires Inv(s) && KeyedInv(s) && Enabled(s, step)
    ensures KeyedInv(Apply(s, step))
  {
    if step.Find? || step.ReadRow? || step.ReadFailed? || step.Release? {
      KeyedLookupStep(s, step);
    } else if step.SweepInside? || step.Inspect? || step.DropSnapshot? || step.Remove? {
      KeyedSweepStep(s, step);
    } else if step.CacheLook? || step.CacheInsert? || step.CacheFinal? {
      KeyedCacheStep(s, step);
    } else if step.Touch? || step.Beat? || step.Verify? {
      KeyedPeerStep(s, step);
    } else if step.Finish? {
      KeyedFinish(s, step.t);
    } else if step.WriteRow? {
      KeyedWrite(s, step.t, step.ok, step.newGuid);
    } else if step.StageStep? {
      KeyedStage(s, step.t, s.tasks[step.t].h, s.tasks[step.t].purpose);
    }
  }

  lemma {:induction false} RunKeyed(run: seq<State>, steps: seq<Step>, i: nat)
    requires IsRun(run, steps) && i <= |steps|
    ensures KeyedInv(run[i])
  {
    if i > 0 {
      RunKeyed(run, steps, i - 1);
      RunInv(run, steps, i - 1);
      assert StepAt(run, steps, i - 1);
      KeyedStep(run[i - 1], steps[i - 1]);
    }
  }

  /** What enters the map is blank. */
  lemma NewIsBlank(s: State, step: Step, h: Handle)
    requires KeyedInv(s) && Enabled(s, step) && (step.CacheInsert? || step.CacheFinal?)
    requires h !in s.heap && h in Apply(s, step).heap
    ensures Blank(Apply(s, step).heap[h])
  {
    assert BlankTask(s.tasks[step.t]);
    assert Apply(s, step).heap[h] == s.tasks[step.t].loader.peer;
  }

  // ----- objects made since -----

  /** An object of this id made since the counter stood at n is as blank as it was made,
      and nothing is about to verify or write it. */
  ghost predicate NewObjects(s: State, id: Id, n: nat) {
    && n <= s.nextSerial
    && (forall h :: h in s.heap && h.id == id && h.serial >= n ==> Blank(s.heap[h]))
    && (forall t :: t in s.tasks ==> OldTask(s.tasks[t], id, n))
  }

  ghost predicate OldTask(task: Task, id: Id, n: nat) {
    match task
    case Verifying(h) => h.id == id ==> h.serial < n
    case Persisting(j) => j.h.id != id
    case Persisted(j, _) => j.h.id != id
    case _ => true
  }

  lemma NewSetTask(s: State, t: nat, task: Task, id: Id, n: nat)
    requires NewObjects(s, id, n) && OldTask(task, id, n)
    ensures NewObjects(SetTask(s, t, task), id, n) && NewObjects(EndTask(s, t), id, n) && NewObjects(Spawn(s, task), id, n)
  {
  }

  lemma NewSetPeer(s: State, h: Handle, p: Peer, id: Id, n: nat)
    requires NewObjects(s, id, n) && (h.id == id && h.serial >= n ==> Blank(p))
    ensures NewObjects(SetPeer(s, h, p), id, n)
  {
  }

  lemma NewPublish(s: State, t: nat, l: Loader, id: Id, n: nat)
    requires NewObjects(s, id, n) && Blank(l.peer)
    ensures NewObjects(Publish(s, t, l), id, n)
  {
  }

  lemma NewLookupStep(s: State, step: Step, id: Id, n: nat)
    requires NewObjects(s, id, n) && Enabled(s, step)
    requires step.Find? || step.ReadRow? || step.ReadFailed? || step.Release?
    ensures NewObjects(Apply(s, step), id, n)
  {
    var t, s' := step.t, Apply(s, step);
    NewSetTask(s, t, if t in s'.tasks then s'.tasks[t] else Looking(id, Read), id, n);
  }

  lemma NewSweepStep(s: State, step: Step, id: Id, n: nat)
    requires NewObjects(s, id, n) && Enabled(s, step) && (step.SweepInside? || step.Inspect?)
    ensures NewObjects(Apply(s, step), id, n)
  {
    NewSetTask(s, step.t, Apply(s, step).tasks[step.t], id, n);
  }

  lemma NewDropStep(s: State, step: Step, id: Id, n: nat)
    requires NewObjects(s, id, n) && Enabled(s, step) && (step.DropSnapshot? || step.Remove?)
    ensures NewObjects(Apply(s, step), id, n)
  {
  }

  lemma NewCacheStep(s: State, step: Step, id: Id, n: nat)
    requires KeyedInv(s) && NewObjects(s, id, n) && Enabled(s, step)
    requires step.CacheLook? || step.CacheInsert? || step.CacheFinal?
    ensures NewObjects(Apply(s, step), id, n)
  {
    var t, l := step.t, s.tasks[step.t].loader;
    assert BlankTask(s.tasks[t]);
    if l.id in s.cache {
      NewSetTask(s, t, Holding(s.cache[l.id], l.purpose), id, n);
    } else if !step.CacheLook? && |s.cache| < s.cap {
      NewPublish(s, t, l, id, n);
    } else if step.CacheFinal? {
      NewSetTask(s, t, Caching(Loader(l.id, l.purpose, DefaultPeer(s.now), false, l.mark), Look), id, n);
    } else {
      NewSetTask(s, t, Caching(l, if |s.cache| < s.cap then Insert else Sweep), id, n);
    }
  }

  lemma NewPeerStep(s: State, step: Step, id: Id, n: nat)
    requires NewObjects(s, id, n) && Enabled(s, step) && (step.Touch? || step.Beat? || step.Verify?)
    requires QuietFor(s, step, id)
    ensures NewObjects(Apply(s, step), id, n)
  {
    var t, h := step.t, s.tasks[step.t].h;
    var p := Apply(s, step).heap[h];
    assert OldTask(s.tasks[t], id, n);
    NewSetPeer(s, h, p, id, n);
    NewSetTask(SetPeer(s, h, p), t, Holding(h, if step.Touch? then s.tasks[t].purpose else Read), id, n);
  }

  lemma NewWriteStep(s: State, step: Step, id: Id, n: nat)
    requires NewObjects(s, id, n) && Enabled(s, step) && (step.Finish? || step.WriteRow?)
    ensures NewObjects(Apply(s, step), id, n)
  {
    assert OldTask(s.tasks[step.t], id, n);
  }

  lemma NewStage(s: State, t: nat, h: Handle, pu: Purpose, id: Id, n: nat)
    requires NewObjects(s, id, n) && h in s.heap && pu.Register? && h.id != id
    ensures NewObjects(DoStage(s, t, h, pu), id, n)
  {
    var r := StagePeer(s.heap[h], pu.addr, pu.uuid, pu.pk, !s.unmanaged, s.now);
    var s1 := SetPeer(s, h, r.peer);
    NewSetPeer(s, h, r.peer, id, n);
    match r.stage
    case Persist(guid, rollback, ip, _) =>
      NewSetTask(s1, t, Awaiting(h), id, n);
      NewSetTask(SetTask(s1, t, Awaiting(h)), t, Persisting(Job(h, guid, pu.uuid, pu.pk, ip, rollback)), id, n);
    case _ => NewSetTask(s1, t, Verifying(h), id, n);
  }

  lemma NewStep(s: State, step: Step, id: Id, n: nat)
    requires KeyedInv(s) && NewObjects(s, id, n) && Enabled(s, step) && QuietFor(s, step, id)
    ensures NewObjects(Apply(s, step), id, n)
  {
    if step.Find? || step.ReadRow? || step.ReadFailed? || step.Release? {
      NewLookupStep(s, step, id, n);
    } else if step.SweepInside? || step.Inspect? {
      NewSweepStep(s, step, id, n);
    } else if step.DropSnapshot? || step.Remove? {
      NewDropStep(s, step, id, n);
    } else if step.CacheLook? || step.CacheInsert? || step.CacheFinal? {
      NewCacheStep(s, step, id, n);
    } else if step.Touch? || step.Beat? || step.Verify? {
      NewPeerStep(s, step, id, n);
    } else if step.Finish? || step.WriteRow? {
      NewWriteStep(s, step, id, n);
    } else if step.StageStep? {
      NewStage(s, step.t, s.tasks[step.t].h, s.tasks[step.t].purpose, id, n);
    }
  }

  lemma {:induction false} RunNew(run: seq<State>, steps: seq<Step>, m: nat, j: nat, id: Id, n: nat)
    requires IsRun(run, steps) && m <= j <= |steps| && QuietRun(run, steps, m, j, id) && NewObjects(run[m], id, n)
    ensures NewObjects(run[j], id, n)
    decreases j
  {
    if m < j {
      RunNew(run, steps, m, j - 1, id, n);
      RunKeyed(run, steps, j - 1);
      assert StepAt(run, steps, j - 1) && QuietAt(run, steps, j - 1, id);
      NewStep(run[j - 1], steps[j - 1], id, n);
    }
  }

  /** Where the cached object of the id is not being written, nothing writes the id. */
  lemma NothingNew(s: State, h: Handle)
    requires Inv(s) && Current(s, h) && !s.heap[h].inProgress
    ensures NewObjects(s, h.id, s.nextSerial)
  {
    forall t | t in s.tasks ensures OldTask(s.tasks[t], h.id, s.nextSerial) {
      assert TaskOk(s, s.tasks[t]);
    }
  }

  // ----- the row -----

  lemma RowStep(s: State, step: Step, id: Id, n: nat, g: Bytes, row: Row)
    requires Inv(s) && Enabled(s, step) && NewObjects(s, id, n)
    requires g in s.db && s.db[g] == row && row.id == id
    ensures g in Apply(s, step).db && Apply(s, step).db[g] == row
  {
    if step.WriteRow? {
      assert TaskOk(s, s.tasks[step.t]) && OldTask(s.tasks[step.t], id, n);
      WriteTable(s, s.tasks[step.t].job, step.ok, step.newGuid);
    } else if !step.Restart? {
      StepFrame(s, step);
    }
  }

  lemma {:induction false} RunRow(run: seq<State>, steps: seq<Step>, m: nat, j: nat, id: Id, n: nat, g: Bytes, row: Row)
    requires IsRun(run, steps) && m <= j <= |steps| && QuietRun(run, steps, m, j, id) && NewObjects(run[m], id, n)
    requires g in run[m].db && run[m].db[g] == row && row.id == id
    ensures g in run[j].db && run[j].db[g] == row
    decreases j
  {
    if m < j {
      RunRow(run, steps, m, j - 1, id, n, g, row);
      RunNew(run, steps, m, j - 1, id, n);
      RunInv(run, steps, j - 1);
      assert StepAt(run, steps, j - 1);
      RowStep(run[j - 1], steps[j - 1], id, n, g, row);
    }
  }
}
