/** What a step leaves alone. The theorems about runs use this description of a step
    and the exact effect of the few steps they are about. */
module RegistryFrame {
  import opened PeerModel
  import opened Registry
  import opened Values

  /** Task u takes the step. */
  predicate Moves(step: Step, u: nat) {
    match step
    case Tick(_) => false
    case Begin(_, _) => false
    case SweepBegin(_) => false
    case Restart => false
    case Find(t) => t == u
    case Touch(t) => t == u
    case ReadRow(t, _) => t == u
    case ReadFailed(t) => t == u
    case CacheLook(t) => t == u
    case CacheInsert(t) => t == u
    case CacheFinal(t) => t == u
    case SweepInside(t) => t == u
    case Inspect(t, _) => t == u
    case Remove(t, _) => t == u
    case DropSnapshot(t) => t == u
    case Beat(t) => t == u
    case StageStep(t) => t == u
    case Verify(t) => t == u
    case WriteRow(t, _, _) => t == u
    case Finish(t) => t == u
    case Release(t) => t == u
  }

  /** The peer object the step may change. */
  predicate Changes(s: State, step: Step, h: Handle)
    requires Enabled(s, step)
  {
    match step
    case Touch(t) => s.tasks[t].h == h
    case Beat(t) => s.tasks[t].h == h
    case StageStep(t) => s.tasks[t].h == h
    case Verify(t) => s.tasks[t].h == h
    case Finish(t) => s.tasks[t].job.h == h
    case _ => false
  }

  ghost predicate ScalarFrame(s: State, step: Step, s': State) {
    && s'.now >= s.now && s'.cap == s.cap && s'.unmanaged == s.unmanaged
    && s'.nextTask >= s.nextTask && s'.nextSerial >= s.nextSerial
    && (!step.WriteRow? ==> s'.db == s.db)
    && (!step.Remove? ==> s'.evictions == s.evictions)
  }

  ghost predicate TaskFrame(s: State, step: Step, s': State) {
    forall u: nat :: u < s.nextTask && !Moves(step, u) ==>
      (u in s.tasks ==> u in s'.tasks && s'.tasks[u] == s.tasks[u]) && (u in s'.tasks ==> u in s.tasks)
  }

  ghost predicate HeapFrame(s: State, step: Step, s': State)
    requires Enabled(s, step)
  {
    && (forall h :: h in s.heap && h.serial < s.nextSerial && !Changes(s, step, h) ==>
          h in s'.heap && s'.heap[h] == s.heap[h])
    && (forall h :: h in s'.heap && !(h in s.heap) ==> (step.CacheInsert? || step.CacheFinal?) && h.serial >= s.nextSerial)
  }

  ghost predicate CacheFrame(s: State, step: Step, s': State) {
    forall id :: id in s.cache && !step.Remove? ==> id in s'.cache && s'.cache[id] == s.cache[id]
  }

  ghost predicate Framed(s: State, step: Step, s': State)
    requires Enabled(s, step)
  {
    ScalarFrame(s, step, s') && TaskFrame(s, step, s') && HeapFrame(s, step, s') && CacheFrame(s, step, s')
  }

  lemma FrameSetTask(s: State, step: Step, t: nat, task: Task)
    requires Enabled(s, step) && !step.Restart? && Moves(step, t) && t in s.tasks
    ensures Framed(s, step, SetTask(s, t, task))
    ensures Framed(s, step, EndTask(s, t))
  {
    FrameEndTask(s, step, t);
  }

  lemma FrameEndTask(s: State, step: Step, t: nat)
    requires Enabled(s, step) && !step.Restart? && Moves(step, t) && t in s.tasks
    ensures Framed(s, step, EndTask(s, t))
  {
  }

  lemma FramePublish(s: State, step: Step, t: nat, l: Loader)
    requires Enabled(s, step) && (step.CacheInsert? || step.CacheFinal?) && Moves(step, t) && t in s.tasks && l.id !in s.cache
    ensures Framed(s, step, Publish(s, t, l))
  {
  }

  lemma FrameFind(s: State, t: nat)
    requires Enabled(s, Find(t))
    ensures Framed(s, Find(t), Apply(s, Find(t)))
  {
    var id, purpose := s.tasks[t].id, s.tasks[t].purpose;
    FrameSetTask(s, Find(t), t, if id in s.cache then Touching(s.cache[id], purpose) else Missed(id, purpose));
  }

  lemma FrameRead(s: State, t: nat, stored: Option<Stored>)
    requires Enabled(s, ReadRow(t, stored))
    ensures Framed(s, ReadRow(t, stored), Apply(s, ReadRow(t, stored)))
  {
    var p := if stored.Some? then FromRow(stored.value, s.now) else DefaultPeer(s.now);
    FrameSetTask(s, ReadRow(t, stored), t,
      Caching(Loader(s.tasks[t].id, s.tasks[t].purpose, p, stored.Some?, |s.evictions|), Look));
  }

  lemma FrameEnd(s: State, step: Step)
    requires Enabled(s, step) && (step.ReadFailed? || step.Release?)
    ensures Framed(s, step, Apply(s, step))
  {
    FrameSetTask(s, step, step.t, s.tasks[step.t]);
  }

  lemma FrameTouch(s: State, t: nat)
    requires Enabled(s, Touch(t))
    ensures Framed(s, Touch(t), Apply(s, Touch(t)))
  {
  }

  lemma FrameCache(s: State, step: Step)
    requires Enabled(s, step)
    requires step.CacheLook? || step.CacheInsert? || step.CacheFinal?
    ensures Framed(s, step, Apply(s, step))
  {
    var t, l := step.t, s.tasks[step.t].loader;
    if l.id in s.cache {
      FrameSetTask(s, step, t, Holding(s.cache[l.id], l.purpose));
    } else if !step.CacheLook? && |s.cache| < s.cap {
      FramePublish(s, step, t, l);
    } else if step.CacheFinal? {
      FrameSetTask(s, step, t, Caching(Loader(l.id, l.purpose, DefaultPeer(s.now), false, l.mark), Look));
    } else {
      FrameSetTask(s, step, t, Caching(l, if |s.cache| < s.cap then Insert else Sweep));
    }
  }

  lemma FrameSweep(s: State, step: Step)
    requires Enabled(s, step)
    requires step.SweepBegin? || step.SweepInside? || step.Inspect? || step.Remove? || step.DropSnapshot?
    ensures Framed(s, step, Apply(s, step))
  {
  }

  lemma FramePeer(s: State, step: Step)
    requires Enabled(s, step)
    requires step.Beat? || step.Verify?
    ensures Framed(s, step, Apply(s, step))
  {
  }

  lemma FrameSpawned(s: State, step: Step, h: Handle, p: Peer, t: nat, task: Task, spawned: Task)
    requires Enabled(s, step) && !step.Restart? && Moves(step, t) && t in s.tasks && h in s.heap && Changes(s, step, h)
    ensures Framed(s, step, Spawn(SetTask(SetPeer(s, h, p), t, task), spawned))
  {
  }

  lemma FrameSetPeer(s: State, step: Step, h: Handle, p: Peer, t: nat, task: Task)
    requires Enabled(s, step) && !step.Restart? && Moves(step, t) && t in s.tasks && h in s.heap && Changes(s, step, h)
    ensures Framed(s, step, SetTask(SetPeer(s, h, p), t, task))
    ensures Framed(s, step, EndTask(SetPeer(s, h, p), t))
  {
  }

  lemma FrameStage(s: State, t: nat)
    requires Enabled(s, StageStep(t))
    ensures Framed(s, StageStep(t), Apply(s, StageStep(t)))
  {
    var h, pu := s.tasks[t].h, s.tasks[t].purpose;
    var r := StagePeer(s.heap[h], pu.addr, pu.uuid, pu.pk, !s.unmanaged, s.now);
    match r.stage
    case Persist(guid, rollback, ip, _) =>
      FrameSpawned(s, StageStep(t), h, r.peer, t, Awaiting(h), Persisting(Job(h, guid, pu.uuid, pu.pk, ip, rollback)));
    case _ => FrameSetPeer(s, StageStep(t), h, r.peer, t, Verifying(h));
  }

  lemma FrameWrite(s: State, step: Step)
    requires Enabled(s, step)
    requires step.WriteRow? || step.Finish? || step.Tick? || step.Begin?
    ensures Framed(s, step, Apply(s, step))
  {
  }

  /** Every step but a restart changes only what its frame allows. */
  lemma StepFrame(s: State, step: Step)
    requires Enabled(s, step) && !step.Restart?
    ensures Framed(s, step, Apply(s, step))
  {
    if step.Find? {
      FrameFind(s, step.t);
    } else if step.ReadRow? {
      FrameRead(s, step.t, step.stored);
    } else if step.ReadFailed? || step.Release? {
      FrameEnd(s, step);
    } else if step.Touch? {
      FrameTouch(s, step.t);
    } else if step.CacheLook? || step.CacheInsert? || step.CacheFinal? {
      FrameCache(s, step);
    } else if step.SweepBegin? || step.SweepInside? || step.Inspect? || step.Remove? || step.DropSnapshot? {
      FrameSweep(s, step);
    } else if step.Beat? || step.Verify? {
      FramePeer(s, step);
    } else if step.StageStep? {
      FrameStage(s, step.t);
    } else {
      FrameWrite(s, step);
    }
  }
}
