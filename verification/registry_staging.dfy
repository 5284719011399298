/** From the staging of a registration to the end of its write. */
module RegistryStaging {
  import opened PeerModel
  import opened Registry
  import opened RegistryAddresses
  import opened RegistryFrame
  import opened RegistryInv
  import opened RegistryTheorems

  // ----- the address of a write under way -----

  /** Step q staged the registration that task t writes. */
  ghost predicate StagesAt(run: seq<State>, steps: seq<Step>, q: nat, t: nat)
    requires |run| == |steps| + 1 && q < |steps|
  {
    StepAt(run, steps, q) && steps[q].StageStep? && run[q].nextTask == t && t in run[q + 1].tasks
  }

  /** Every write under way afterwards was under way before. */
  ghost predicate JobsFrom(s: State, s': State) {
    forall t :: t in s'.tasks && IsJob(s'.tasks[t]) ==> t in s.tasks && IsJob(s.tasks[t])
  }

  lemma JobsSetTask(s: State, t: nat, task: Task)
    requires !IsJob(task)
    ensures JobsFrom(s, SetTask(s, t, task)) && JobsFrom(s, EndTask(s, t)) && JobsFrom(s, Spawn(s, task))
  {
  }

  lemma JobsLookup(s: State, step: Step)
    requires Enabled(s, step) && (step.Find? || step.ReadRow? || step.ReadFailed? || step.Release?)
    ensures JobsFrom(s, Apply(s, step))
  {
    var t, s' := step.t, Apply(s, step);
    JobsSetTask(s, t, if t in s'.tasks then s'.tasks[t] else Looking("", Read));
  }

  lemma JobsCache(s: State, step: Step)
    requires Enabled(s, step) && (step.CacheLook? || step.CacheInsert? || step.CacheFinal?)
    ensures JobsFrom(s, Apply(s, step))
  {
    var t, s' := step.t, Apply(s, step);
    assert t in s'.tasks ==> s'.tasks[t].Holding? || s'.tasks[t].Caching?;
    assert forall u :: u in s'.tasks && u != t ==> u in s.tasks && s'.tasks[u] == s.tasks[u];
  }

  lemma JobsSweep(s: State, step: Step)
    requires Enabled(s, step)
    requires step.SweepBegin? || step.SweepInside? || step.Inspect? || step.Remove? || step.DropSnapshot?
    ensures JobsFrom(s, Apply(s, step))
  {
  }

  lemma JobsPeer(s: State, step: Step)
    requires Enabled(s, step) && (step.Touch? || step.Beat? || step.Verify? || step.Tick? || step.Begin?)
    ensures JobsFrom(s, Apply(s, step))
  {
  }

  lemma JobsWrite(s: State, step: Step)
    requires Enabled(s, step) && (step.WriteRow? || step.Finish? || step.Restart?)
    ensures JobsFrom(s, Apply(s, step))
  {
  }

  lemma JobsStage(s: State, u: nat, t: nat)
    requires Enabled(s, StageStep(u)) && t != s.nextTask && t in Apply(s, StageStep(u)).tasks
    requires IsJob(Apply(s, StageStep(u)).tasks[t])
    ensures t in s.tasks && IsJob(s.tasks[t])
  {
  }

  /** A write under way was under way before the step, or the step staged it. */
  lemma JobOrigin(s: State, step: Step, t: nat)
    requires Enabled(s, step) && t in Apply(s, step).tasks && IsJob(Apply(s, step).tasks[t])
    ensures (t in s.tasks && IsJob(s.tasks[t])) || (step.StageStep? && t == s.nextTask)
  {
    if step.StageStep? {
      if t != s.nextTask {
        JobsStage(s, step.t, t);
      }
    } else if step.Find? || step.ReadRow? || step.ReadFailed? || step.Release? {
      JobsLookup(s, step);
    } else if step.CacheLook? || step.CacheInsert? || step.CacheFinal? {
      JobsCache(s, step);
    } else if step.SweepBegin? || step.SweepInside? || step.Inspect? || step.Remove? || step.DropSnapshot? {
      JobsSweep(s, step);
    } else if step.Touch? || step.Beat? || step.Verify? || step.Tick? || step.Begin? {
      JobsPeer(s, step);
    } else {
      JobsWrite(s, step);
    }
  }

  lemma {:induction false} StagingExists(run: seq<State>, steps: seq<Step>, i: nat, t: nat) returns (q: nat)
    requires IsRun(run, steps) && i <= |steps| && t in run[i].tasks && IsJob(run[i].tasks[t])
    ensures q < i && StagesAt(run, steps, q, t)
  {
    JobOriginAt(run, steps, i - 1, t);
    if t in run[i - 1].tasks && IsJob(run[i - 1].tasks[t]) {
      q := StagingExists(run, steps, i - 1, t);
    } else {
      q := i - 1;
    }
  }

  lemma JobOriginAt(run: seq<State>, steps: seq<Step>, k: nat, t: nat)
    requires IsRun(run, steps) && k < |steps| && t in run[k + 1].tasks && IsJob(run[k + 1].tasks[t])
    ensures (t in run[k].tasks && IsJob(run[k].tasks[t])) || StagesAt(run, steps, k, t)
  {
    assert StepAt(run, steps, k);
    JobOrigin(run[k], steps[k], t);
  }

  /** While task t writes, the object it staged has its address at the stored one. */
  ghost predicate KeepsAddr(s: State, t: nat, h: Handle) {
    && t < s.nextTask && h.serial < s.nextSerial
    && (t in s.tasks ==> IsJob(s.tasks[t]) && s.tasks[t].job.h == h && h in s.heap && AddrOk(s.heap[h]))
  }

  lemma StageKeepsAddr(s: State, t: nat)
    requires Inv(s) && Enabled(s, StageStep(t)) && s.nextTask in Apply(s, StageStep(t)).tasks
    ensures KeepsAddr(Apply(s, StageStep(t)), s.nextTask, s.tasks[t].h)
  {
    assert s.nextTask !in s.tasks;
  }

  lemma PeerKeepsAddr(s: State, step: Step, t: nat, h: Handle)
    requires Enabled(s, step) && !BadBeat(s, step, h.id) && t in s.tasks && KeepsAddr(s, t, h) && !Moves(step, t)
    requires step.Touch? || step.Beat? || step.Verify?
    ensures KeepsAddr(Apply(s, step), t, h)
  {
  }

  /** A second registration finds the peer busy. */
  lemma BusyKeepsAddr(s: State, u: nat, t: nat, h: Handle)
    requires Inv(s) && Enabled(s, StageStep(u)) && t in s.tasks && KeepsAddr(s, t, h) && s.tasks[u].h == h && u != t
    ensures KeepsAddr(Apply(s, StageStep(u)), t, h)
  {
    assert TaskOk(s, s.tasks[t]);
    StepFrame(s, StageStep(u));
    assert Apply(s, StageStep(u)).heap[h] == s.heap[h];
  }

  lemma FrameKeepsAddr(s: State, step: Step, s': State, t: nat, h: Handle)
    requires Enabled(s, step) && Framed(s, step, s') && KeepsAddr(s, t, h)
    requires t in s.tasks ==> !Moves(step, t) && !Changes(s, step, h)
    requires t !in s.tasks ==> !Moves(step, t)
    ensures KeepsAddr(s', t, h)
  {
  }

  lemma OwnKeepsAddr(s: State, step: Step, t: nat, h: Handle)
    requires Enabled(s, step) && t in s.tasks && KeepsAddr(s, t, h) && Moves(step, t)
    ensures KeepsAddr(Apply(s, step), t, h)
  {
  }

  lemma ElsewhereKeepsAddr(s: State, step: Step, t: nat, h: Handle)
    requires Inv(s) && Enabled(s, step) && !step.Restart? && KeepsAddr(s, t, h)
    requires t in s.tasks ==> !Moves(step, t) && !step.Touch? && !step.Beat? && !step.Verify?
    requires t in s.tasks && step.StageStep? ==> s.tasks[step.t].h != h
    ensures KeepsAddr(Apply(s, step), t, h)
  {
    if t in s.tasks && step.Finish? {
      OtherJob(s, t, step.t);
    }
    StepFrame(s, step);
    FrameKeepsAddr(s, step, Apply(s, step), t, h);
  }

  lemma KeepsAddrStep(s: State, step: Step, t: nat, h: Handle)
    requires Inv(s) && Enabled(s, step) && !BadBeat(s, step, h.id) && KeepsAddr(s, t, h)
    ensures KeepsAddr(Apply(s, step), t, h)
  {
    if step.Restart? {
    } else if t in s.tasks && Moves(step, t) {
      OwnKeepsAddr(s, step, t, h);
    } else if t in s.tasks && (step.Touch? || step.Beat? || step.Verify?) {
      PeerKeepsAddr(s, step, t, h);
    } else if t in s.tasks && step.StageStep? && s.tasks[step.t].h == h {
      BusyKeepsAddr(s, step.t, t, h);
    } else {
      ElsewhereKeepsAddr(s, step, t, h);
    }
  }

  lemma {:induction false} RunKeepsAddr(run: seq<State>, steps: seq<Step>, m: nat, i: nat, t: nat, h: Handle)
    requires IsRun(run, steps) && m <= i <= |steps| && KeepsAddr(run[m], t, h) && NoBadBeat(run, steps, m, i, h.id)
    ensures KeepsAddr(run[i], t, h)
    decreases i
  {
    if m < i {
      RunKeepsAddr(run, steps, m, i - 1, t, h);
      RunInv(run, steps, i - 1);
      assert StepAt(run, steps, i - 1) && NoBadBeatAt(run, steps, i - 1, h.id);
      KeepsAddrStep(run[i - 1], steps[i - 1], t, h);
    }
  }

  /** No heartbeat has moved the peer to loopback since the write was staged. */
  ghost predicate UnmovedSinceStaging(run: seq<State>, steps: seq<Step>, i: nat, t: nat, id: Id)
    requires |run| == |steps| + 1 && i <= |steps|
  {
    forall q: nat {:trigger StagesAt(run, steps, q, t)} :: q < i && StagesAt(run, steps, q, t) ==> NoBadBeat(run, steps, q + 1, i, id)
  }

  lemma StagedAddr(run: seq<State>, steps: seq<Step>, i: nat, t: nat)
    requires IsRun(run, steps) && i <= |steps| && t in run[i].tasks && IsJob(run[i].tasks[t])
    requires UnmovedSinceStaging(run, steps, i, t, run[i].tasks[t].job.h.id)
    ensures var h := run[i].tasks[t].job.h; h in run[i].heap && AddrOk(run[i].heap[h])
  {
    var q := StagingExists(run, steps, i, t);
    StagingKeepsAddr(run, steps, q, t);
    var h := run[q + 1].tasks[t].job.h;
    RunJob(run, steps, q + 1, i, t, run[q + 1].tasks[t].job);
    RunKeepsAddr(run, steps, q + 1, i, t, h);
  }

  lemma StagingKeepsAddr(run: seq<State>, steps: seq<Step>, q: nat, t: nat)
    requires IsRun(run, steps) && q < |steps| && StagesAt(run, steps, q, t)
    ensures t < run[q + 1].nextTask && IsJob(run[q + 1].tasks[t])
    ensures KeepsAddr(run[q + 1], t, run[q + 1].tasks[t].job.h)
  {
    RunInv(run, steps, q);
    StageKeepsAddr(run[q], steps[q].t);
  }
}
