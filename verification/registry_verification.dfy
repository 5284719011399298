/** With a management server every accepted heartbeat stands on a recent verification. */
module RegistryVerification {
  import opened Clock
  import opened PeerAnswers
  import opened Registry
  import opened RegistryFrame
  import opened RegistryInv
  import opened RegistryReload
  import opened RegistryStaging
  import opened RegistryTheorems
  import opened Values

  /** Step k records a verification of the object: at the end of a registration that found
      nothing to change, or of a successful write. */
  ghost predicate VerifiesAt(run: seq<State>, steps: seq<Step>, k: nat, h: Handle)
    requires |run| == |steps| + 1 && k < |steps|
  {
    && Enabled(run[k], steps[k])
    && ((steps[k].Verify? && run[k].tasks[steps[k].t].h == h)
        || (steps[k].Finish? && run[k].tasks[steps[k].t].result.Some? && run[k].tasks[steps[k].t].job.h == h))
  }

  /** The verification time was recorded by some earlier step. */
  ghost predicate Recorded(run: seq<State>, steps: seq<Step>, i: nat, h: Handle, v: Option<Time>)
    requires |run| == |steps| + 1 && i <= |steps|
  {
    v.Some? ==> exists k: nat :: k < i && VerifiesAt(run, steps, k, h) && run[k].now == v.value
  }

  ghost predicate RecordedPeers(run: seq<State>, steps: seq<Step>, i: nat)
    requires |run| == |steps| + 1 && i <= |steps|
  {
    && (forall h :: h in run[i].heap ==> Recorded(run, steps, i, h, run[i].heap[h].verifiedAt))
    && (forall t :: t in run[i].tasks && IsJob(run[i].tasks[t]) ==>
          Recorded(run, steps, i, run[i].tasks[t].job.h, run[i].tasks[t].job.rollback.verifiedAt))
  }

  lemma RecordedLater(run: seq<State>, steps: seq<Step>, i: nat, j: nat, h: Handle, v: Option<Time>)
    requires |run| == |steps| + 1 && i <= j <= |steps| && Recorded(run, steps, i, h, v)
    ensures Recorded(run, steps, j, h, v)
  {
  }

  // ----- where a verification time comes from -----

  lemma PeerStepVerified(s: State, step: Step, h: Handle)
    requires Enabled(s, step) && h in s.heap && (step.Touch? || step.Beat? || step.Verify?)
    ensures h in Apply(s, step).heap
    ensures var v := Apply(s, step).heap[h].verifiedAt;
      v == s.heap[h].verifiedAt || (step.Verify? && s.tasks[step.t].h == h && v == Some(s.now))
  {
  }

  lemma FinishVerified(s: State, t: nat, h: Handle)
    requires Enabled(s, Finish(t)) && h in s.heap
    ensures h in Apply(s, Finish(t)).heap
    ensures var v, task := Apply(s, Finish(t)).heap[h].verifiedAt, s.tasks[t];
      || v == s.heap[h].verifiedAt
      || (task.job.h == h && if task.result.Some? then v == Some(s.now) else v == task.job.rollback.verifiedAt)
  {
  }

  lemma StageVerified(s: State, t: nat, h: Handle)
    requires Enabled(s, StageStep(t)) && h in s.heap
    ensures h in Apply(s, StageStep(t)).heap
    ensures Apply(s, StageStep(t)).heap[h].verifiedAt == s.heap[h].verifiedAt
  {
    var pu := s.tasks[t].purpose;
    StageEffect(s.heap[s.tasks[t].h], pu.addr, pu.uuid, pu.pk, !s.unmanaged, s.now);
  }

  lemma PeerRecordedAt(run: seq<State>, steps: seq<Step>, k: nat, h: Handle)
    requires IsRun(run, steps) && k < |steps| && RecordedPeers(run, steps, k) && h in run[k + 1].heap
    ensures Recorded(run, steps, k + 1, h, run[k + 1].heap[h].verifiedAt)
  {
    var s, step := run[k], steps[k];
    RunInv(run, steps, k);
    assert StepAt(run, steps, k);
    StepFrame(s, step);
    if h !in s.heap {
      RunKeyed(run, steps, k);
      NewIsBlank(s, step, h);
    } else {
      RecordedLater(run, steps, k, k + 1, h, s.heap[h].verifiedAt);
      OldRecordedAt(run, steps, k, h);
    }
  }

  lemma OldRecordedAt(run: seq<State>, steps: seq<Step>, k: nat, h: Handle)
    requires IsRun(run, steps) && k < |steps| && RecordedPeers(run, steps, k) && !steps[k].Restart?
    requires h in run[k].heap && h.serial < run[k].nextSerial && Recorded(run, steps, k + 1, h, run[k].heap[h].verifiedAt)
    ensures h in run[k + 1].heap && Recorded(run, steps, k + 1, h, run[k + 1].heap[h].verifiedAt)
  {
    var s, step := run[k], steps[k];
    assert StepAt(run, steps, k);
    if step.Touch? || step.Beat? || step.Verify? {
      PeerStepVerified(s, step, h);
      assert step.Verify? && s.tasks[step.t].h == h ==> VerifiesAt(run, steps, k, h);
    } else if step.Finish? {
      FinishVerified(s, step.t, h);
      var task := s.tasks[step.t];
      assert task.job.h == h && task.result.Some? ==> VerifiesAt(run, steps, k, h);
      RecordedLater(run, steps, k, k + 1, task.job.h, task.job.rollback.verifiedAt);
    } else if step.StageStep? {
      StageVerified(s, step.t, h);
    } else {
      StepFrame(s, step);
    }
  }

  // ----- what a failed write puts back -----

  lemma JobCarried(run: seq<State>, steps: seq<Step>, k: nat, t: nat)
    requires IsRun(run, steps) && k < |steps| && t in run[k + 1].tasks && IsJob(run[k + 1].tasks[t])
    requires t in run[k].tasks && IsJob(run[k].tasks[t])
    ensures run[k + 1].tasks[t].job == run[k].tasks[t].job
  {
    RunInv(run, steps, k);
    assert StepAt(run, steps, k);
    StepJob(run[k], steps[k], t, run[k].tasks[t].job);
  }

  lemma JobRecordedAt(run: seq<State>, steps: seq<Step>, k: nat, t: nat)
    requires IsRun(run, steps) && k < |steps| && RecordedPeers(run, steps, k)
    requires t in run[k + 1].tasks && IsJob(run[k + 1].tasks[t])
    ensures Recorded(run, steps, k + 1, run[k + 1].tasks[t].job.h, run[k + 1].tasks[t].job.rollback.verifiedAt)
  {
    JobOriginAt(run, steps, k, t);
    if t in run[k].tasks && IsJob(run[k].tasks[t]) {
      JobCarried(run, steps, k, t);
      RecordedLater(run, steps, k, k + 1, run[k].tasks[t].job.h, run[k].tasks[t].job.rollback.verifiedAt);
    } else {
      StagedAt(run, steps, k);
      var h := run[k].tasks[steps[k].t].h;
      RecordedLater(run, steps, k, k + 1, h, run[k].heap[h].verifiedAt);
    }
  }

  lemma {:induction false} RunRecorded(run: seq<State>, steps: seq<Step>, i: nat)
    requires IsRun(run, steps) && i <= |steps|
    ensures RecordedPeers(run, steps, i)
  {
    if i > 0 {
      RunRecorded(run, steps, i - 1);
      forall h | h in run[i].heap ensures Recorded(run, steps, i, h, run[i].heap[h].verifiedAt) {
        PeerRecordedAt(run, steps, i - 1, h);
      }
      forall t | t in run[i].tasks && IsJob(run[i].tasks[t])
        ensures Recorded(run, steps, i, run[i].tasks[t].job.h, run[i].tasks[t].job.rollback.verifiedAt)
      {
        JobRecordedAt(run, steps, i - 1, t);
      }
    }
  }

  lemma AcceptedNow(s: State, t: nat)
    requires Enabled(s, Beat(t)) && !s.unmanaged && HeartbeatReply(s, Beat(t)) == Some(false)
    ensures var v := s.heap[s.tasks[t].h].verifiedAt; v.Some? && s.now < v.value + 30 * SEC
  {
    BeatAnswers(s.heap[s.tasks[t].h], s.tasks[t].purpose.addr, s.unmanaged, s.now);
  }

  /** With a management server a heartbeat is accepted only if the very object it meets
      was verified less than thirty seconds before, by a registration that was answered
      with success: over every interleaving of writes, rollbacks, evictions and reloads. */
  lemma AcceptedIsVerified(run: seq<State>, steps: seq<Step>, j: nat) returns (k: nat)
    requires IsRun(run, steps) && j < |steps| && Enabled(run[j], steps[j]) && !run[j].unmanaged
    requires HeartbeatReply(run[j], steps[j]) == Some(false)
    ensures k < j && VerifiesAt(run, steps, k, run[j].tasks[steps[j].t].h)
    ensures run[k].now <= run[j].now < run[k].now + 30 * SEC
  {
    AcceptedNow(run[j], steps[j].t);
    RunRecorded(run, steps, j);
    var h := run[j].tasks[steps[j].t].h;
    k :| k < j && VerifiesAt(run, steps, k, h) && run[k].now == run[j].heap[h].verifiedAt.value;
    ClockRuns(run, steps, k, j);
  }
}
