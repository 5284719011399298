/** How often one cached peer may be registered, over whole runs. */
module RegistryRegistrations {
  import opened Clock
  import opened PeerAnswers
  import opened PeerModel
  import opened Registry
  import opened RegistryFrame
  import opened RegistryInv
  import opened RegistryReload
  import opened RegistryTheorems

  ghost predicate StagesOn(run: seq<State>, steps: seq<Step>, k: nat, h: Handle)
    requires |run| == |steps| + 1 && k < |steps|
  {
    Enabled(run[k], steps[k]) && steps[k].StageStep? && run[k].tasks[steps[k].t].h == h
  }

  function StageOf(s: State, t: nat): Stage
    requires Enabled(s, StageStep(t))
  {
    var pu := s.tasks[t].purpose;
    StagePeer(s.heap[s.tasks[t].h], pu.addr, pu.uuid, pu.pk, !s.unmanaged, s.now).stage
  }

  /** Step k registers the object and is let through, whether or not it brings news. */
  ghost predicate CountedAt(run: seq<State>, steps: seq<Step>, k: nat, h: Handle)
    requires |run| == |steps| + 1 && k < |steps|
  {
    StagesOn(run, steps, k, h) && (StageOf(run[k], steps[k].t).Unchanged? || StageOf(run[k], steps[k].t).Persist?)
  }

  ghost predicate RefusedAt(run: seq<State>, steps: seq<Step>, k: nat, h: Handle)
    requires |run| == |steps| + 1 && k < |steps|
  {
    StagesOn(run, steps, k, h) && StageOf(run[k], steps[k].t).TooFrequent?
  }

  // ----- what changes the counter -----

  lemma StageCounter(s: State, t: nat, h: Handle)
    requires Enabled(s, StageStep(t)) && s.tasks[t].h == h
    ensures h in Apply(s, StageStep(t)).heap
    ensures var p, q := s.heap[h], Apply(s, StageStep(t)).heap[h];
      if StageOf(s, t).Unchanged? || StageOf(s, t).Persist? then Counts(p, q, s.now)
      else q.regAt == p.regAt && q.regCount == p.regCount
  {
    var pu := s.tasks[t].purpose;
    StageEffect(s.heap[h], pu.addr, pu.uuid, pu.pk, !s.unmanaged, s.now);
  }

  lemma PeerStepCounter(s: State, step: Step, h: Handle)
    requires Enabled(s, step) && h in s.heap && (step.Touch? || step.Beat? || step.Verify? || step.Finish?)
    ensures h in Apply(s, step).heap
    ensures Apply(s, step).heap[h].regAt == s.heap[h].regAt && Apply(s, step).heap[h].regCount == s.heap[h].regCount
  {
  }

  /** Only the object's own registrations touch its counter. */
  lemma CounterStays(s: State, step: Step, h: Handle)
    requires Enabled(s, step) && !step.Restart? && h in s.heap && h.serial < s.nextSerial
    requires !(step.StageStep? && s.tasks[step.t].h == h)
    ensures h in Apply(s, step).heap
    ensures Apply(s, step).heap[h].regAt == s.heap[h].regAt && Apply(s, step).heap[h].regCount == s.heap[h].regCount
  {
    if step.Touch? || step.Beat? || step.Verify? || step.Finish? {
      PeerStepCounter(s, step, h);
    } else {
      StepFrame(s, step);
    }
  }

  // ----- at most three in seven seconds -----

  /** At least n registrations have been counted since `at`. */
  ghost predicate CountedSince(s: State, h: Handle, n: nat, at: Time) {
    h.serial < s.nextSerial && (h in s.heap ==> s.heap[h].regCount >= n && s.heap[h].regAt >= at)
  }

  lemma CountedStep(s: State, step: Step, h: Handle, n: nat, at: Time)
    requires Enabled(s, step) && CountedSince(s, h, n, at) && at <= s.now < at + 7 * SEC
    ensures CountedSince(Apply(s, step), h, n, at)
  {
    if !step.Restart? {
      StepFrame(s, step);
      if h in s.heap {
        if step.StageStep? && s.tasks[step.t].h == h {
          StageCounter(s, step.t, h);
        } else {
          CounterStays(s, step, h);
        }
      }
    }
  }

  lemma {:induction false} CountedRun(run: seq<State>, steps: seq<Step>, m: nat, i: nat, h: Handle, n: nat, at: Time)
    requires IsRun(run, steps) && m <= i <= |steps| && CountedSince(run[m], h, n, at)
    requires at <= run[m].now && run[i].now < at + 7 * SEC
    ensures CountedSince(run[i], h, n, at)
    decreases i
  {
    if m < i {
      ClockRuns(run, steps, i - 1, i);
      CountedRun(run, steps, m, i - 1, h, n, at);
      ClockRuns(run, steps, m, i - 1);
      assert StepAt(run, steps, i - 1);
      CountedStep(run[i - 1], steps[i - 1], h, n, at);
    }
  }

  /** A counted registration adds one, as long as seven seconds have not passed. */
  lemma CountedOneMore(run: seq<State>, steps: seq<Step>, k: nat, h: Handle, n: nat, at: Time)
    requires IsRun(run, steps) && k < |steps| && CountedAt(run, steps, k, h)
    requires n > 0 ==> CountedSince(run[k], h, n, at)
    requires at <= run[k].now < at + 7 * SEC
    ensures CountedSince(run[k + 1], h, n + 1, at) && run[k + 1].now == run[k].now
  {
    RunInv(run, steps, k);
    assert StepAt(run, steps, k);
    StageCounter(run[k], steps[k].t, h);
    StepFrame(run[k], steps[k]);
  }

  lemma CountedUntil(run: seq<State>, steps: seq<Step>, k: nat, i: nat, h: Handle, n: nat, at: Time)
    requires IsRun(run, steps) && k < i <= |steps| && CountedAt(run, steps, k, h)
    requires n > 0 ==> CountedSince(run[k], h, n, at)
    requires at <= run[k].now <= run[i].now < at + 7 * SEC
    ensures CountedSince(run[i], h, n + 1, at)
  {
    CountedOneMore(run, steps, k, h, n, at);
    CountedRun(run, steps, k + 1, i, h, n + 1, at);
  }

  lemma CountedNow(s: State, t: nat)
    requires Enabled(s, StageStep(t)) && (StageOf(s, t).Unchanged? || StageOf(s, t).Persist?)
    ensures s.heap[s.tasks[t].h].regCount < 3 || s.now >= s.heap[s.tasks[t].h].regAt + 7 * SEC
    ensures Apply(s, StageStep(t)).now == s.now
  {
    var pu := s.tasks[t].purpose;
    StageAnswers(s.heap[s.tasks[t].h], pu.addr, pu.uuid, pu.pk, !s.unmanaged, s.now);
  }

  lemma CountedIsCalm(run: seq<State>, steps: seq<Step>, k: nat, h: Handle)
    requires IsRun(run, steps) && k < |steps| && CountedAt(run, steps, k, h)
    ensures run[k].heap[h].regCount < 3 || run[k].now >= run[k].heap[h].regAt + 7 * SEC
  {
    CountedNow(run[k], steps[k].t);
  }

  /** Of any four registrations of a cached peer that are let through, the last comes at
      least seven seconds after the first: never more than three in less than seven
      seconds, whatever else happens in between. */
  lemma FourTakeSevenSeconds(run: seq<State>, steps: seq<Step>, h: Handle, a: nat, b: nat, c: nat, d: nat)
    requires IsRun(run, steps) && a < b < c < d < |steps|
    requires CountedAt(run, steps, a, h) && CountedAt(run, steps, b, h)
    requires CountedAt(run, steps, c, h) && CountedAt(run, steps, d, h)
    ensures run[d].now >= run[a].now + 7 * SEC
  {
    ClockRuns(run, steps, a, b);
    ClockRuns(run, steps, b, c);
    ClockRuns(run, steps, c, d);
    var at := run[a].now;
    if run[d].now < at + 7 * SEC {
      CountedUntil(run, steps, a, b, h, 0, at);
      CountedUntil(run, steps, b, c, h, 1, at);
      CountedUntil(run, steps, c, d, h, 2, at);
      CountedIsCalm(run, steps, d, h);
    }
  }

  // ----- a refusal is earned -----

  /** Step k is the n-th counted registration of a burst, in which each one came less than
      seven seconds after the one before. */
  ghost predicate BurstAt(run: seq<State>, steps: seq<Step>, k: nat, h: Handle, n: nat)
    requires |run| == |steps| + 1 && k < |steps|
    decreases n
  {
    && CountedAt(run, steps, k, h)
    && (n > 1 ==> exists j: nat :: j < k && BurstAt(run, steps, j, h, n - 1) && run[k].now < run[j].now + 7 * SEC)
  }

  /** The counter of the object is the length of a burst that ended when it says. */
  ghost predicate Earned(run: seq<State>, steps: seq<Step>, i: nat, h: Handle)
    requires |run| == |steps| + 1 && i <= |steps|
  {
    h in run[i].heap && run[i].heap[h].regCount > 0 ==>
      exists k: nat :: k < i && BurstAt(run, steps, k, h, run[i].heap[h].regCount) && run[k].now == run[i].heap[h].regAt
  }

  lemma StageEarned(run: seq<State>, steps: seq<Step>, k: nat, h: Handle)
    requires IsRun(run, steps) && k < |steps| && StagesOn(run, steps, k, h) && Earned(run, steps, k, h)
    ensures Earned(run, steps, k + 1, h)
  {
    assert StepAt(run, steps, k);
    StageCounter(run[k], steps[k].t, h);
    if CountedAt(run, steps, k, h) {
      var n := run[k + 1].heap[h].regCount;
      if n > 1 {
        var j: nat :| j < k && BurstAt(run, steps, j, h, n - 1) && run[j].now == run[k].heap[h].regAt;
        assert run[k].now < run[j].now + 7 * SEC;
      }
      assert BurstAt(run, steps, k, h, n);
    }
  }

  lemma EarnedAt(run: seq<State>, steps: seq<Step>, k: nat, h: Handle)
    requires IsRun(run, steps) && k < |steps| && Earned(run, steps, k, h)
    ensures Earned(run, steps, k + 1, h)
  {
    RunInv(run, steps, k);
    assert StepAt(run, steps, k);
    if h in run[k + 1].heap {
      StepFrame(run[k], steps[k]);
      if h !in run[k].heap {
        RunKeyed(run, steps, k);
        NewIsBlank(run[k], steps[k], h);
      } else if StagesOn(run, steps, k, h) {
        StageEarned(run, steps, k, h);
      } else {
        CounterStays(run[k], steps[k], h);
      }
    }
  }

  lemma {:induction false} RunEarned(run: seq<State>, steps: seq<Step>, i: nat, h: Handle)
    requires IsRun(run, steps) && i <= |steps|
    ensures Earned(run, steps, i, h)
  {
    if i > 0 {
      RunEarned(run, steps, i - 1, h);
      EarnedAt(run, steps, i - 1, h);
    }
  }

  lemma RefusedNow(s: State, t: nat)
    requires Enabled(s, StageStep(t)) && StageOf(s, t).TooFrequent?
    ensures var p := s.heap[s.tasks[t].h]; p.regCount >= 3 && s.now < p.regAt + 7 * SEC
  {
    var pu := s.tasks[t].purpose;
    StageAnswers(s.heap[s.tasks[t].h], pu.addr, pu.uuid, pu.pk, !s.unmanaged, s.now);
  }

  lemma BurstBefore(run: seq<State>, steps: seq<Step>, i: nat, h: Handle) returns (c: nat)
    requires IsRun(run, steps) && i < |steps| && RefusedAt(run, steps, i, h)
    ensures c < i && CountedAt(run, steps, c, h) && run[i].now < run[c].now + 7 * SEC
    ensures exists n :: n >= 3 && BurstAt(run, steps, c, h, n)
  {
    RefusedNow(run[i], steps[i].t);
    RunEarned(run, steps, i, h);
    c :| c < i && BurstAt(run, steps, c, h, run[i].heap[h].regCount) && run[c].now == run[i].heap[h].regAt;
  }

  lemma BurstEarlier(run: seq<State>, steps: seq<Step>, k: nat, h: Handle, n: nat) returns (j: nat)
    requires |run| == |steps| + 1 && k < |steps| && n > 1 && BurstAt(run, steps, k, h, n)
    ensures j < k && CountedAt(run, steps, j, h) && BurstAt(run, steps, j, h, n - 1) && run[k].now < run[j].now + 7 * SEC
  {
    j :| j < k && BurstAt(run, steps, j, h, n - 1) && run[k].now < run[j].now + 7 * SEC;
  }

  /** A registration is refused as too frequent only if three earlier ones of the same
      cached peer were let through, each less than seven seconds after the one before,
      and the last less than seven seconds ago. */
  lemma RefusalIsEarned(run: seq<State>, steps: seq<Step>, i: nat, h: Handle) returns (a: nat, b: nat, c: nat)
    requires IsRun(run, steps) && i < |steps| && RefusedAt(run, steps, i, h)
    ensures a < b < c < i
    ensures CountedAt(run, steps, a, h) && CountedAt(run, steps, b, h) && CountedAt(run, steps, c, h)
    ensures run[i].now < run[c].now + 7 * SEC && run[c].now < run[b].now + 7 * SEC && run[b].now < run[a].now + 7 * SEC
  {
    c := BurstBefore(run, steps, i, h);
    var n :| n >= 3 && BurstAt(run, steps, c, h, n);
    b := BurstEarlier(run, steps, c, h, n);
    a := BurstEarlier(run, steps, b, h, n - 1);
  }
}
