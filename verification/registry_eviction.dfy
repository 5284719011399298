/** Exactly which candidates a removal round takes out, over whole runs. */
module RegistryEviction {
  import opened Clock
  import opened PeerAnswers
  import opened PeerModel
  import opened Registry
  import opened RegistryFrame
  import opened RegistryInv
  import opened RegistryTheorems
  import opened Values

  // ----- what refreshes an access time -----

  lemma PeerStepAccess(s: State, step: Step, h: Handle)
    requires Enabled(s, step) && h in s.heap && (step.Touch? ==> s.tasks[step.t].h != h)
    requires step.Touch? || step.Beat? || step.Verify? || step.Finish?
    ensures h in Apply(s, step).heap && Apply(s, step).heap[h].lastAccess == s.heap[h].lastAccess
  {
  }

  lemma StageAccess(s: State, t: nat, h: Handle)
    requires Enabled(s, StageStep(t)) && h in s.heap
    ensures h in Apply(s, StageStep(t)).heap && Apply(s, StageStep(t)).heap[h].lastAccess == s.heap[h].lastAccess
  {
    var pu := s.tasks[t].purpose;
    StageEffect(s.heap[s.tasks[t].h], pu.addr, pu.uuid, pu.pk, !s.unmanaged, s.now);
  }

  /** Only a lookup that finds the peer at its first look at the map refreshes the access
      time. A lookup that misses, reads the row and then meets the peer in the map gets
      it as it is. */
  lemma OnlyFirstLookRefreshes(s: State, step: Step, h: Handle)
    requires Enabled(s, step) && !step.Restart? && h in s.heap && h.serial < s.nextSerial
    requires !(step.Touch? && s.tasks[step.t].h == h)
    ensures h in Apply(s, step).heap && Apply(s, step).heap[h].lastAccess == s.heap[h].lastAccess
  {
    if step.Touch? || step.Beat? || step.Verify? || step.Finish? {
      PeerStepAccess(s, step, h);
    } else if step.StageStep? {
      StageAccess(s, step.t, h);
    } else {
      StepFrame(s, step);
    }
  }

  // ----- from inspection to removal -----

  /** The eviction has inspected the object, and keeps what it saw if it found it idle. */
  ghost predicate Tracks(s: State, t: nat, h: Handle, k: Option<Candidate>) {
    && t in s.tasks && t < s.nextTask && s.tasks[t].Evicting?
    && h.id in s.tasks[t].snapshot && s.tasks[t].snapshot[h.id] == h && h.id in s.tasks[t].inspected
    && (h.id in s.tasks[t].candidates <==> k.Some?)
    && (k.Some? ==> s.tasks[t].candidates[h.id] == k.value)
  }

  ghost predicate TouchAt(run: seq<State>, steps: seq<Step>, k: nat, h: Handle)
    requires |run| == |steps| + 1 && k < |steps|
  {
    StepAt(run, steps, k) && steps[k].Touch? && run[k].tasks[steps[k].t].h == h
  }

  /** The object was looked up, and refreshed, at one of these steps. */
  ghost predicate TouchedIn(run: seq<State>, steps: seq<Step>, m: nat, i: nat, h: Handle)
    requires |run| == |steps| + 1 && i <= |steps|
  {
    exists k: nat :: m <= k < i && TouchAt(run, steps, k, h)
  }

  /** The round of this eviction has not ended and the process has not restarted. */
  ghost predicate SameRound(steps: seq<Step>, m: nat, i: nat, t: nat)
    requires i <= |steps|
  {
    forall k :: m <= k < i ==> !steps[k].Restart? && !(steps[k].Remove? && steps[k].t == t)
  }

  lemma TracksStep(s: State, step: Step, t: nat, h: Handle, k: Option<Candidate>)
    requires Enabled(s, step) && !step.Restart? && !(step.Remove? && step.t == t) && Tracks(s, t, h, k)
    ensures Tracks(Apply(s, step), t, h, k)
  {
    if !(step.Inspect? && step.t == t) {
      StepFrame(s, step);
      assert !Moves(step, t);
    }
  }

  lemma TracksAt(run: seq<State>, steps: seq<Step>, j: nat, t: nat, h: Handle, k: Option<Candidate>)
    requires IsRun(run, steps) && j < |steps| && Tracks(run[j], t, h, k) && SameRound(steps, j, j + 1, t)
    ensures Tracks(run[j + 1], t, h, k)
    ensures h in run[j].heap && h in run[j + 1].heap
    ensures !TouchAt(run, steps, j, h) ==> run[j + 1].heap[h].lastAccess == run[j].heap[h].lastAccess
  {
    RunInv(run, steps, j);
    assert StepAt(run, steps, j);
    assert TaskOk(run[j], run[j].tasks[t]);
    assert Current(run[j], h);
    TracksStep(run[j], steps[j], t, h, k);
    RunInv(run, steps, j + 1);
    assert TaskOk(run[j + 1], run[j + 1].tasks[t]);
    if !TouchAt(run, steps, j, h) {
      OnlyFirstLookRefreshes(run[j], steps[j], h);
    }
  }

  lemma {:induction false} TracksRun(run: seq<State>, steps: seq<Step>, m: nat, i: nat, t: nat, h: Handle, k: Option<Candidate>)
    requires IsRun(run, steps) && m <= i <= |steps| && SameRound(steps, m, i, t)
    requires Tracks(run[m], t, h, k) && h in run[m].heap
    ensures Tracks(run[i], t, h, k) && h in run[i].heap
    ensures !TouchedIn(run, steps, m, i, h) ==> run[i].heap[h].lastAccess == run[m].heap[h].lastAccess
    decreases i
  {
    if m < i {
      TracksRun(run, steps, m, i - 1, t, h, k);
      TracksAt(run, steps, i - 1, t, h, k);
      if !TouchedIn(run, steps, m, i, h) {
        assert !TouchAt(run, steps, i - 1, h);
        assert !TouchedIn(run, steps, m, i - 1, h);
      }
    }
  }

  /** A refresh after the inspection is later than the access time the inspection saw. */
  lemma TouchedIsLater(run: seq<State>, steps: seq<Step>, m: nat, i: nat, h: Handle, access: Time)
    requires IsRun(run, steps) && m <= i <= |steps| && h in run[i].heap && TouchedIn(run, steps, m, i, h)
    requires access < run[m].now
    ensures run[i].heap[h].lastAccess > access
  {
    var k: nat :| m <= k < i && TouchAt(run, steps, k, h);
    TouchedAt(run, steps, k, h);
    AccessRun(run, steps, k + 1, i, h, run[k].now);
    ClockRuns(run, steps, m, k);
  }

  /** Step m inspects the object. */
  ghost predicate InspectedAt(run: seq<State>, steps: seq<Step>, m: nat, t: nat, h: Handle)
    requires |run| == |steps| + 1 && m < |steps|
  {
    Enabled(run[m], steps[m]) && steps[m] == Inspect(t, h.id) && run[m].tasks[t].snapshot[h.id] == h
  }

  /** It has not been looked up for the idle time nor registered for a minute. */
  ghost predicate IdleAt(run: seq<State>, steps: seq<Step>, m: nat, t: nat, h: Handle)
    requires |run| == |steps| + 1 && m < |steps| && InspectedAt(run, steps, m, t, h)
  {
    var p, now := run[m].heap[h], run[m].now;
    now >= p.lastAccess + run[m].tasks[t].idle * SEC && now >= p.lastReg + 60 * SEC
  }

  lemma InspectionTracks(run: seq<State>, steps: seq<Step>, m: nat, t: nat, h: Handle) returns (k: Option<Candidate>)
    requires IsRun(run, steps) && m < |steps| && InspectedAt(run, steps, m, t, h)
    ensures h in run[m + 1].heap && run[m + 1].heap[h] == run[m].heap[h] && run[m + 1].now == run[m].now
    ensures Tracks(run[m + 1], t, h, k) && (k.Some? <==> IdleAt(run, steps, m, t, h))
    ensures k.Some? ==> k.value.access == run[m].heap[h].lastAccess && k.value.access < run[m].now
  {
    RunInv(run, steps, m);
    assert StepAt(run, steps, m);
    assert TaskOk(run[m], run[m].tasks[t]);
    var p := run[m].heap[h];
    IdleIff(p, run[m].tasks[t].idle, run[m].now);
    k := if IsCandidate(p, run[m].tasks[t].idle, run[m].now) then Some(Candidate(p.lastAccess, p.lastReg)) else None;
  }

  lemma IdleIff(p: Peer, idle: nat, now: Time)
    requires idle > 0
    ensures IsCandidate(p, idle, now) <==> now >= p.lastAccess + idle * SEC && now >= p.lastReg + 60 * SEC
  {
    SecondsIff(Elapsed(now, p.lastAccess), idle);
    SecondsIff(Elapsed(now, p.lastReg), 60);
  }

  lemma SecondsIff(d: nat, n: nat)
    ensures AsSecs(d) >= n <==> d >= n * SEC
  {
  }

  lemma RemovedIff(s: State, t: nat, locked: set<Id>, h: Handle, k: Option<Candidate>)
    requires Inv(s) && Tracks(s, t, h, k) && h in s.heap
    ensures h.id in Removed(s, s.tasks[t], locked) <==>
      k.Some? && Holders(s, h) == {t} && h.id !in locked && s.heap[h].lastAccess == k.value.access
  {
    assert TaskOk(s, s.tasks[t]);
    assert Current(s, h) && t in Holders(s, h);
    if StrongCount(s, h) <= 2 {
      SoleHolder(s, t, h);
    }
  }

  /** Until the removal the eviction keeps what it saw of the object, and the object's
      access time is still that one if and only if no lookup has refreshed it. */
  lemma RoundTracks(run: seq<State>, steps: seq<Step>, m: nat, i: nat, t: nat, h: Handle) returns (k: Option<Candidate>)
    requires IsRun(run, steps) && m < i < |steps| && InspectedAt(run, steps, m, t, h) && SameRound(steps, m + 1, i, t)
    ensures Tracks(run[i], t, h, k) && h in run[i].heap && (k.Some? <==> IdleAt(run, steps, m, t, h))
    ensures k.Some? ==> (run[i].heap[h].lastAccess == k.value.access <==> !TouchedIn(run, steps, m + 1, i, h))
  {
    k := InspectionTracks(run, steps, m, t, h);
    TracksRun(run, steps, m + 1, i, t, h, k);
    if k.Some? && TouchedIn(run, steps, m + 1, i, h) {
      TouchedIsLater(run, steps, m + 1, i, h, k.value.access);
    }
  }

  lemma TakenIff(run: seq<State>, steps: seq<Step>, i: nat, t: nat, locked: set<Id>, h: Handle, k: Option<Candidate>)
    requires IsRun(run, steps) && i < |steps| && StepAt(run, steps, i) && steps[i] == Remove(t, locked)
    requires Tracks(run[i], t, h, k) && h in run[i].heap
    ensures h.id in run[i].cache
    ensures h.id !in run[i + 1].cache <==>
      k.Some? && Holders(run[i], h) == {t} && h.id !in locked && run[i].heap[h].lastAccess == k.value.access
  {
    RunInv(run, steps, i);
    assert TaskOk(run[i], run[i].tasks[t]);
    RemovedIff(run[i], t, locked, h, k);
  }

  /** An entry is taken out by the round that inspected it exactly when it was idle at the
      inspection and, at the removal, no other task holds it, its lock is free, and no
      lookup has refreshed it since the inspection. So a peer that registered in between
      is evicted only if the registering task had found it before the inspection or
      without refreshing it. */
  lemma EvictedIff(run: seq<State>, steps: seq<Step>, m: nat, i: nat, t: nat, locked: set<Id>, h: Handle)
    requires IsRun(run, steps) && m < i < |steps| && InspectedAt(run, steps, m, t, h)
    requires SameRound(steps, m + 1, i, t) && StepAt(run, steps, i) && steps[i] == Remove(t, locked)
    ensures h.id in run[i].cache
    ensures h.id !in run[i + 1].cache <==>
      && IdleAt(run, steps, m, t, h)
      && Holders(run[i], h) == {t} && h.id !in locked && !TouchedIn(run, steps, m + 1, i, h)
  {
    var k := RoundTracks(run, steps, m, i, t, h);
    TakenIff(run, steps, i, t, locked, h, k);
  }

  /** A removal round of one task never takes out an object another task may still use,
      however it came by it. */
  lemma HeldPeerStays(run: seq<State>, steps: seq<Step>, i: nat, t: nat, h: Handle)
    requires IsRun(run, steps) && i < |steps| && StepAt(run, steps, i) && steps[i].Remove? && steps[i].t != t
    requires t in run[i].tasks && HoldsLive(run[i].tasks[t], h)
    ensures Current(run[i + 1], h)
  {
    RunInv(run, steps, i);
    StepFrame(run[i], steps[i]);
    assert t < run[i].nextTask && !Moves(steps[i], t);
    CacheSafety(run, steps, i + 1);
  }
}
