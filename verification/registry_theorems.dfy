/** What every run of the registry keeps: stored identities, evictions that never
    touch a peer in use, and rollbacks that put back exactly what was there. */
module RegistryTheorems {
  import opened Clock
  import opened PeerModel
  import opened Registry
  import opened RegistryFrame
  import opened RegistryInv
  import opened Values

  // ----- stored identities -----

  lemma StepTable(s: State, step: Step, s': State)
    requires Inv(s) && Enabled(s, step) && s' == Apply(s, step)
    ensures TableGrows(s, s'.db) && s'.unmanaged == s.unmanaged
  {
    if step.WriteRow? {
      WriteInv(s, step.t, step.ok, step.newGuid);
    } else if !step.Restart? {
      StepFrame(s, step);
    }
  }

  lemma TableAt(run: seq<State>, steps: seq<Step>, k: nat)
    requires IsRun(run, steps) && k < |steps|
    ensures TableGrows(run[k], run[k + 1].db) && run[k + 1].unmanaged == run[k].unmanaged
  {
    RunInv(run, steps, k);
    assert StepAt(run, steps, k);
    StepTable(run[k], steps[k], run[k + 1]);
  }

  lemma {:induction false} RunTable(run: seq<State>, steps: seq<Step>, i: nat, j: nat)
    requires IsRun(run, steps) && i <= j < |run|
    ensures TableGrows(run[i], run[j].db) && run[j].unmanaged == run[i].unmanaged
    decreases j
  {
    if i < j {
      RunTable(run, steps, i, j - 1);
      TableAt(run, steps, j - 1);
    }
  }

  /** Once a row for an id is stored, every later read of that id finds a row, with
      the same guid, and without a management server with the same uuid: over every
      interleaving of registrations, heartbeats, failed writes, rollbacks,
      evictions, reloads and restarts. */
  lemma StoredIdentityIsPermanent(run: seq<State>, steps: seq<Step>, i: nat, j: nat, id: Id, before: Stored)
    requires IsRun(run, steps) && i <= j < |run|
    requires IsStored(run[i].db, id, Some(before))
    ensures !IsStored(run[j].db, id, None)
    ensures forall after :: IsStored(run[j].db, id, Some(after)) ==>
      after.guid == before.guid && (run[0].unmanaged ==> after.row.uuid == before.row.uuid)
  {
    RunTable(run, steps, 0, i);
    RunTable(run, steps, i, j);
    RunInv(run, steps, j);
    assert before.guid in run[j].db;
  }

  lemma {:induction false} ClockRuns(run: seq<State>, steps: seq<Step>, i: nat, j: nat)
    requires IsRun(run, steps) && i <= j < |run|
    ensures run[i].now <= run[j].now
    decreases j
  {
    if i < j {
      ClockRuns(run, steps, i, j - 1);
      assert StepAt(run, steps, j - 1);
      if !steps[j - 1].Restart? {
        StepFrame(run[j - 1], steps[j - 1]);
      }
    }
  }

  // ----- eviction -----

  /** In every reachable state the map is within its bound, every reference that may
      still be used is to the very object the map holds for that id, and a peer is
      marked as being written exactly when one write, and only one, is under way. */
  lemma CacheSafety(run: seq<State>, steps: seq<Step>, i: nat)
    requires IsRun(run, steps) && i < |run|
    ensures |run[i].cache| <= run[i].cap
    ensures forall t, h :: t in run[i].tasks && HoldsLive(run[i].tasks[t], h) ==> Current(run[i], h)
    ensures forall h :: Current(run[i], h) ==> (run[i].heap[h].inProgress <==> exists t :: JobOn(run[i], t, h))
    ensures forall t, u, h :: JobOn(run[i], t, h) && JobOn(run[i], u, h) ==> t == u
  {
    RunInv(run, steps, i);
    var s := run[i];
    forall t, h | t in s.tasks && HoldsLive(s.tasks[t], h) ensures Current(s, h) {
      assert TaskOk(s, s.tasks[t]);
    }
    forall t, h | JobOn(s, t, h) ensures s.heap[h].inProgress {
      assert TaskOk(s, s.tasks[t]);
    }
  }

  /** A removal round, whatever other evictions run beside it, takes an entry out of
      the map only if no task but this eviction refers to it, no write is under way
      on it, it was not looked up for the idle time, and, unless it registered after the
      inspection, it has not registered for a minute. */
  lemma EvictionSafety(run: seq<State>, steps: seq<Step>, i: nat, id: Id)
    requires IsRun(run, steps) && i < |steps| && StepAt(run, steps, i) && steps[i].Remove?
    requires id in run[i].cache && id !in run[i + 1].cache
    ensures Holders(run[i], run[i].cache[id]) == {steps[i].t}
    ensures id in run[i].tasks[steps[i].t].snapshot && run[i].tasks[steps[i].t].snapshot[id] == run[i].cache[id]
    ensures !run[i].heap[run[i].cache[id]].inProgress
    ensures AsSecs(Elapsed(run[i].now, run[i].heap[run[i].cache[id]].lastAccess)) >= run[i].tasks[steps[i].t].idle
    ensures run[i].tasks[steps[i].t].idle >= ACTIVE_GRACE_SECS
    ensures id in run[i].tasks[steps[i].t].candidates
    ensures run[i].heap[run[i].cache[id]].lastReg == run[i].tasks[steps[i].t].candidates[id].reg ==>
      AsSecs(Elapsed(run[i].now, run[i].heap[run[i].cache[id]].lastReg)) >= ACTIVE_GRACE_SECS
  {
    RunInv(run, steps, i);
    assert StepAt(run, steps, i);
    var s := run[i];
    assert TaskOk(s, s.tasks[steps[i].t]);
    RemovedIsIdle(s, steps[i].t, steps[i].locked, id);
  }

  ghost predicate AccessedSince(s: State, h: Handle, at: Time) {
    h.serial < s.nextSerial && (h in s.heap ==> s.heap[h].lastAccess >= at)
  }

  lemma AccessChange(s: State, step: Step, h: Handle, at: Time)
    requires Enabled(s, step) && h in s.heap && AccessedSince(s, h, at) && at <= s.now
    requires step.Touch? || step.Beat? || step.Verify? || step.Finish?
    ensures AccessedSince(Apply(s, step), h, at)
  {
  }

  lemma AccessStage(s: State, t: nat, h: Handle, at: Time)
    requires Enabled(s, StageStep(t)) && h in s.heap && AccessedSince(s, h, at)
    ensures AccessedSince(Apply(s, StageStep(t)), h, at)
  {
  }

  /** No step lets the time of the last lookup fall back. */
  lemma AccessStep(s: State, step: Step, h: Handle, at: Time)
    requires Enabled(s, step) && AccessedSince(s, h, at) && at <= s.now
    ensures AccessedSince(Apply(s, step), h, at)
  {
    if step.Restart? {
    } else if h !in s.heap {
      StepFrame(s, step);
    } else if step.Touch? || step.Beat? || step.Verify? || step.Finish? {
      AccessChange(s, step, h, at);
    } else if step.StageStep? {
      AccessStage(s, step.t, h, at);
    } else {
      StepFrame(s, step);
    }
  }

  lemma {:induction false} AccessRun(run: seq<State>, steps: seq<Step>, i: nat, j: nat, h: Handle, at: Time)
    requires IsRun(run, steps) && i <= j < |run| && AccessedSince(run[i], h, at) && at <= run[i].now
    ensures AccessedSince(run[j], h, at) && run[i].now <= run[j].now
    decreases j
  {
    if i < j {
      AccessRun(run, steps, i, j - 1, h, at);
      assert StepAt(run, steps, j - 1);
      AccessStep(run[j - 1], steps[j - 1], h, at);
      if !steps[j - 1].Restart? {
        StepFrame(run[j - 1], steps[j - 1]);
      }
    }
  }

  lemma TouchedAt(run: seq<State>, steps: seq<Step>, k: nat, h: Handle)
    requires IsRun(run, steps) && k < |steps| && StepAt(run, steps, k)
    requires steps[k].Touch? && run[k].tasks[steps[k].t].h == h
    ensures AccessedSince(run[k + 1], h, run[k].now) && run[k + 1].now == run[k].now
  {
    RunInv(run, steps, k);
  }

  /** A peer that a lookup found at its first look at the map, and so refreshed, is not
      evicted for at least a minute, however the lookup, its caller and any number of
      evictions interleave. */
  lemma RefreshedPeerStays(run: seq<State>, steps: seq<Step>, k: nat, i: nat, h: Handle)
    requires IsRun(run, steps) && k < i < |steps| && StepAt(run, steps, k) && StepAt(run, steps, i)
    requires steps[k].Touch? && run[k].tasks[steps[k].t].h == h
    requires steps[i].Remove? && Current(run[i], h) && !Current(run[i + 1], h)
    ensures run[i].now >= run[k].now + 60 * SEC
  {
    TouchedAt(run, steps, k, h);
    AccessRun(run, steps, k + 1, i, h, run[k].now);
    EvictionSafety(run, steps, i, h.id);
    assert Elapsed(run[i].now, run[i].heap[h].lastAccess) <= Elapsed(run[i].now, run[k].now);
  }

  // ----- rollback -----

  ghost predicate CarriesJob(s: State, t: nat, j: Job) {
    t in s.tasks ==> IsJob(s.tasks[t]) && s.tasks[t].job == j
  }

  lemma StepJob(s: State, step: Step, t: nat, j: Job)
    requires Enabled(s, step) && t < s.nextTask && CarriesJob(s, t, j)
    ensures t < Apply(s, step).nextTask && CarriesJob(Apply(s, step), t, j)
  {
    if !step.Restart? && !(step.WriteRow? && step.t == t) && !(step.Finish? && step.t == t) {
      StepFrame(s, step);
      JobFrame(s, step, Apply(s, step), t, j);
    }
  }

  lemma JobFrame(s: State, step: Step, s': State, t: nat, j: Job)
    requires Enabled(s, step) && Framed(s, step, s') && t < s.nextTask && CarriesJob(s, t, j)
    requires !(step.WriteRow? && step.t == t) && !(step.Finish? && step.t == t)
    ensures t < s'.nextTask && CarriesJob(s', t, j)
  {
  }

  lemma {:induction false} RunJob(run: seq<State>, steps: seq<Step>, i: nat, k: nat, t: nat, j: Job)
    requires IsRun(run, steps) && i <= k < |run|
    requires t < run[i].nextTask && CarriesJob(run[i], t, j)
    ensures t < run[k].nextTask && CarriesJob(run[k], t, j)
    decreases k
  {
    if i < k {
      RunJob(run, steps, i, k - 1, t, j);
      assert StepAt(run, steps, k - 1);
      StepJob(run[k - 1], steps[k - 1], t, j);
    }
  }

  /** Whatever heartbeats, competing registrations, lookups and evictions run between
      the staging of a registration and the end of its failed write, the peer ends
      with the guid, uuid, key, address, registration time and verification time it
      had before it was staged. */
  lemma RollbackIsExact(run: seq<State>, steps: seq<Step>, i: nat, k: nat)
    requires IsRun(run, steps) && i < k < |steps| && StepAt(run, steps, i) && StepAt(run, steps, k)
    requires steps[i].StageStep? && run[i].nextTask in run[i + 1].tasks
    requires steps[k] == Finish(run[i].nextTask) && run[k].tasks[run[i].nextTask].result.None?
    ensures var h := run[i].tasks[steps[i].t].h;
      && h in run[i].heap && h in run[k + 1].heap
      && Current(run[k + 1], h)
      && SameRegistration(run[i].heap[h], run[k + 1].heap[h])
      && !run[k + 1].heap[h].inProgress
  {
    var t := run[i].nextTask;
    StagedAt(run, steps, i);
    RunJob(run, steps, i + 1, k, t, run[i + 1].tasks[t].job);
    FailedAt(run, steps, k, t);
  }

  lemma StagedAt(run: seq<State>, steps: seq<Step>, i: nat)
    requires IsRun(run, steps) && i < |steps| && StepAt(run, steps, i)
    requires steps[i].StageStep? && run[i].nextTask in run[i + 1].tasks
    ensures StagesJob(run[i], steps[i].t, run[i + 1])
  {
    RunInv(run, steps, i);
    StagedJob(run[i], steps[i].t);
  }

  lemma FailedAt(run: seq<State>, steps: seq<Step>, k: nat, t: nat)
    requires IsRun(run, steps) && k < |steps| && StepAt(run, steps, k)
    requires steps[k] == Finish(t) && run[k].tasks[t].result.None?
    ensures var j := run[k].tasks[t].job;
      && Current(run[k + 1], j.h)
      && run[k + 1].heap[j.h].guid == j.guid
      && run[k + 1].heap[j.h] == RollBackPeer(run[k].heap[j.h], j.rollback)
  {
    RunInv(run, steps, k);
    FailedFinish(run[k], t);
  }

  lemma FailedFinish(s: State, t: nat)
    requires Inv(s) && Enabled(s, Finish(t)) && s.tasks[t].result.None?
    ensures var j, s' := s.tasks[t].job, Apply(s, Finish(t));
      && Current(s', j.h)
      && s'.heap[j.h].guid == j.guid
      && s'.heap[j.h] == RollBackPeer(s.heap[j.h], j.rollback)
  {
    assert TaskOk(s, s.tasks[t]);
  }

  /** A staging that spawns a write hands it the peer's previous registration. */
  ghost predicate StagesJob(s: State, t: nat, s': State)
    requires Enabled(s, StageStep(t))
  {
    var p := s.heap[s.tasks[t].h];
    && s.nextTask < s'.nextTask && s.nextTask in s'.tasks
    && s'.tasks[s.nextTask].Persisting?
    && s'.tasks[s.nextTask].job.h == s.tasks[t].h
    && s'.tasks[s.nextTask].job.guid == p.guid
    && s'.tasks[s.nextTask].job.rollback == Rollback(p.socketAddr, p.lastReg, p.uuid, p.pk, p.ip, p.verifiedAt)
  }

  lemma StagedJob(s: State, t: nat)
    requires AllocOk(s) && Enabled(s, StageStep(t)) && s.nextTask in Apply(s, StageStep(t)).tasks
    ensures StagesJob(s, t, Apply(s, StageStep(t)))
  {
    assert s.nextTask !in s.tasks;
  }
}
