/** What a registration may change of a stored device, over whole runs. */
module RegistryIdentity {
  import opened PeerAnswers
  import opened Registry
  import opened RegistryCoherence
  import opened RegistryFrame
  import opened RegistryInv
  import opened RegistryStaging
  import opened RegistryTheorems
  import opened Values

  // ----- when a write succeeds -----

  /** A write that the database does not fail succeeds exactly when it updates a stored
      row, or the drawn guid is new and no row has the id. */
  lemma WriteSucceedsIff(s: State, j: Job, ok: bool, newGuid: Bytes)
    requires Inv(s) && JobOk(s, j) && newGuid != []
    ensures WriteOf(s.db, j, ok, newGuid).result.Some? <==>
      ok && (j.guid != [] || (newGuid !in s.db && forall g :: g in s.db ==> s.db[g].id != j.h.id))
  {
    assert PeerOk(s, j.h);
  }

  // ----- key and address -----

  /** The write of a stored device keeps its uuid, and its key or its address. */
  ghost predicate JobKeeps(j: Job) {
    j.rollback.uuid != [] ==> j.uuid == j.rollback.uuid && (j.pk == j.rollback.pk || j.ip == j.rollback.ip)
  }

  lemma StagedKeeps(s: State, t: nat)
    requires AllocOk(s) && Enabled(s, StageStep(t)) && s.unmanaged && s.nextTask in Apply(s, StageStep(t)).tasks
    ensures var task := Apply(s, StageStep(t)).tasks[s.nextTask]; IsJob(task) && JobKeeps(task.job)
  {
    assert s.nextTask !in s.tasks;
    var p, pu := s.heap[s.tasks[t].h], s.tasks[t].purpose;
    StageEffect(p, pu.addr, pu.uuid, pu.pk, false, s.now);
    if p.uuid != [] {
      StageKeepsIdentity(p, pu.addr, pu.uuid, pu.pk, s.now);
    }
  }

  lemma StagedKeepsAt(run: seq<State>, steps: seq<Step>, q: nat, t: nat)
    requires IsRun(run, steps) && q < |steps| && StagesAt(run, steps, q, t) && run[q].unmanaged
    ensures t < run[q + 1].nextTask && IsJob(run[q + 1].tasks[t]) && JobKeeps(run[q + 1].tasks[t].job)
  {
    RunInv(run, steps, q);
    StagedKeeps(run[q], steps[q].t);
    StagingKeepsAddr(run, steps, q, t);
  }

  lemma JobKeepsAt(run: seq<State>, steps: seq<Step>, i: nat, t: nat)
    requires IsRun(run, steps) && i <= |steps| && t in run[i].tasks && IsJob(run[i].tasks[t]) && run[i].unmanaged
    ensures JobKeeps(run[i].tasks[t].job)
  {
    var q := StagingExists(run, steps, i, t);
    RunTable(run, steps, q, i);
    StagedKeepsAt(run, steps, q, t);
    RunJob(run, steps, q + 1, i, t, run[q + 1].tasks[t].job);
  }

  ghost predicate RowKept(a: Row, b: Row) {
    b.id == a.id && b.uuid == a.uuid && (b.pk == a.pk || b.ip == a.ip)
  }

  lemma WriteKeepsRow(s: State, t: nat, ok: bool, newGuid: Bytes, g: Bytes)
    requires Inv(s) && s.unmanaged && g in s.db && Coh(s, s.db[g].id) && newGuid != []
    requires t in s.tasks && s.tasks[t].Persisting? && JobKeeps(s.tasks[t].job)
    ensures var db := WriteOf(s.db, s.tasks[t].job, ok, newGuid).db; g in db && RowKept(s.db[g], db[g])
  {
    var j := s.tasks[t].job;
    assert TaskOk(s, s.tasks[t]) && CohTask(s, s.tasks[t], s.db[g].id);
    assert PeerOk(s, j.h);
  }

  /** Without a management server no step changes both the key and the address of a stored
      device, nor its uuid, as long as no changed row of it was cached. */
  lemma KeyOrAddressStays(run: seq<State>, steps: seq<Step>, i: nat, g: Bytes)
    requires IsRun(run, steps) && i < |steps| && run[i].unmanaged
    requires g in run[i].db && NoStale(run, steps, i, run[i].db[g].id)
    ensures g in run[i + 1].db && RowKept(run[i].db[g], run[i + 1].db[g])
  {
    assert StepAt(run, steps, i);
    var step := steps[i];
    if step.WriteRow? {
      RunInv(run, steps, i);
      RunCoh(run, steps, i, run[i].db[g].id);
      JobKeepsAt(run, steps, i, step.t);
      WriteKeepsRow(run[i], step.t, step.ok, step.newGuid, g);
    } else if !step.Restart? {
      StepFrame(run[i], step);
    }
  }
}
