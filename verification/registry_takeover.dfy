/** Why a stored device keeps its key or its address only as long as no changed row of it
    is cached. */
module RegistryTakeover {
  import opened PeerModel
  import opened Registry
  import opened RegistryForgotten
  import opened RegistryIdentity
  import opened RegistryWitnesses

  function StaleObj(d: Device): Handle { Handle(d.id, 1) }

  /** The device's old key, sent from somewhere else. */
  function OldKey(d: Device, addr: Addr): Purpose { Register(addr, d.uuid, d.k0) }

  /** The registration holds the peer that was cached from the old row. */
  function Claiming(d: Device, addr: Addr): State {
    var s := StaleCached(d);
    Spawn(SetPeer(s, StaleObj(d), d.Base().(lastAccess := IDLE)), Holding(StaleObj(d), OldKey(d, addr)))
  }

  lemma StaleFacts(d: Device)
    requires d.stored
    ensures var s := StaleCached(d);
      && d.id in s.cache && s.cache[d.id] == StaleObj(d) && StaleObj(d) in s.heap && s.heap[StaleObj(d)] == d.Base()
      && s.now == IDLE && s.nextTask == 4 && 4 !in s.tasks && 5 !in s.tasks
      && s.db == map[d.guid := d.StoredRow(d.k1)] && s.unmanaged == !d.managed
  {
  }

  function TakeoverJob(d: Device, addr: Addr): Job {
    var p := d.Base();
    Job(StaleObj(d), d.guid, d.uuid, d.k0, addr.ip, Rollback(p.socketAddr, p.lastReg, p.uuid, p.pk, p.ip, p.verifiedAt))
  }

  lemma OldKeyStages(d: Device, addr: Addr)
    requires d.Valid() && d.stored && addr.ip != d.addr.ip
    ensures var r := StagePeer(d.Base().(lastAccess := IDLE), addr, d.uuid, d.k0, false, IDLE);
      && r.stage.Persist? && r.stage.guid == d.guid && r.stage.ip == addr.ip
      && r.stage.rollback == TakeoverJob(d, addr).rollback
  {
  }

  lemma PersistStep(s: State, t: nat, h: Handle, pu: Purpose, stage: Stage)
    requires t in s.tasks && s.tasks[t] == Holding(h, pu) && pu.Register? && h in s.heap && t != s.nextTask
    requires StagePeer(s.heap[h], pu.addr, pu.uuid, pu.pk, !s.unmanaged, s.now).stage == stage && stage.Persist?
    ensures Enabled(s, StageStep(t))
    ensures var s' := Apply(s, StageStep(t));
      && s'.db == s.db && s'.unmanaged == s.unmanaged && s.nextTask in s'.tasks
      && s'.tasks[s.nextTask] == Persisting(Job(h, stage.guid, pu.uuid, pu.pk, stage.ip, stage.rollback))
  {
  }

  /** A registration with the device's old key from another address passes the check
      against a peer that was cached from the old row, and its write then changes both the
      key and the address of the row. */
  lemma StaleRowLetsBothChange(d: Device, addr: Addr) returns (run: seq<State>, steps: seq<Step>, i: nat)
    requires d.Valid() && d.stored && !d.managed && |d.k0| == PUBLIC_KEY_LEN && addr.ip != d.addr.ip
    ensures IsRun(run, steps) && i < |steps| && run[i].unmanaged && d.guid in run[i].db && d.guid in run[i + 1].db
    ensures run[i].db[d.guid] == d.StoredRow(d.k1) && run[i + 1].db[d.guid] == Row(d.id, d.uuid, d.k0, addr.ip)
    ensures !RowKept(run[i].db[d.guid], run[i + 1].db[d.guid])
  {
    var base, done := StaleRowCanBeCached(d);
    StaleFacts(d);
    run, steps := ExtendHit(base, done, d.id, OldKey(d, addr));
    var s, j := Claiming(d, addr), TakeoverJob(d, addr);
    OldKeyStages(d, addr);
    PersistStep(s, 4, StaleObj(d), OldKey(d, addr), StagePeer(s.heap[StaleObj(d)], addr, d.uuid, d.k0, false, IDLE).stage);
    Extend(run, steps, StageStep(4));
    var s1 := Apply(s, StageStep(4));
    run, steps := run + [s1], steps + [StageStep(4)];
    i := |steps|;
    WriteStep(s1, 5, j, d.guid);
    Extend(run, steps, WriteRow(5, true, d.guid));
    run, steps := run + [Apply(s1, WriteRow(5, true, d.guid))], steps + [WriteRow(5, true, d.guid)];
  }
}
