/** Runs that show why the registry's theorems need their conditions. All of them follow
    one device that registers slowly, for the first time or with another key, while a
    second lookup is held up between reading the table and looking at the map again. */
module RegistryWitnesses {
  import opened Clock
  import opened PeerModel
  import opened Registry
  import opened RegistryAddresses
  import opened RegistryCoherence
  import opened RegistryReload
  import opened Values

  // ----- building runs -----

  lemma Extend(run: seq<State>, steps: seq<Step>, step: Step)
    requires IsRun(run, steps) && Enabled(run[|steps|], step)
    ensures IsRun(run + [Apply(run[|steps|], step)], steps + [step])
  {
    var run', steps' := run + [Apply(run[|steps|], step)], steps + [step];
    forall i: nat | i < |steps'| ensures StepAt(run', steps', i) {
      if i < |steps| {
        assert StepAt(run, steps, i);
      }
    }
  }

  /** A run without a heartbeat that moves this id to loopback ends in the state. */
  ghost predicate Reachable(s: State, id: Id) {
    exists run: seq<State>, steps: seq<Step> ::
      IsRun(run, steps) && NoBadBeat(run, steps, 0, |steps|, id) && run[|steps|] == s
  }

  lemma ReachInit(s: State, id: Id)
    requires Init(s)
    ensures Reachable(s, id)
  {
    assert IsRun([s], []);
    assert NoBadBeat([s], [], 0, 0, id);
  }

  lemma ExtendGood(run: seq<State>, steps: seq<Step>, step: Step, id: Id)
    requires IsRun(run, steps) && Enabled(run[|steps|], step) && !BadBeat(run[|steps|], step, id)
    requires NoBadBeat(run, steps, 0, |steps|, id)
    ensures NoBadBeat(run + [Apply(run[|steps|], step)], steps + [step], 0, |steps| + 1, id)
  {
    var run', steps' := run + [Apply(run[|steps|], step)], steps + [step];
    forall k: nat | k < |steps| + 1 ensures NoBadBeatAt(run', steps', k, id) {
      if k < |steps| {
        assert NoBadBeatAt(run, steps, k, id);
      }
    }
  }

  lemma ReachStep(s: State, step: Step, id: Id)
    requires Reachable(s, id) && Enabled(s, step) && !BadBeat(s, step, id)
    ensures Reachable(Apply(s, step), id)
  {
    var run: seq<State>, steps: seq<Step> :|
      IsRun(run, steps) && NoBadBeat(run, steps, 0, |steps|, id) && run[|steps|] == s;
    Extend(run, steps, step);
    ExtendGood(run, steps, step, id);
    assert (run + [Apply(s, step)])[|steps + [step]|] == Apply(s, step);
  }

  /** The same by the effect of a step that is no heartbeat. */
  lemma ReachTo(s: State, step: Step, s': State, id: Id)
    requires Reachable(s, id) && Enabled(s, step) && !step.Beat? && Apply(s, step) == s'
    ensures Reachable(s', id)
  {
    ReachStep(s, step, id);
  }

  /** The run takes this step in this state at i, and only quiet steps after it. */
  ghost predicate Follows(run: seq<State>, steps: seq<Step>, i: nat, s0: State, step0: Step, id: Id) {
    && IsRun(run, steps) && NoBadBeat(run, steps, 0, |steps|, id)
    && i < |steps| && run[i] == s0 && steps[i] == step0 && QuietRun(run, steps, i + 1, |steps|, id)
  }

  ghost predicate After(s0: State, step0: Step, id: Id, s: State) {
    exists run: seq<State>, steps: seq<Step>, i: nat :: Follows(run, steps, i, s0, step0, id) && run[|steps|] == s
  }

  lemma AfterFirst(s0: State, step0: Step, id: Id)
    requires Reachable(s0, id) && Enabled(s0, step0) && !BadBeat(s0, step0, id)
    ensures After(s0, step0, id, Apply(s0, step0))
  {
    var run: seq<State>, steps: seq<Step> :|
      IsRun(run, steps) && NoBadBeat(run, steps, 0, |steps|, id) && run[|steps|] == s0;
    Extend(run, steps, step0);
    ExtendGood(run, steps, step0, id);
    assert Follows(run + [Apply(s0, step0)], steps + [step0], |steps|, s0, step0, id);
  }

  lemma ExtendQuiet(run: seq<State>, steps: seq<Step>, m: nat, step: Step, id: Id)
    requires IsRun(run, steps) && Enabled(run[|steps|], step) && QuietFor(run[|steps|], step, id)
    requires QuietRun(run, steps, m, |steps|, id)
    ensures QuietRun(run + [Apply(run[|steps|], step)], steps + [step], m, |steps| + 1, id)
  {
    var run', steps' := run + [Apply(run[|steps|], step)], steps + [step];
    forall k: nat | m <= k < |steps| + 1 ensures QuietAt(run', steps', k, id) {
      if k < |steps| {
        assert QuietAt(run, steps, k, id);
      }
    }
  }

  lemma AfterStep(s0: State, step0: Step, id: Id, s: State, step: Step)
    requires After(s0, step0, id, s) && Enabled(s, step) && QuietFor(s, step, id)
    ensures After(s0, step0, id, Apply(s, step))
  {
    var run: seq<State>, steps: seq<Step>, i: nat :| Follows(run, steps, i, s0, step0, id) && run[|steps|] == s;
    Extend(run, steps, step);
    ExtendGood(run, steps, step, id);
    ExtendQuiet(run, steps, i + 1, step, id);
    assert Follows(run + [Apply(s, step)], steps + [step], i, s0, step0, id);
  }

  // ----- what single steps do -----

  lemma LookStep(s: State, t: nat, l: Loader)
    requires t in s.tasks && s.tasks[t] == Caching(l, Look) && l.id !in s.cache && |s.cache| < s.cap
    ensures Enabled(s, CacheLook(t)) && Apply(s, CacheLook(t)) == SetTask(s, t, Caching(l, Insert))
  {
  }

  lemma InsertStep(s: State, t: nat, l: Loader)
    requires t in s.tasks && s.tasks[t] == Caching(l, Insert) && l.id !in s.cache && |s.cache| < s.cap
    ensures Enabled(s, CacheInsert(t)) && Apply(s, CacheInsert(t)) == Publish(s, t, l)
  {
  }

  /** The first row of a table is inserted, the only row updated. */
  lemma WriteStep(s: State, t: nat, j: Job, guid: Bytes)
    requires t in s.tasks && s.tasks[t] == Persisting(j) && guid != []
    requires if j.guid == [] then s.db == map[] else j.guid == guid && s.db.Keys == {guid}
    ensures Enabled(s, WriteRow(t, true, guid))
    ensures Apply(s, WriteRow(t, true, guid)) ==
      SetTask(s.(db := s.db[guid := Row(j.h.id, j.uuid, j.pk, j.ip)]), t, Persisted(j, Some(guid)))
  {
    if j.guid == [] {
      assert InsertRow(s.db, guid, Row(j.h.id, j.uuid, j.pk, j.ip)).result.Some?;
    } else {
      assert forall g :: g in s.db ==> g in s.db.Keys;
    }
  }

  lemma FinishStep(s: State, t: nat, j: Job, g: Bytes)
    requires t in s.tasks && s.tasks[t] == Persisted(j, Some(g)) && j.h in s.heap
    ensures Enabled(s, Finish(t))
    ensures Apply(s, Finish(t)) == EndTask(SetPeer(s, j.h, CommitPeer(s.heap[j.h], g, !s.unmanaged, s.now)), t)
  {
  }

  lemma TouchOf(s: State, t: nat, h: Handle, purpose: Purpose)
    requires t in s.tasks && s.tasks[t] == Touching(h, purpose) && h in s.heap
    ensures Enabled(s, Touch(t))
    ensures Apply(s, Touch(t)) == SetTask(SetPeer(s, h, s.heap[h].(lastAccess := s.now)), t, Holding(h, purpose))
  {
  }

  lemma RemoveOf(s: State, t: nat, ids: set<Id>)
    requires t in s.tasks && s.tasks[t].Evicting? && s.tasks[t].inspected == s.tasks[t].snapshot.Keys
    requires Removed(s, s.tasks[t], {}) == ids
    ensures Enabled(s, Remove(t, {}))
    ensures Apply(s, Remove(t, {})) ==
      s.(cache := s.cache - ids, tasks := s.tasks[t := Dropping(s.tasks[t].next, s.tasks[t].snapshot)],
         evictions := s.evictions + [ids])
  {
  }

  // ----- the device -----

  const START: Time := 7200 * SEC
  const SLOW: Time := 7240 * SEC
  const IDLE: Time := 7261 * SEC

  /** One device that registers the key k1: it is stored with the key k0, or not at all. */
  datatype Device = Device(
    id: Id, guid: Bytes, uuid: Bytes, addr: Addr, k0: Bytes, k1: Bytes, managed: bool, stored: bool) {
    ghost predicate Valid() {
      guid != [] && 0 < |uuid| <= REGISTER_UUID_MAX_LEN && |k1| == PUBLIC_KEY_LEN && k0 != k1
    }

    function StoredRow(k: Bytes): Row { Row(id, uuid, k, addr.ip) }

    function StartTable(): Table { if stored then map[guid := StoredRow(k0)] else map[] }

    function Obj(): Handle { Handle(id, 0) }

    function Request(): Purpose { Register(addr, uuid, k1) }

    /** The peer as the table has it at first. */
    function Base(): Peer {
      if stored then FromRow(Stored(guid, StoredRow(k0)), START) else DefaultPeer(START)
    }

    function Loading(purpose: Purpose): Loader { Loader(id, purpose, Base(), stored, 0) }

    /** The lookup that is held up: a reader, or another registration. */
    function Held(): Purpose { if stored then Read else Request() }

    function Reader(): Task { Caching(Loading(Held()), Look) }

    function Begun(): State {
      State(START, 1, !managed, map[], map[], 0, StartTable(), map[], 0, [])
    }

    /** A lookup has read the table. */
    function RowRead(): State {
      Begun().(nextTask := 1, tasks := map[0 := Reader()])
    }

    /** A registration has missed the cache and read the table, too. */
    function BothRead(): State {
      Begun().(nextTask := 2, tasks := map[0 := Reader(), 1 := Caching(Loading(Request()), Look)])
    }

    /** The registration holds the cached peer. */
    function LookedUp(): State {
      BothRead().(
        cache := map[id := Obj()], heap := map[Obj() := Base()], nextSerial := 1,
        tasks := map[0 := Reader(), 1 := Holding(Obj(), Request())])
    }

    function Staging(): Peer {
      Base().(
        uuid := uuid, pk := k1, ip := addr.ip, socketAddr := addr, lastReg := START,
        regCount := 1, regAt := START, inProgress := true)
    }

    function Rewritten(): Peer {
      Staging().(guid := guid, inProgress := false, verifiedAt := if managed then Some(SLOW) else None)
    }

    function Write(): Job {
      var p := Base();
      Job(Obj(), p.guid, uuid, k1, addr.ip, Rollback(p.socketAddr, p.lastReg, p.uuid, p.pk, p.ip, p.verifiedAt))
    }

    /** The new key is staged and its write spawned. */
    function Claimed(): State {
      LookedUp().(
        nextTask := 3, heap := map[Obj() := Staging()],
        tasks := map[0 := Reader(), 1 := Awaiting(Obj()), 2 := Persisting(Write())])
    }

    /** The write has taken forty seconds. */
    function RowWritten(): State {
      Claimed().(
        now := SLOW, db := map[guid := StoredRow(k1)],
        tasks := map[0 := Reader(), 1 := Awaiting(Obj()), 2 := Persisted(Write(), Some(guid))])
    }

    function Committed(): State {
      RowWritten().(heap := map[Obj() := Rewritten()], tasks := map[0 := Reader(), 1 := Awaiting(Obj())])
    }

    /** The registration is complete and its tasks have ended. */
    function Registered(): State {
      Committed().(tasks := map[0 := Reader()])
    }

    function Rested(): State {
      Registered().(now := IDLE)
    }

    /** An eviction has inspected the peer, with or without the reader still waiting. */
    function Inspected(readers: map<nat, Task>): State {
      Rested().(
        nextTask := 4,
        tasks := readers[3 := Evicting(None, 60, map[id := Obj()], {id}, map[id := Candidate(START, START)])])
    }

    function AfterEviction(readers: map<nat, Task>): State {
      Inspected(readers).(
        cache := map[], evictions := [{id}], tasks := readers[3 := Dropping(None, map[id := Obj()])])
    }
  }

  /** A lookup of the device misses. */
  lemma ReachMiss(d: Device, s: State, purpose: Purpose)
    requires Reachable(s, d.id) && ValidPurpose(purpose) && !purpose.Peek? && d.id !in s.cache && s.nextTask !in s.tasks
    ensures Reachable(Spawn(s, Missed(d.id, purpose)), d.id)
  {
    var t := s.nextTask;
    ReachStep(s, Begin(d.id, purpose), d.id);
    var s1 := Spawn(s, Looking(d.id, purpose));
    ReachStep(s1, Find(t), d.id);
    assert Apply(s1, Find(t)).tasks == Spawn(s, Missed(d.id, purpose)).tasks;
  }

  /** It reads the table as it is at first. */
  lemma ReachRead(d: Device, s: State, t: nat, purpose: Purpose)
    requires Reachable(s, d.id) && t in s.tasks && s.tasks[t] == Missed(d.id, purpose)
    requires s.db == d.StartTable() && s.now == START && s.evictions == [] && (purpose.Register? || d.stored)
    ensures Reachable(SetTask(s, t, Caching(d.Loading(purpose), Look)), d.id)
  {
    ReachStep(s, ReadRow(t, if d.stored then Some(Stored(d.guid, d.StoredRow(d.k0))) else None), d.id);
  }

  lemma ReachRowRead(d: Device)
    requires d.Valid()
    ensures Reachable(d.RowRead(), d.id)
  {
    var s := d.Begun();
    assert Init(s) && s.nextTask == 0;
    ReachInit(s, d.id);
    ReachMiss(d, s, d.Held());
    s := Spawn(s, Missed(d.id, d.Held()));
    ReachRead(d, s, 0, d.Held());
    assert SetTask(s, 0, d.Reader()).tasks == d.RowRead().tasks;
  }

  lemma ReachBothRead(d: Device)
    requires d.Valid()
    ensures Reachable(d.BothRead(), d.id)
  {
    ReachRowRead(d);
    var s := d.RowRead();
    ReachMiss(d, s, d.Request());
    s := Spawn(s, Missed(d.id, d.Request()));
    ReachRead(d, s, 1, d.Request());
    assert SetTask(s, 1, Caching(d.Loading(d.Request()), Look)).tasks == d.BothRead().tasks;
  }

  lemma ReachLookedUp(d: Device)
    requires d.Valid()
    ensures Reachable(d.LookedUp(), d.id)
  {
    ReachBothRead(d);
    var s, l := d.BothRead(), d.Loading(d.Request());
    var s1 := SetTask(s, 1, Caching(l, Insert));
    LookStep(s, 1, l);
    ReachTo(s, CacheLook(1), s1, d.id);
    InsertStep(s1, 1, l);
    assert Publish(s1, 1, l).tasks == d.LookedUp().tasks;
    ReachTo(s1, CacheInsert(1), d.LookedUp(), d.id);
  }

  lemma StagedPeer(d: Device)
    requires d.Valid()
    ensures var r := StagePeer(d.Base(), d.addr, d.uuid, d.k1, d.managed, START);
      r.peer == d.Staging() && r.stage.Persist? && r.stage.guid == d.Write().guid && r.stage.ip == d.addr.ip
      && r.stage.rollback == d.Write().rollback
  {
  }

  lemma ClaimStep(d: Device)
    requires d.Valid()
    ensures Enabled(d.LookedUp(), StageStep(1)) && Apply(d.LookedUp(), StageStep(1)) == d.Claimed()
  {
    var s := d.LookedUp();
    StagedPeer(d);
    assert s.tasks[1 := Awaiting(d.Obj())][2 := Persisting(d.Write())] == d.Claimed().tasks;
    assert s.heap[d.Obj() := d.Staging()] == d.Claimed().heap;
  }

  lemma ReachClaimed(d: Device)
    requires d.Valid()
    ensures Reachable(d.Claimed(), d.id)
  {
    ReachLookedUp(d);
    ClaimStep(d);
    ReachTo(d.LookedUp(), StageStep(1), d.Claimed(), d.id);
  }

  lemma TableAtWrite(d: Device)
    requires d.Valid()
    ensures var s := d.Claimed().(now := SLOW);
      && s.tasks[2] == Persisting(d.Write())
      && (if d.Write().guid == [] then s.db == map[] else d.Write().guid == d.guid && s.db.Keys == {d.guid})
      && SetTask(s.(db := s.db[d.guid := d.StoredRow(d.k1)]), 2, Persisted(d.Write(), Some(d.guid))) == d.RowWritten()
  {
    var s := d.Claimed().(now := SLOW);
    assert s.db[d.guid := d.StoredRow(d.k1)] == d.RowWritten().db;
    assert s.tasks[2 := Persisted(d.Write(), Some(d.guid))] == d.RowWritten().tasks;
  }

  lemma ReachRowWritten(d: Device)
    requires d.Valid()
    ensures Reachable(d.RowWritten(), d.id)
  {
    ReachClaimed(d);
    var s := d.Claimed().(now := SLOW);
    ReachTo(d.Claimed(), Tick(SLOW), s, d.id);
    TableAtWrite(d);
    WriteStep(s, 2, d.Write(), d.guid);
    ReachTo(s, WriteRow(2, true, d.guid), d.RowWritten(), d.id);
  }

  lemma CommitStep(d: Device)
    requires d.Valid()
    ensures Enabled(d.RowWritten(), Finish(2)) && Apply(d.RowWritten(), Finish(2)) == d.Committed()
  {
    var s := d.RowWritten();
    FinishStep(s, 2, d.Write(), d.guid);
    assert CommitPeer(d.Staging(), d.guid, d.managed, SLOW) == d.Rewritten();
    assert s.heap[d.Obj() := d.Rewritten()] == d.Committed().heap;
    assert s.tasks - {2} == d.Committed().tasks;
  }

  lemma ReleaseStep(d: Device)
    ensures Enabled(d.Committed(), Release(1)) && Apply(d.Committed(), Release(1)) == d.Registered()
  {
    assert Apply(d.Committed(), Release(1)).tasks == d.Registered().tasks;
  }

  lemma ReachRegistered(d: Device)
    requires d.Valid()
    ensures Reachable(d.Registered(), d.id)
  {
    ReachRowWritten(d);
    CommitStep(d);
    ReachStep(d.RowWritten(), Finish(2), d.id);
    ReleaseStep(d);
    ReachStep(d.Committed(), Release(1), d.id);
  }

  // ----- a round of eviction -----

  ghost predicate Readers(d: Device, readers: map<nat, Task>) {
    readers == map[] || readers == map[0 := d.Reader()]
  }

  function Swept(d: Device, readers: map<nat, Task>): State {
    d.Rested().(nextTask := 4, tasks := readers[3 := Evicting(None, 60, map[d.id := d.Obj()], {}, map[])])
  }

  lemma SweepStep(d: Device, readers: map<nat, Task>)
    ensures var s := d.Rested().(tasks := readers);
      Enabled(s, SweepBegin(60)) && Apply(s, SweepBegin(60)) == Swept(d, readers)
  {
  }

  lemma IdleDevice(d: Device)
    ensures IsCandidate(d.Rewritten(), 60, IDLE) && d.Rewritten().lastAccess == START && d.Rewritten().lastReg == START
  {
  }

  lemma InspectOf(s: State, t: nat, id: Id, h: Handle)
    requires t in s.tasks && s.tasks[t] == Evicting(None, 60, map[id := h], {}, map[]) && h in s.heap
    requires IsCandidate(s.heap[h], 60, s.now)
    ensures Enabled(s, Inspect(t, id))
    ensures Apply(s, Inspect(t, id)) ==
      SetTask(s, t, Evicting(None, 60, map[id := h], {id}, map[id := Candidate(s.heap[h].lastAccess, s.heap[h].lastReg)]))
  {
    assert {} + {id} == {id};
    assert map[][id := Candidate(s.heap[h].lastAccess, s.heap[h].lastReg)] ==
      map[id := Candidate(s.heap[h].lastAccess, s.heap[h].lastReg)];
  }

  lemma InspectStep(d: Device, readers: map<nat, Task>)
    ensures Enabled(Swept(d, readers), Inspect(3, d.id))
    ensures Apply(Swept(d, readers), Inspect(3, d.id)) == d.Inspected(readers)
  {
    IdleDevice(d);
    InspectOf(Swept(d, readers), 3, d.id, d.Obj());
    assert Swept(d, readers).tasks[3 := d.Inspected(readers).tasks[3]] == d.Inspected(readers).tasks;
  }

  lemma NobodyElseHolds(d: Device, readers: map<nat, Task>)
    requires Readers(d, readers)
    ensures Holders(d.Inspected(readers), d.Obj()) == {3}
  {
    var s := d.Inspected(readers);
    assert Holds(s.tasks[3], d.Obj());
    forall t | t in Holders(s, d.Obj()) ensures t == 3 {
      assert t != 0 || !Holds(d.Reader(), d.Obj());
    }
  }

  lemma RemoveStep(d: Device, readers: map<nat, Task>)
    requires Readers(d, readers)
    ensures Enabled(d.Inspected(readers), Remove(3, {}))
    ensures Apply(d.Inspected(readers), Remove(3, {})) == d.AfterEviction(readers)
  {
    var s := d.Inspected(readers);
    OneRemoved(d, readers);
    RemoveOf(s, 3, {d.id});
    assert s.tasks[3 := Dropping(None, map[d.id := d.Obj()])] == d.AfterEviction(readers).tasks;
    assert s.cache - {d.id} == map[];
  }

  lemma OneRemoved(d: Device, readers: map<nat, Task>)
    requires Readers(d, readers)
    ensures Removed(d.Inspected(readers), d.Inspected(readers).tasks[3], {}) == {d.id}
  {
    var s := d.Inspected(readers);
    NobodyElseHolds(d, readers);
    assert ShouldRemove(s, s.tasks[3], d.id, {});
  }

  lemma AfterRound(s0: State, step0: Step, d: Device, readers: map<nat, Task>)
    requires After(s0, step0, d.id, d.Rested().(tasks := readers))
    ensures After(s0, step0, d.id, d.Inspected(readers))
  {
    SweepStep(d, readers);
    AfterStep(s0, step0, d.id, d.Rested().(tasks := readers), SweepBegin(60));
    InspectStep(d, readers);
    AfterStep(s0, step0, d.id, Swept(d, readers), Inspect(3, d.id));
  }

  lemma AfterCommit(d: Device)
    requires d.Valid()
    ensures After(d.RowWritten(), Finish(2), d.id, d.AfterEviction(map[0 := d.Reader()]))
  {
    var w, readers := d.RowWritten(), map[0 := d.Reader()];
    ReachRowWritten(d);
    CommitStep(d);
    AfterFirst(w, Finish(2), d.id);
    ReleaseStep(d);
    AfterStep(w, Finish(2), d.id, d.Committed(), Release(1));
    AfterStep(w, Finish(2), d.id, d.Registered(), Tick(IDLE));
    AfterRound(w, Finish(2), d, readers);
    RemoveStep(d, readers);
    AfterStep(w, Finish(2), d.id, d.Inspected(readers), Remove(3, {}));
  }

  // ----- a stale row -----

  /** The reader has cached the row it had read. */
  function StaleCached(d: Device): State {
    Publish(SetTask(d.AfterEviction(map[0 := d.Reader()]), 0, Caching(d.Loading(d.Held()), Insert)), 0, d.Loading(d.Held()))
  }

  lemma StaleDisagrees(d: Device)
    requires d.Valid() && d.stored
    ensures !Agrees(StaleCached(d), d.id)
  {
    var s := StaleCached(d);
    assert s.db[d.guid] == d.StoredRow(d.k1);
    assert s.heap[s.cache[d.id]] == d.Base();
  }

  /** A reader held up between reading a row and caching it, while the device registers
      another key and is evicted, leaves a cached peer that no write is under way on and
      that differs from its row. */
  lemma StaleRowCanBeCached(d: Device) returns (run: seq<State>, steps: seq<Step>)
    requires d.Valid() && d.stored
    ensures IsRun(run, steps) && !Agrees(run[|steps|], d.id) && run[|steps|] == StaleCached(d)
  {
    AfterCommit(d);
    var s, l := d.AfterEviction(map[0 := d.Reader()]), d.Loading(d.Held());
    LookStep(s, 0, l);
    AfterStep(d.RowWritten(), Finish(2), d.id, s, CacheLook(0));
    s := SetTask(s, 0, Caching(l, Insert));
    InsertStep(s, 0, l);
    AfterStep(d.RowWritten(), Finish(2), d.id, s, CacheInsert(0));
    StaleDisagrees(d);
    var i: nat;
    run, steps, i :| Follows(run, steps, i, d.RowWritten(), Finish(2), d.id) && run[|steps|] == StaleCached(d);
  }

  // ----- a lookup that refreshes nothing -----

  lemma SecondLookStep(d: Device)
    requires d.stored
    ensures var s, hit := d.Rested(), d.Rested().(tasks := map[0 := Holding(d.Obj(), Read)]);
      && Enabled(s, CacheLook(0)) && Apply(s, CacheLook(0)) == hit
      && Enabled(hit, Release(0)) && Apply(hit, Release(0)) == d.Rested().(tasks := map[])
  {
    var hit := d.Rested().(tasks := map[0 := Holding(d.Obj(), Read)]);
    assert Apply(d.Rested(), CacheLook(0)).tasks == hit.tasks;
    assert Apply(hit, Release(0)).tasks == map[];
  }

  lemma AfterSecondLook(d: Device)
    requires d.Valid() && d.stored
    ensures After(d.Rested(), CacheLook(0), d.id, d.Inspected(map[]))
  {
    ReachRegistered(d);
    ReachStep(d.Registered(), Tick(IDLE), d.id);
    SecondLookStep(d);
    AfterFirst(d.Rested(), CacheLook(0), d.id);
    AfterStep(d.Rested(), CacheLook(0), d.id, d.Rested().(tasks := map[0 := Holding(d.Obj(), Read)]), Release(0));
    AfterRound(d.Rested(), CacheLook(0), d, map[]);
  }

  /** A lookup that missed at first and then met the peer in the map does not refresh it:
      the peer can be evicted in the very instant it is released. */
  lemma UnrefreshedPeerCanVanish(d: Device) returns (run: seq<State>, steps: seq<Step>, k: nat, i: nat)
    requires d.Valid() && d.stored
    ensures IsRun(run, steps) && k < i < |steps| && StepAt(run, steps, k) && StepAt(run, steps, i)
    ensures steps[k].CacheLook? && Current(run[k], d.Obj()) && steps[k].t in run[k + 1].tasks
    ensures run[k + 1].tasks[steps[k].t] == Holding(d.Obj(), Read)
    ensures steps[i].Remove? && Current(run[i], d.Obj()) && !Current(run[i + 1], d.Obj()) && run[i].now == run[k].now
  {
    AfterSecondLook(d);
    var s, before, done := d.Inspected(map[]), [], [];
    before, done, k :| Follows(before, done, k, d.Rested(), CacheLook(0), d.id) && before[|done|] == s;
    RemoveStep(d, map[]);
    Extend(before, done, Remove(3, {}));
    run, steps, i := before + [Apply(s, Remove(3, {}))], done + [Remove(3, {})], |done|;
    assert StepAt(run, steps, k) && StepAt(run, steps, i);
    SecondLookStep(d);
  }

  // ----- a loopback heartbeat -----

  const LOOPBACK := Addr("127.0.0.1", 1)

  function Found(d: Device, task: Task): State {
    d.Registered().(nextTask := 4, tasks := map[0 := d.Reader(), 3 := task])
  }

  /** The heartbeat holds the peer. */
  function Touched(d: Device): State {
    Found(d, Holding(d.Obj(), Heartbeat(LOOPBACK))).(heap := map[d.Obj() := d.Rewritten().(lastAccess := SLOW)])
  }

  lemma FindSteps(d: Device)
    ensures Enabled(d.Registered(), Begin(d.id, Heartbeat(LOOPBACK)))
    ensures var s := Apply(d.Registered(), Begin(d.id, Heartbeat(LOOPBACK)));
      Enabled(s, Find(3)) && Apply(s, Find(3)) == Found(d, Touching(d.Obj(), Heartbeat(LOOPBACK)))
  {
    var s := Apply(d.Registered(), Begin(d.id, Heartbeat(LOOPBACK)));
    assert Apply(s, Find(3)).tasks == Found(d, Touching(d.Obj(), Heartbeat(LOOPBACK))).tasks;
  }

  lemma TouchStep(d: Device)
    ensures var s := Found(d, Touching(d.Obj(), Heartbeat(LOOPBACK)));
      Enabled(s, Touch(3)) && Apply(s, Touch(3)) == Touched(d)
  {
    var s := Found(d, Touching(d.Obj(), Heartbeat(LOOPBACK)));
    TouchOf(s, 3, d.Obj(), Heartbeat(LOOPBACK));
    assert s.tasks[3 := Holding(d.Obj(), Heartbeat(LOOPBACK))] == Touched(d).tasks;
    assert s.heap[d.Obj() := d.Rewritten().(lastAccess := SLOW)] == Touched(d).heap;
  }

  lemma LoopbackStep(d: Device)
    requires d.Valid() && d.addr.ip != LOOPBACK.ip
    ensures Enabled(Touched(d), Beat(3)) && BadBeat(Touched(d), Beat(3), d.id)
    ensures !AddrAgrees(Apply(Touched(d), Beat(3)), d.id)
  {
    assert "127.0.0.1"[..4] == "127.";
    assert IsLoopback(LOOPBACK.ip);
    BeatBreaksAddrIff(Touched(d).heap[d.Obj()], LOOPBACK, !d.managed, SLOW);
  }

  /** Every device that is not itself at that loopback address can be moved there by one
      heartbeat, while its stored address stays. */
  lemma LoopbackCanMove(d: Device) returns (run: seq<State>, steps: seq<Step>)
    requires d.Valid() && d.addr.ip != LOOPBACK.ip
    ensures IsRun(run, steps) && !AddrAgrees(run[|steps|], d.id) && run[|steps|] == Apply(Touched(d), Beat(3))
  {
    ReachRegistered(d);
    FindSteps(d);
    ReachStep(d.Registered(), Begin(d.id, Heartbeat(LOOPBACK)), d.id);
    ReachStep(Apply(d.Registered(), Begin(d.id, Heartbeat(LOOPBACK))), Find(3), d.id);
    TouchStep(d);
    ReachStep(Found(d, Touching(d.Obj(), Heartbeat(LOOPBACK))), Touch(3), d.id);
    LoopbackStep(d);
    run, steps :| IsRun(run, steps) && NoBadBeat(run, steps, 0, |steps|, d.id) && run[|steps|] == Touched(d);
    Extend(run, steps, Beat(3));
    run, steps := run + [Apply(Touched(d), Beat(3))], steps + [Beat(3)];
  }
}
