/** Runs in which a device that was just registered is asked for its key again. */
module RegistryForgotten {
  import opened Clock
  import opened PeerModel
  import opened Registry
  import opened RegistryAddresses
  import opened RegistryHandshake
  import opened RegistryReload
  import opened RegistryStaging
  import opened RegistryWitnesses
  import opened Values

  const BEAT: Time := 7265 * SEC

  // ----- what a lookup does after the registration was written -----

  /** A run that writes the registration and is quiet afterwards leads to the state. */
  ghost predicate Since(d: Device, s: State) {
    After(d.RowWritten(), Finish(2), d.id, s)
  }

  lemma Next(d: Device, s: State, step: Step)
    requires Since(d, s) && Enabled(s, step) && QuietFor(s, step, d.id)
    ensures Since(d, Apply(s, step))
  {
    AfterStep(d.RowWritten(), Finish(2), d.id, s, step);
  }

  /** The same for a step that is neither a heartbeat nor a staging, by its effect. */
  lemma NextTo(d: Device, s: State, step: Step, s': State)
    requires Since(d, s) && Enabled(s, step) && !step.Beat? && !step.StageStep? && Apply(s, step) == s'
    ensures Since(d, s')
  {
    Next(d, s, step);
  }

  lemma MissStep(s: State, t: nat, id: Id, purpose: Purpose)
    requires t in s.tasks && s.tasks[t] == Looking(id, purpose) && !purpose.Peek? && id !in s.cache
    ensures Enabled(s, Find(t)) && Apply(s, Find(t)) == SetTask(s, t, Missed(id, purpose))
  {
  }

  lemma HitStep(s: State, t: nat, id: Id, purpose: Purpose)
    requires t in s.tasks && s.tasks[t] == Looking(id, purpose) && id in s.cache
    ensures Enabled(s, Find(t)) && Apply(s, Find(t)) == SetTask(s, t, Touching(s.cache[id], purpose))
  {
  }

  lemma SpawnThenSet(s: State, a: Task, b: Task)
    ensures SetTask(Spawn(s, a), s.nextTask, b) == Spawn(s, b)
  {
    assert s.tasks[s.nextTask := a][s.nextTask := b] == s.tasks[s.nextTask := b];
  }

  lemma SetTwice(s: State, t: nat, a: Task, b: Task)
    ensures SetTask(SetTask(s, t, a), t, b) == SetTask(s, t, b)
  {
    assert s.tasks[t := a][t := b] == s.tasks[t := b];
  }

  lemma NextMiss(d: Device, s: State, id: Id, purpose: Purpose)
    requires Since(d, s) && ValidPurpose(purpose) && !purpose.Peek? && id !in s.cache
    ensures Since(d, Spawn(s, Missed(id, purpose)))
  {
    var s1 := Spawn(s, Looking(id, purpose));
    NextTo(d, s, Begin(id, purpose), s1);
    MissStep(s1, s.nextTask, id, purpose);
    SpawnThenSet(s, Looking(id, purpose), Missed(id, purpose));
    NextTo(d, s1, Find(s.nextTask), Spawn(s, Missed(id, purpose)));
  }

  /** What a lookup makes of what it read. */
  function Read(s: State, id: Id, purpose: Purpose, stored: Option<Stored>): Loader {
    Loader(id, purpose, if stored.Some? then FromRow(stored.value, s.now) else DefaultPeer(s.now), stored.Some?, |s.evictions|)
  }

  lemma NextRead(d: Device, s: State, t: nat, id: Id, purpose: Purpose, stored: Option<Stored>)
    requires Since(d, s) && t in s.tasks && s.tasks[t] == Missed(id, purpose) && IsStored(s.db, id, stored)
    requires stored.Some? || purpose.Register?
    ensures Since(d, SetTask(s, t, Caching(Read(s, id, purpose, stored), Look)))
  {
    NextTo(d, s, ReadRow(t, stored), SetTask(s, t, Caching(Read(s, id, purpose, stored), Look)));
  }

  lemma PublishAnyway(s: State, t: nat, a: Task, l: Loader)
    ensures Publish(SetTask(s, t, a), t, l) == Publish(s, t, l)
  {
    var h := Handle(l.id, s.nextSerial);
    assert s.tasks[t := a][t := Holding(h, l.purpose)] == s.tasks[t := Holding(h, l.purpose)];
  }

  lemma NextInsert(d: Device, s: State, t: nat, l: Loader)
    requires Since(d, s) && t in s.tasks && s.tasks[t] == Caching(l, Look) && l.id !in s.cache && |s.cache| < s.cap
    ensures Since(d, Publish(s, t, l))
  {
    var s1 := SetTask(s, t, Caching(l, Insert));
    LookStep(s, t, l);
    NextTo(d, s, CacheLook(t), s1);
    InsertStep(s1, t, l);
    PublishAnyway(s, t, Caching(l, Insert), l);
    NextTo(d, s1, CacheInsert(t), Publish(s, t, l));
  }

  /** A lookup finds the peer at its first look. */
  lemma NextFound(d: Device, s: State, id: Id, purpose: Purpose)
    requires Since(d, s) && ValidPurpose(purpose) && id in s.cache
    ensures Since(d, Spawn(s, Touching(s.cache[id], purpose)))
  {
    var s1, task := Spawn(s, Looking(id, purpose)), Touching(s.cache[id], purpose);
    NextTo(d, s, Begin(id, purpose), s1);
    HitStep(s1, s.nextTask, id, purpose);
    SpawnThenSet(s, Looking(id, purpose), task);
    NextTo(d, s1, Find(s.nextTask), Spawn(s, task));
  }

  lemma NextHit(d: Device, s: State, id: Id, purpose: Purpose)
    requires Since(d, s) && ValidPurpose(purpose) && id in s.cache && s.cache[id] in s.heap
    ensures var h := s.cache[id];
      Since(d, Spawn(SetPeer(s, h, s.heap[h].(lastAccess := s.now)), Holding(h, purpose)))
  {
    var t, h := s.nextTask, s.cache[id];
    var s1, seen := Spawn(s, Touching(h, purpose)), SetPeer(s, h, s.heap[h].(lastAccess := s.now));
    NextFound(d, s, id, purpose);
    TouchOf(s1, t, h, purpose);
    SpawnThenSet(seen, Touching(h, purpose), Holding(h, purpose));
    NextTo(d, s1, Touch(t), Spawn(seen, Holding(h, purpose)));
  }

  // ----- the answer -----

  /** Step i wrote the registration of the device, step j answers a heartbeat from the
      same address in time, nothing in between registers the device or moves it, and
      yet the answer asks for the key. */
  ghost predicate Forgotten(run: seq<State>, steps: seq<Step>, i: nat, j: nat, d: Device) {
    && IsRun(run, steps) && i < j < |steps| && WrittenAt(run, steps, i, d.Obj(), d.addr.ip)
    && UnmovedSinceStaging(run, steps, i, steps[i].t, d.id) && QuietRun(run, steps, i + 1, j, d.id)
    && HeartbeatAt(run, steps, j, d.id, d.addr.ip) && InTime(run[j], run[i].now)
    && HeartbeatReply(run[j], steps[j]) == Some(true)
  }

  lemma PrefixQuiet(before: seq<State>, done: seq<Step>, run: seq<State>, steps: seq<Step>, m: nat, id: Id)
    requires |before| == |done| + 1 && |run| == |steps| + 1 && before <= run && done <= steps
    requires NoBadBeat(before, done, 0, |done|, id) && QuietRun(before, done, m, |done|, id)
    ensures NoBadBeat(run, steps, 0, |done|, id) && QuietRun(run, steps, m, |done|, id)
  {
    forall k: nat | k < |done| ensures NoBadBeatAt(run, steps, k, id) {
      assert NoBadBeatAt(before, done, k, id);
    }
    forall k: nat | m <= k < |done| ensures QuietAt(run, steps, k, id) {
      assert QuietAt(before, done, k, id);
    }
  }

  lemma UnmovedAtAll(run: seq<State>, steps: seq<Step>, i: nat, j: nat, t: nat, id: Id)
    requires |run| == |steps| + 1 && i <= j <= |steps| && NoBadBeat(run, steps, 0, j, id)
    ensures UnmovedSinceStaging(run, steps, i, t, id)
  {
    forall q: nat | q < i && StagesAt(run, steps, q, t) ensures NoBadBeat(run, steps, q + 1, i, id) {
    }
  }

  /** The answer of this step ends such a run. */
  lemma AskedAgain(d: Device, s: State, step: Step) returns (run: seq<State>, steps: seq<Step>, i: nat, j: nat)
    requires d.Valid() && Since(d, s) && Enabled(s, step) && HeartbeatReply(s, step) == Some(true)
    requires IsHeartbeatOf(s.tasks[step.t], d.id, d.addr.ip) && InTime(s, SLOW)
    ensures Forgotten(run, steps, i, j, d) && run[j] == s && steps[j] == step
  {
    var before, done := [], [];
    before, done, i :| Follows(before, done, i, d.RowWritten(), Finish(2), d.id) && before[|done|] == s;
    run, steps, j := before + [Apply(s, step)], done + [step], |done|;
    Extend(before, done, step);
    PrefixQuiet(before, done, run, steps, i + 1, d.id);
    UnmovedAtAll(run, steps, i, j, 2, d.id);
    WrittenByDevice(d);
  }

  lemma WrittenByDevice(d: Device)
    requires d.Valid()
    ensures var s := d.RowWritten();
      Enabled(s, Finish(2)) && s.tasks[2] == Persisted(d.Write(), Some(d.guid)) && s.now == SLOW
  {
  }

  // ----- a slow write -----

  /** A heartbeat has missed the cache and reads the new row. */
  function Reloading(d: Device): State {
    Spawn(d.AfterEviction(map[0 := d.Reader()]).(now := BEAT), Missed(d.id, Heartbeat(d.addr)))
  }

  function Reloaded(d: Device): Loader {
    Loader(d.id, Heartbeat(d.addr), FromRow(Stored(d.guid, d.StoredRow(d.k1)), BEAT), true, 1)
  }

  /** The heartbeat holds the peer it has reloaded. */
  function HeldAgain(d: Device): State {
    Publish(SetTask(Reloading(d), 4, Caching(Reloaded(d), Look)), 4, Reloaded(d))
  }

  lemma ReachHeldAgain(d: Device)
    requires d.Valid()
    ensures Since(d, HeldAgain(d))
  {
    AfterCommit(d);
    var s := d.AfterEviction(map[0 := d.Reader()]);
    Next(d, s, Tick(BEAT));
    s := s.(now := BEAT);
    NextMiss(d, s, d.id, Heartbeat(d.addr));
    NextRead(d, Reloading(d), 4, d.id, Heartbeat(d.addr), Some(Stored(d.guid, d.StoredRow(d.k1))));
    NextInsert(d, SetTask(Reloading(d), 4, Caching(Reloaded(d), Look)), 4, Reloaded(d));
  }

  lemma BeatAgain(d: Device)
    requires d.Valid() && d.managed
    ensures Enabled(HeldAgain(d), Beat(4)) && IsHeartbeatOf(HeldAgain(d).tasks[4], d.id, d.addr.ip)
    ensures HeartbeatReply(HeldAgain(d), Beat(4)) == Some(true)
    ensures HeldAgain(d).now == BEAT
  {
  }

  /** With a management server, a registration whose write takes forty seconds can be
      followed, twenty-five seconds after it was answered, by a heartbeat from the same
      address that asks for the key again, because an eviction came in between. */
  lemma SlowWriteIsForgotten(d: Device) returns (run: seq<State>, steps: seq<Step>, i: nat, j: nat)
    requires d.Valid() && d.managed
    ensures Forgotten(run, steps, i, j, d) && steps[j].Beat? && !run[j].unmanaged
  {
    ReachHeldAgain(d);
    BeatAgain(d);
    run, steps, i, j := AskedAgain(d, HeldAgain(d), Beat(4));
  }

  // ----- a default peer -----

  /** Without a management server: a second registration that read the table before the
      first one was written caches, after the eviction, a default peer. */
  function DefaultCached(d: Device): State {
    Publish(d.AfterEviction(map[0 := d.Reader()]), 0, d.Loading(d.Request()))
  }

  function NewObj(d: Device): Handle { Handle(d.id, 1) }

  lemma ReachDefaultCached(d: Device)
    requires d.Valid() && !d.stored
    ensures Since(d, DefaultCached(d))
  {
    AfterCommit(d);
    NextInsert(d, d.AfterEviction(map[0 := d.Reader()]), 0, d.Loading(d.Request()));
  }

  function DefaultHeld(d: Device): State {
    Spawn(SetPeer(DefaultCached(d), NewObj(d), d.Base().(lastAccess := IDLE)), Holding(NewObj(d), Heartbeat(d.addr)))
  }

  lemma ReachDefaultHeld(d: Device)
    requires d.Valid() && !d.stored
    ensures Since(d, DefaultHeld(d))
  {
    ReachDefaultCached(d);
    NextHit(d, DefaultCached(d), d.id, Heartbeat(d.addr));
  }

  lemma DefaultAsks(d: Device)
    requires d.Valid() && !d.stored && !d.managed
    ensures var s := DefaultHeld(d);
      && Enabled(s, Beat(4)) && IsHeartbeatOf(s.tasks[4], d.id, d.addr.ip) && s.unmanaged
      && s.tasks[4].h == NewObj(d) && s.heap[NewObj(d)].pk == [] && HeartbeatReply(s, Beat(4)) == Some(true)
      && d.guid in s.db && s.db[d.guid] == d.StoredRow(d.k1)
  {
  }

  /** The next heartbeat of the device meets the default peer, which has no key, although
      the row has one. */
  lemma DefaultPeerIsAsked(d: Device) returns (run: seq<State>, steps: seq<Step>, i: nat, j: nat)
    requires d.Valid() && !d.stored && !d.managed
    ensures Forgotten(run, steps, i, j, d) && run[j].unmanaged && steps[j].Beat? && !MetKey(run, steps, j)
    ensures d.guid in run[j].db && run[j].db[d.guid] == d.StoredRow(d.k1)
  {
    ReachDefaultHeld(d);
    DefaultAsks(d);
    run, steps, i, j := AskedAgain(d, DefaultHeld(d), Beat(4));
  }

  // ----- a full cache -----

  /** After the eviction another device, which is registering, fills the cache. */
  function Filling(d: Device, other: Id): State {
    Spawn(d.AfterEviction(map[0 := d.Reader()]), Missed(other, d.Request()))
  }

  function OtherLoader(d: Device, other: Id): Loader {
    Loader(other, d.Request(), DefaultPeer(IDLE), false, 1)
  }

  function OtherObj(other: Id): Handle { Handle(other, 1) }

  function Filled(d: Device, other: Id): State {
    Publish(SetTask(Filling(d, other), 4, Caching(OtherLoader(d, other), Look)), 4, OtherLoader(d, other))
  }

  lemma ReachFilled(d: Device, other: Id)
    requires d.Valid() && other != d.id
    ensures Since(d, Filled(d, other))
  {
    AfterCommit(d);
    NextMiss(d, d.AfterEviction(map[0 := d.Reader()]), other, d.Request());
    NextRead(d, Filling(d, other), 4, other, d.Request(), None);
    NextInsert(d, SetTask(Filling(d, other), 4, Caching(OtherLoader(d, other), Look)), 4, OtherLoader(d, other));
  }

  lemma FilledIsFull(d: Device, other: Id)
    ensures var s := Filled(d, other);
      && s.cache == map[other := OtherObj(other)] && |s.cache| >= s.cap && s.nextTask == 5 && 5 !in s.tasks
      && OtherObj(other) in s.heap && s.heap[OtherObj(other)].lastAccess == s.now
      && s.db == map[d.guid := d.StoredRow(d.k1)] && s.unmanaged == !d.managed
  {
  }

  /** A heartbeat of the device has read its row. */
  function Seeking(d: Device, other: Id): State {
    var s := Spawn(Filled(d, other), Missed(d.id, Heartbeat(d.addr)));
    SetTask(s, 5, Caching(Sought(d, other), Look))
  }

  function Sought(d: Device, other: Id): Loader {
    Read(Filled(d, other), d.id, Heartbeat(d.addr), Some(Stored(d.guid, d.StoredRow(d.k1))))
  }

  lemma ReachSeeking(d: Device, other: Id)
    requires d.Valid() && other != d.id
    ensures Since(d, Seeking(d, other))
  {
    ReachFilled(d, other);
    FilledIsFull(d, other);
    NextMiss(d, Filled(d, other), d.id, Heartbeat(d.addr));
    var s := Spawn(Filled(d, other), Missed(d.id, Heartbeat(d.addr)));
    NextRead(d, s, 5, d.id, Heartbeat(d.addr), Some(Stored(d.guid, d.StoredRow(d.k1))));
  }

  lemma FullLookStep(s: State, t: nat, l: Loader)
    requires t in s.tasks && s.tasks[t] == Caching(l, Look) && l.id !in s.cache && |s.cache| >= s.cap
    ensures Enabled(s, CacheLook(t)) && Apply(s, CacheLook(t)) == SetTask(s, t, Caching(l, Sweep))
  {
  }

  lemma NextSweep(d: Device, s: State, t: nat, l: Loader)
    requires Since(d, s) && t in s.tasks && s.tasks[t] == Caching(l, Look) && l.id !in s.cache && |s.cache| >= s.cap
    ensures Since(d, SetTask(s, t, Evicting(Some(l), 60, s.cache, {}, map[])))
  {
    var s1, task := SetTask(s, t, Caching(l, Sweep)), Evicting(Some(l), 60, s.cache, {}, map[]);
    FullLookStep(s, t, l);
    NextTo(d, s, CacheLook(t), s1);
    SetTwice(s, t, Caching(l, Sweep), task);
    NextTo(d, s1, SweepInside(t), SetTask(s, t, task));
  }

  lemma NextInspect(d: Device, s: State, t: nat, l: Loader, id: Id, h: Handle)
    requires Since(d, s) && t in s.tasks && s.tasks[t] == Evicting(Some(l), 60, map[id := h], {}, map[])
    requires h in s.heap && s.heap[h].lastAccess == s.now
    ensures Since(d, SetTask(s, t, Evicting(Some(l), 60, map[id := h], {id}, map[])))
  {
    assert !IsCandidate(s.heap[h], 60, s.now);
    assert {} + {id} == {id};
    NextTo(d, s, Inspect(t, id), SetTask(s, t, Evicting(Some(l), 60, map[id := h], {id}, map[])));
  }

  /** A round without candidates removes nobody. */
  lemma EmptyRound(s: State, t: nat, l: Loader, id: Id, h: Handle)
    requires t in s.tasks && s.tasks[t] == Evicting(Some(l), 60, map[id := h], {id}, map[])
    ensures Enabled(s, Remove(t, {}))
    ensures Apply(s, Remove(t, {})) ==
      SetTask(s.(evictions := s.evictions + [{}]), t, Dropping(Some(l), map[id := h]))
  {
    assert Removed(s, s.tasks[t], {}) == {};
    RemoveOf(s, t, {});
    assert s.cache - {} == s.cache;
  }

  lemma NextRemove(d: Device, s: State, t: nat, l: Loader, id: Id, h: Handle)
    requires Since(d, s) && t in s.tasks && s.tasks[t] == Evicting(Some(l), 60, map[id := h], {id}, map[])
    ensures Since(d, SetTask(s.(evictions := s.evictions + [{}]), t, Caching(l, Final)))
  {
    var after, drop := s.(evictions := s.evictions + [{}]), Dropping(Some(l), map[id := h]);
    EmptyRound(s, t, l, id, h);
    NextTo(d, s, Remove(t, {}), SetTask(after, t, drop));
    SetTwice(after, t, drop, Caching(l, Final));
    NextTo(d, SetTask(after, t, drop), DropSnapshot(t), SetTask(after, t, Caching(l, Final)));
  }

  /** A lookup finds no room in a cache whose one peer was just looked up. */
  lemma NextNoRoom(d: Device, s: State, t: nat, l: Loader, id: Id, h: Handle)
    requires Since(d, s) && t in s.tasks && s.tasks[t] == Caching(l, Look) && l.id !in s.cache
    requires s.cache == map[id := h] && |s.cache| >= s.cap && h in s.heap && s.heap[h].lastAccess == s.now
    ensures Since(d, SetTask(s.(evictions := s.evictions + [{}]), t, Caching(l, Final)))
  {
    var e1, e2 := Evicting(Some(l), 60, map[id := h], {}, map[]), Evicting(Some(l), 60, map[id := h], {id}, map[]);
    NextSweep(d, s, t, l);
    NextInspect(d, SetTask(s, t, e1), t, l, id, h);
    SetTwice(s, t, e1, e2);
    NextRemove(d, SetTask(s, t, e2), t, l, id, h);
    SetTwice(s.(evictions := s.evictions + [{}]), t, e2, Caching(l, Final));
  }

  /** The heartbeat has found no room and evicted nobody. */
  function NoRoom(d: Device, other: Id): State {
    var s := Seeking(d, other);
    SetTask(s.(evictions := s.evictions + [{}]), 5, Caching(Sought(d, other), Final))
  }

  lemma ReachNoRoom(d: Device, other: Id)
    requires d.Valid() && other != d.id
    ensures Since(d, NoRoom(d, other))
  {
    ReachSeeking(d, other);
    FilledIsFull(d, other);
    NextNoRoom(d, Seeking(d, other), 5, Sought(d, other), other, OtherObj(other));
  }

  lemma NoRoomAsks(d: Device, other: Id)
    requires d.Valid() && other != d.id && !d.managed
    ensures var s := NoRoom(d, other);
      && Enabled(s, CacheFinal(5)) && IsHeartbeatOf(s.tasks[5], d.id, d.addr.ip) && s.unmanaged
      && HeartbeatReply(s, CacheFinal(5)) == Some(true)
      && d.guid in s.db && s.db[d.guid] == d.StoredRow(d.k1)
  {
    FilledIsFull(d, other);
  }

  /** Without a management server: after an eviction, with the cache full of peers in use,
      the next heartbeat of the device finds no room for its peer and asks for the key,
      although the row has one. */
  lemma FullCacheIsAsked(d: Device, other: Id) returns (run: seq<State>, steps: seq<Step>, i: nat, j: nat)
    requires d.Valid() && other != d.id && !d.managed
    ensures Forgotten(run, steps, i, j, d) && run[j].unmanaged && steps[j].CacheFinal?
    ensures d.guid in run[j].db && run[j].db[d.guid] == d.StoredRow(d.k1)
  {
    ReachNoRoom(d, other);
    NoRoomAsks(d, other);
    run, steps, i, j := AskedAgain(d, NoRoom(d, other), CacheFinal(5));
  }

  // ----- a peer that was moved to loopback -----

  /** A lookup that finds the peer at its first look, at the end of any run. */
  lemma ExtendHit(run: seq<State>, steps: seq<Step>, id: Id, purpose: Purpose)
    returns (run': seq<State>, steps': seq<Step>)
    requires IsRun(run, steps) && ValidPurpose(purpose)
    requires var s := run[|steps|]; id in s.cache && s.cache[id] in s.heap
    ensures IsRun(run', steps') && run <= run' && |steps'| == |steps| + 3
    ensures var s := run[|steps|];
      && steps' == steps + [Begin(id, purpose), Find(s.nextTask), Touch(s.nextTask)]
      && run'[|steps'|] ==
           Spawn(SetPeer(s, s.cache[id], s.heap[s.cache[id]].(lastAccess := s.now)), Holding(s.cache[id], purpose))
  {
    var s := run[|steps|];
    var t, h := s.nextTask, s.cache[id];
    var s1, s2 := Spawn(s, Looking(id, purpose)), Spawn(s, Touching(h, purpose));
    Extend(run, steps, Begin(id, purpose));
    run', steps' := run + [s1], steps + [Begin(id, purpose)];
    HitStep(s1, t, id, purpose);
    SpawnThenSet(s, Looking(id, purpose), Touching(h, purpose));
    Extend(run', steps', Find(t));
    run', steps' := run' + [s2], steps' + [Find(t)];
    TouchOf(s2, t, h, purpose);
    SpawnThenSet(SetPeer(s, h, s.heap[h].(lastAccess := s.now)), Touching(h, purpose), Holding(h, purpose));
    Extend(run', steps', Touch(t));
    run', steps' := run' + [Apply(s2, Touch(t))], steps' + [Touch(t)];
  }

  function MovedPeer(d: Device): Peer {
    d.Rewritten().(lastAccess := SLOW, socketAddr := LOOPBACK, lastReg := SLOW)
  }

  /** The device after its loopback heartbeat. */
  function Moved(d: Device): State {
    Touched(d).(heap := map[d.Obj() := MovedPeer(d)], tasks := map[0 := d.Reader()])
  }

  lemma MovedByBeat(d: Device)
    requires d.Valid() && d.addr.ip != LOOPBACK.ip && !d.managed
    ensures BeatPeer(d.Rewritten().(lastAccess := SLOW), LOOPBACK, true, SLOW).peer == MovedPeer(d)
  {
    assert "127.0.0.1"[..4] == "127.";
    assert IsLoopback(LOOPBACK.ip);
  }

  lemma BeatOf(s: State, t: nat, h: Handle, addr: Addr)
    requires t in s.tasks && s.tasks[t] == Holding(h, Heartbeat(addr)) && h in s.heap
    ensures Enabled(s, Beat(t))
    ensures Apply(s, Beat(t)) == EndTask(SetPeer(s, h, BeatPeer(s.heap[h], addr, s.unmanaged, s.now).peer), t)
  {
  }

  lemma MoveStep(d: Device)
    requires d.Valid() && d.addr.ip != LOOPBACK.ip && !d.managed
    ensures Enabled(Touched(d), Beat(3)) && Apply(Touched(d), Beat(3)) == Moved(d)
  {
    var s := Touched(d);
    MovedByBeat(d);
    BeatOf(s, 3, d.Obj(), LOOPBACK);
    assert s.heap[d.Obj() := MovedPeer(d)] == Moved(d).heap;
    assert s.tasks - {3} == Moved(d).tasks;
  }

  /** It registers again with what it has registered. */
  function Again(d: Device): State { Spawn(Moved(d), Holding(d.Obj(), d.Request())) }

  function Kept(d: Device): State {
    Moved(d).(nextTask := 5, heap := map[d.Obj() := MovedPeer(d).(regAt := SLOW)])
  }

  lemma NothingToChange(d: Device)
    requires d.Valid()
    ensures StagePeer(MovedPeer(d), d.addr, d.uuid, d.k1, false, SLOW) == Staged(MovedPeer(d).(regAt := SLOW), Unchanged)
  {
  }

  lemma UnchangedStep(s: State, t: nat, h: Handle, pu: Purpose, p: Peer)
    requires t in s.tasks && s.tasks[t] == Holding(h, pu) && pu.Register? && h in s.heap && s.unmanaged
    requires StagePeer(s.heap[h], pu.addr, pu.uuid, pu.pk, false, s.now) == Staged(p, Unchanged)
    ensures Enabled(s, StageStep(t)) && Apply(s, StageStep(t)) == EndTask(SetPeer(s, h, p), t)
  {
  }

  lemma AgainFacts(d: Device)
    ensures var s := Again(d);
      && 4 in s.tasks && s.tasks[4] == Holding(d.Obj(), d.Request()) && s.now == SLOW
      && s.heap == map[d.Obj() := MovedPeer(d)] && s.unmanaged == !d.managed
  {
  }

  lemma AgainEnds(d: Device)
    ensures EndTask(SetPeer(Again(d), d.Obj(), MovedPeer(d).(regAt := SLOW)), 4) == Kept(d)
  {
    assert Again(d).heap[d.Obj() := MovedPeer(d).(regAt := SLOW)] == Kept(d).heap;
    assert Again(d).tasks - {4} == Kept(d).tasks;
  }

  lemma AgainStep(d: Device)
    requires d.Valid() && !d.managed
    ensures Enabled(Again(d), StageStep(4)) && Apply(Again(d), StageStep(4)) == Kept(d)
  {
    AgainFacts(d);
    NothingToChange(d);
    UnchangedStep(Again(d), 4, d.Obj(), d.Request(), MovedPeer(d).(regAt := SLOW));
    AgainEnds(d);
  }

  function MovedBeat(d: Device): State { Spawn(Kept(d), Holding(d.Obj(), Heartbeat(d.addr))) }

  lemma MovedAsks(d: Device)
    requires d.Valid() && !d.managed && d.addr.ip != LOOPBACK.ip && !IsLoopback(d.addr.ip)
    ensures Enabled(MovedBeat(d), Beat(5)) && HeartbeatReply(MovedBeat(d), Beat(5)) == Some(true)
    ensures IsHeartbeatOf(MovedBeat(d).tasks[5], d.id, d.addr.ip) && MovedBeat(d).unmanaged
  {
  }

  lemma SamePeer(d: Device)
    ensures Spawn(SetPeer(Moved(d), d.Obj(), MovedPeer(d)), Holding(d.Obj(), d.Request())) == Again(d)
    ensures var p := MovedPeer(d).(regAt := SLOW);
      Spawn(SetPeer(Kept(d), d.Obj(), p), Holding(d.Obj(), Heartbeat(d.addr))) == MovedBeat(d)
  {
    assert Moved(d).heap[d.Obj() := MovedPeer(d)] == Moved(d).heap;
    assert Kept(d).heap[d.Obj() := MovedPeer(d).(regAt := SLOW)] == Kept(d).heap;
  }

  /** The run up to the registration that changes nothing. */
  lemma ReachKept(d: Device) returns (run: seq<State>, steps: seq<Step>, i: nat)
    requires d.Valid() && !d.managed && d.addr.ip != LOOPBACK.ip
    ensures IsRun(run, steps) && |steps| == i + 1 && run[i] == Again(d) && steps[i] == StageStep(4) && run[i + 1] == Kept(d)
  {
    var base, done := LoopbackCanMove(d);
    MoveStep(d);
    SamePeer(d);
    run, steps := ExtendHit(base, done, d.id, d.Request());
    i := |steps|;
    AgainStep(d);
    Extend(run, steps, StageStep(4));
    run, steps := run + [Kept(d)], steps + [StageStep(4)];
  }

  /** Once moved to loopback, a device that registers again with nothing to change is
      answered with success and asked for its key by its next heartbeat: the condition
      on the recorded address of `ConvergesAfterUnchanged`. */
  lemma MovedPeerIsAsked(d: Device) returns (run: seq<State>, steps: seq<Step>, i: nat, j: nat)
    requires d.Valid() && !d.managed && d.addr.ip != LOOPBACK.ip && !IsLoopback(d.addr.ip)
    ensures IsRun(run, steps) && i < j < |steps| && UnchangedAt(run, steps, i, d.Obj(), d.addr.ip)
    ensures AnsweredAt(run, steps, i, i, d.Obj()) && QuietRun(run, steps, i + 1, j, d.id)
    ensures HeartbeatAt(run, steps, j, d.id, d.addr.ip) && InTime(run[j], run[i].now)
    ensures HeartbeatReply(run[j], steps[j]) == Some(true) && !AddrAgrees(run[i], d.id)
  {
    var base, done, i0 := ReachKept(d);
    i := i0;
    SamePeer(d);
    run, steps := ExtendHit(base, done, d.id, Heartbeat(d.addr));
    j := |steps|;
    MovedAsks(d);
    Extend(run, steps, Beat(5));
    run, steps := run + [Apply(MovedBeat(d), Beat(5))], steps + [Beat(5)];
    AgainStep(d);
    AgainFacts(d);
    NothingToChange(d);
    QuietLookup(run, steps, i + 1, j, d.id);
  }

  lemma QuietLookup(run: seq<State>, steps: seq<Step>, m: nat, j: nat, id: Id)
    requires IsRun(run, steps) && m <= j <= |steps|
    requires forall k :: m <= k < j ==> steps[k].Begin? || steps[k].Find? || steps[k].Touch?
    ensures QuietRun(run, steps, m, j, id)
  {
    forall k: nat | m <= k < j ensures QuietAt(run, steps, k, id) {
      assert StepAt(run, steps, k);
    }
  }
}
