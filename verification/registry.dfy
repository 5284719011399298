/** The peer cache, the peer table and every task that runs over them, as a state
    machine. One step is one region of code that runs under one lock or inside
    one database statement; between two steps of a task any other task may move. */
module Registry {
  import opened Clock
  import opened PeerModel
  import opened Values

  const ACTIVE_GRACE_SECS: nat := 60
  const PUBLIC_KEY_LEN: nat := 32
  const REGISTER_UUID_MAX_LEN: nat := 256

  /** The identity of one shared peer object, tagged with the id it was made for. */
  datatype Handle = Handle(id: Id, serial: nat)

  /** A row of the peer table; its primary key, the guid, is the map key. */
  datatype Row = Row(id: Id, uuid: Bytes, pk: Bytes, ip: string)
  type Table = map<Bytes, Row>
  datatype Stored = Stored(guid: Bytes, row: Row)

  /** What a lookup was made for. */
  datatype Purpose =
    | Heartbeat(addr: Addr)
    | Register(addr: Addr, uuid: Bytes, pk: Bytes)
    | Read
    | Peek

  /** A peer on its way into the cache. `mark` is how many removal rounds had been
      made when its row was read. */
  datatype Loader = Loader(id: Id, purpose: Purpose, peer: Peer, fromGet: bool, mark: nat)

  datatype CachePhase = Look | Insert | Sweep | Final

  /** A database write under way. */
  datatype Job = Job(h: Handle, guid: Bytes, uuid: Bytes, pk: Bytes, ip: string, rollback: Rollback)

  /** An inspected peer that may be evicted: when it was last looked up, and, as history
      only, when it last registered. */
  datatype Candidate = Candidate(access: Time, reg: Time)

  datatype Task =
    | Looking(id: Id, purpose: Purpose)
    | Touching(h: Handle, purpose: Purpose)
    | Missed(id: Id, purpose: Purpose)
    | Caching(loader: Loader, phase: CachePhase)
    | Evicting(next: Option<Loader>, idle: nat, snapshot: map<Id, Handle>, inspected: set<Id>, candidates: map<Id, Candidate>)
    | Dropping(next: Option<Loader>, snapshot: map<Id, Handle>)
    | Holding(h: Handle, purpose: Purpose)
    | Verifying(h: Handle)
    | Awaiting(h: Handle)
    | Persisting(job: Job)
    | Persisted(job: Job, result: Option<Bytes>)

  datatype State = State(
    now: Time,
    cap: nat,
    unmanaged: bool,
    cache: map<Id, Handle>,
    heap: map<Handle, Peer>,
    nextSerial: nat,
    db: Table,
    tasks: map<nat, Task>,
    nextTask: nat,
    evictions: seq<set<Id>>)

  datatype Step =
    | Tick(to: Time)
    | Begin(id: Id, purpose: Purpose)
    | Find(t: nat)
    | Touch(t: nat)
    | ReadRow(t: nat, stored: Option<Stored>)
    | ReadFailed(t: nat)
    | CacheLook(t: nat)
    | CacheInsert(t: nat)
    | CacheFinal(t: nat)
    | SweepBegin(idle: nat)
    | SweepInside(t: nat)
    | Inspect(t: nat, id: Id)
    | Remove(t: nat, locked: set<Id>)
    | DropSnapshot(t: nat)
    | Beat(t: nat)
    | StageStep(t: nat)
    | Verify(t: nat)
    | WriteRow(t: nat, ok: bool, newGuid: Bytes)
    | Finish(t: nat)
    | Release(t: nat)
    | Restart

  // ----- the peer table (src/database.rs) -----

  /** `get_peer`: the row with that id, if there is one. */
  predicate IsStored(db: Table, id: Id, stored: Option<Stored>) {
    match stored
    case None => forall g :: g in db ==> db[g].id != id
    case Some(st) => st.guid in db && db[st.guid] == st.row && st.row.id == id
  }

  datatype Written = Written(db: Table, result: Option<Bytes>)

  /** `insert_peer`: refused by the primary key or by the unique index on the id. */
  function InsertRow(db: Table, guid: Bytes, row: Row): Written {
    if guid in db || exists g :: g in db && db[g].id == row.id
    then Written(db, None)
    else Written(db[guid := row], Some(guid))
  }

  /** `update_identity`: touches the row with that guid, if any; refused by the
      unique index when another row already has the id. */
  function UpdateRow(db: Table, guid: Bytes, row: Row): Written {
    if exists g :: g in db && g != guid && db[g].id == row.id then Written(db, None)
    else if guid in db then Written(db[guid := row], Some(guid))
    else Written(db, Some(guid))
  }

  // ----- references -----

  /** A task in this state holds a counted reference to the object. */
  predicate Holds(task: Task, h: Handle) {
    match task
    case Touching(k, _) => k == h
    case Holding(k, _) => k == h
    case Verifying(k) => k == h
    case Awaiting(k) => k == h
    case Persisting(job) => job.h == h
    case Persisted(job, _) => job.h == h
    case Evicting(_, _, snapshot, _, _) => h.id in snapshot && snapshot[h.id] == h
    case Dropping(_, snapshot) => h.id in snapshot && snapshot[h.id] == h
    case _ => false
  }

  /** A reference whose holder may still act on the object. */
  predicate HoldsLive(task: Task, h: Handle) {
    Holds(task, h) && !task.Dropping?
  }

  function Holders(s: State, h: Handle): set<nat> {
    set t | t in s.tasks && Holds(s.tasks[t], h)
  }

  /** `Arc::strong_count`: the map's own reference and one per holder. */
  function StrongCount(s: State, h: Handle): nat {
    1 + |Holders(s, h)|
  }

  predicate Current(s: State, h: Handle) {
    h.id in s.cache && s.cache[h.id] == h && h in s.heap
  }

  predicate IsJob(task: Task) {
    task.Persisting? || task.Persisted?
  }

  // ----- steps -----

  function SetTask(s: State, t: nat, task: Task): State {
    s.(tasks := s.tasks[t := task])
  }

  function EndTask(s: State, t: nat): State {
    s.(tasks := s.tasks - {t})
  }

  function Spawn(s: State, task: Task): State {
    s.(tasks := s.tasks[s.nextTask := task], nextTask := s.nextTask + 1)
  }

  function SetPeer(s: State, h: Handle, p: Peer): State {
    s.(heap := s.heap[h := p])
  }

  predicate ValidPurpose(purpose: Purpose) {
    purpose.Register? ==>
      0 < |purpose.uuid| <= REGISTER_UUID_MAX_LEN && |purpose.pk| == PUBLIC_KEY_LEN
  }

  /** The end of a lookup that found nothing it may use: a registration whose row
      could not be cached falls back to a default peer, everything else gives up. */
  function GiveUp(s: State, t: nat, l: Loader): State {
    if l.purpose.Register? && l.fromGet
    then SetTask(s, t, Caching(Loader(l.id, l.purpose, DefaultPeer(s.now), false, l.mark), Look))
    else EndTask(s, t)
  }

  /** The peer object is published in the map and returned to its loader. */
  function Publish(s: State, t: nat, l: Loader): State {
    var h := Handle(l.id, s.nextSerial);
    s.(cache := s.cache[l.id := h],
       heap := s.heap[h := l.peer],
       nextSerial := s.nextSerial + 1,
       tasks := s.tasks[t := Holding(h, l.purpose)])
  }

  function FromRow(stored: Stored, now: Time): Peer {
    DefaultPeer(now).(guid := stored.guid, uuid := stored.row.uuid, pk := stored.row.pk, ip := stored.row.ip)
  }

  function DoFind(s: State, t: nat, id: Id, purpose: Purpose): State {
    if id in s.cache then SetTask(s, t, Touching(s.cache[id], purpose))
    else if purpose.Peek? then EndTask(s, t)
    else SetTask(s, t, Missed(id, purpose))
  }

  function DoReadRow(s: State, t: nat, id: Id, purpose: Purpose, stored: Option<Stored>): State {
    match stored
    case Some(st) => SetTask(s, t, Caching(Loader(id, purpose, FromRow(st, s.now), true, |s.evictions|), Look))
    case None =>
      if purpose.Register?
      then SetTask(s, t, Caching(Loader(id, purpose, DefaultPeer(s.now), false, |s.evictions|), Look))
      else EndTask(s, t)
  }

  function DoCacheLook(s: State, t: nat, l: Loader): State {
    if l.id in s.cache then SetTask(s, t, Holding(s.cache[l.id], l.purpose))
    else if |s.cache| < s.cap then SetTask(s, t, Caching(l, Insert))
    else SetTask(s, t, Caching(l, Sweep))
  }

  function DoCacheInsert(s: State, t: nat, l: Loader): State {
    if l.id in s.cache then SetTask(s, t, Holding(s.cache[l.id], l.purpose))
    else if |s.cache| < s.cap then Publish(s, t, l)
    else SetTask(s, t, Caching(l, Sweep))
  }

  function DoCacheFinal(s: State, t: nat, l: Loader): State {
    if l.id in s.cache then SetTask(s, t, Holding(s.cache[l.id], l.purpose))
    else if |s.cache| >= s.cap then GiveUp(s, t, l)
    else Publish(s, t, l)
  }

  predicate IsCandidate(p: Peer, idle: nat, now: Time) {
    AsSecs(Elapsed(now, p.lastAccess)) >= idle && AsSecs(Elapsed(now, p.lastReg)) >= ACTIVE_GRACE_SECS
  }

  function DoInspect(s: State, t: nat, e: Task, id: Id): State
    requires e.Evicting? && id in e.snapshot && e.snapshot[id] in s.heap
  {
    var p := s.heap[e.snapshot[id]];
    SetTask(s, t, e.(
      inspected := e.inspected + {id},
      candidates := if IsCandidate(p, e.idle, s.now) then e.candidates[id := Candidate(p.lastAccess, p.lastReg)] else e.candidates))
  }

  /** The test made under the map's write lock: nobody but the map and this
      eviction refers to the object, its lock is free, and it was not looked up
      since it was inspected. */
  predicate ShouldRemove(s: State, e: Task, id: Id, locked: set<Id>)
    requires e.Evicting?
  {
    && id in e.candidates
    && id in s.cache
    && s.cache[id] in s.heap
    && StrongCount(s, s.cache[id]) <= 2
    && id !in locked
    && s.heap[s.cache[id]].lastAccess == e.candidates[id].access
  }

  function Removed(s: State, e: Task, locked: set<Id>): set<Id>
    requires e.Evicting?
  {
    set id | id in e.candidates && ShouldRemove(s, e, id, locked)
  }

  function DoRemove(s: State, t: nat, e: Task, locked: set<Id>): State
    requires e.Evicting?
  {
    s.(cache := s.cache - Removed(s, e, locked),
       tasks := s.tasks[t := Dropping(e.next, e.snapshot)],
       evictions := s.evictions + [Removed(s, e, locked)])
  }

  function DoDropSnapshot(s: State, t: nat, next: Option<Loader>): State {
    match next
    case Some(l) => SetTask(s, t, Caching(l, Final))
    case None => EndTask(s, t)
  }

  function DoBeat(s: State, t: nat, h: Handle, addr: Addr): State
    requires h in s.heap
  {
    EndTask(SetPeer(s, h, BeatPeer(s.heap[h], addr, s.unmanaged, s.now).peer), t)
  }

  function DoStage(s: State, t: nat, h: Handle, pu: Purpose): State
    requires h in s.heap && pu.Register?
  {
    var r := StagePeer(s.heap[h], pu.addr, pu.uuid, pu.pk, !s.unmanaged, s.now);
    var s1 := SetPeer(s, h, r.peer);
    match r.stage
    case Unchanged => if s.unmanaged then EndTask(s1, t) else SetTask(s1, t, Verifying(h))
    case Persist(guid, rollback, ip, _) =>
      Spawn(SetTask(s1, t, Awaiting(h)), Persisting(Job(h, guid, pu.uuid, pu.pk, ip, rollback)))
    case _ => EndTask(s1, t)
  }

  function DoVerify(s: State, t: nat, h: Handle): State
    requires h in s.heap
  {
    EndTask(SetPeer(s, h, s.heap[h].(verifiedAt := Some(s.now))), t)
  }

  function WriteOf(db: Table, job: Job, ok: bool, newGuid: Bytes): Written {
    if !ok then Written(db, None)
    else if job.guid == [] then InsertRow(db, newGuid, Row(job.h.id, job.uuid, job.pk, job.ip))
    else UpdateRow(db, job.guid, Row(job.h.id, job.uuid, job.pk, job.ip))
  }

  function DoWriteRow(s: State, t: nat, job: Job, ok: bool, newGuid: Bytes): State {
    var w := WriteOf(s.db, job, ok, newGuid);
    SetTask(s.(db := w.db), t, Persisted(job, w.result))
  }

  function DoFinish(s: State, t: nat, job: Job, result: Option<Bytes>): State
    requires job.h in s.heap
  {
    var p := s.heap[job.h];
    EndTask(SetPeer(s, job.h,
      if result.Some? then CommitPeer(p, result.value, !s.unmanaged, s.now) else RollBackPeer(p, job.rollback)), t)
  }

  /** A new process over the same table: `PeerMap::new` starts with an empty map. */
  function DoRestart(s: State): State {
    s.(cache := map[], heap := map[], tasks := map[])
  }

  predicate Enabled(s: State, step: Step) {
    match step
    case Tick(to) => to >= s.now
    case Begin(_, purpose) => ValidPurpose(purpose)
    case Find(t) => t in s.tasks && s.tasks[t].Looking?
    case Touch(t) => t in s.tasks && s.tasks[t].Touching? && s.tasks[t].h in s.heap
    case ReadRow(t, stored) => t in s.tasks && s.tasks[t].Missed? && IsStored(s.db, s.tasks[t].id, stored)
    case ReadFailed(t) => t in s.tasks && s.tasks[t].Missed?
    case CacheLook(t) => t in s.tasks && s.tasks[t].Caching? && s.tasks[t].phase == Look
    case CacheInsert(t) => t in s.tasks && s.tasks[t].Caching? && s.tasks[t].phase == Insert
    case CacheFinal(t) => t in s.tasks && s.tasks[t].Caching? && s.tasks[t].phase == Final
    case SweepBegin(idle) => idle >= ACTIVE_GRACE_SECS
    case SweepInside(t) => t in s.tasks && s.tasks[t].Caching? && s.tasks[t].phase == Sweep
    case Inspect(t, id) =>
      && t in s.tasks && s.tasks[t].Evicting?
      && id in s.tasks[t].snapshot && id !in s.tasks[t].inspected
      && s.tasks[t].snapshot[id] in s.heap
    case Remove(t, _) =>
      t in s.tasks && s.tasks[t].Evicting? && s.tasks[t].inspected == s.tasks[t].snapshot.Keys
    case DropSnapshot(t) => t in s.tasks && s.tasks[t].Dropping?
    case Beat(t) => t in s.tasks && s.tasks[t].Holding? && s.tasks[t].purpose.Heartbeat? && s.tasks[t].h in s.heap
    case StageStep(t) => t in s.tasks && s.tasks[t].Holding? && s.tasks[t].purpose.Register? && s.tasks[t].h in s.heap
    case Verify(t) => t in s.tasks && s.tasks[t].Verifying? && s.tasks[t].h in s.heap
    case WriteRow(t, _, newGuid) => t in s.tasks && s.tasks[t].Persisting? && newGuid != []
    case Finish(t) => t in s.tasks && s.tasks[t].Persisted? && s.tasks[t].job.h in s.heap
    case Release(t) =>
      && t in s.tasks
      && (s.tasks[t].Awaiting? || (s.tasks[t].Holding? && (s.tasks[t].purpose.Read? || s.tasks[t].purpose.Peek?)))
    case Restart => true
  }

  function Apply(s: State, step: Step): State
    requires Enabled(s, step)
  {
    match step
    case Tick(to) => s.(now := to)
    case Begin(id, purpose) => Spawn(s, Looking(id, purpose))
    case Find(t) => DoFind(s, t, s.tasks[t].id, s.tasks[t].purpose)
    case Touch(t) =>
      var h := s.tasks[t].h;
      SetTask(SetPeer(s, h, s.heap[h].(lastAccess := s.now)), t, Holding(h, s.tasks[t].purpose))
    case ReadRow(t, stored) => DoReadRow(s, t, s.tasks[t].id, s.tasks[t].purpose, stored)
    case ReadFailed(t) => EndTask(s, t)
    case CacheLook(t) => DoCacheLook(s, t, s.tasks[t].loader)
    case CacheInsert(t) => DoCacheInsert(s, t, s.tasks[t].loader)
    case CacheFinal(t) => DoCacheFinal(s, t, s.tasks[t].loader)
    case SweepBegin(idle) => Spawn(s, Evicting(None, idle, s.cache, {}, map[]))
    case SweepInside(t) => SetTask(s, t, Evicting(Some(s.tasks[t].loader), ACTIVE_GRACE_SECS, s.cache, {}, map[]))
    case Inspect(t, id) => DoInspect(s, t, s.tasks[t], id)
    case Remove(t, locked) => DoRemove(s, t, s.tasks[t], locked)
    case DropSnapshot(t) => DoDropSnapshot(s, t, s.tasks[t].next)
    case Beat(t) => DoBeat(s, t, s.tasks[t].h, s.tasks[t].purpose.addr)
    case StageStep(t) => DoStage(s, t, s.tasks[t].h, s.tasks[t].purpose)
    case Verify(t) => DoVerify(s, t, s.tasks[t].h)
    case WriteRow(t, ok, newGuid) => DoWriteRow(s, t, s.tasks[t].job, ok, newGuid)
    case Finish(t) => DoFinish(s, t, s.tasks[t].job, s.tasks[t].result)
    case Release(t) => EndTask(s, t)
    case Restart => DoRestart(s)
  }

  // ----- answers to heartbeats -----

  /** A task in this state serves a heartbeat of this id from this address. */
  predicate IsHeartbeatOf(task: Task, id: Id, ip: string) {
    match task
    case Missed(i, purpose) => i == id && purpose.Heartbeat? && purpose.addr.ip == ip
    case Caching(l, _) => l.id == id && l.purpose.Heartbeat? && l.purpose.addr.ip == ip
    case Holding(h, purpose) => h.id == id && purpose.Heartbeat? && purpose.addr.ip == ip
    case _ => false
  }

  /** The answer the step gives to a heartbeat, if it gives one: whether the key is asked
      for. A lookup that ends without a peer, because there is no row or no room, is
      answered with a request for the key; one that fails is not answered. */
  function HeartbeatReply(s: State, step: Step): Option<bool>
    requires Enabled(s, step)
  {
    match step
    case Beat(t) =>
      Some(BeatPeer(s.heap[s.tasks[t].h], s.tasks[t].purpose.addr, s.unmanaged, s.now).requestPk)
    case ReadRow(t, stored) => if s.tasks[t].purpose.Heartbeat? && stored.None? then Some(true) else None
    case CacheFinal(t) =>
      var l := s.tasks[t].loader;
      if l.purpose.Heartbeat? && l.id !in s.cache && |s.cache| >= s.cap then Some(true) else None
    case _ => None
  }

  // ----- runs -----

  /** Rows as this code writes them. */
  ghost predicate TableOk(db: Table) {
    && (forall g :: g in db ==> g != [] && db[g].uuid != [])
    && (forall g, k :: g in db && k in db && db[g].id == db[k].id ==> g == k)
  }

  ghost predicate Init(s: State) {
    s.cache == map[] && s.heap == map[] && s.tasks == map[] && s.evictions == [] && TableOk(s.db)
  }

  ghost predicate StepAt(run: seq<State>, steps: seq<Step>, i: nat)
    requires |run| == |steps| + 1 && i < |steps|
  {
    Enabled(run[i], steps[i]) && run[i + 1] == Apply(run[i], steps[i])
  }

  /** A run: the states it goes through and the steps between them. */
  ghost predicate IsRun(run: seq<State>, steps: seq<Step>) {
    && |run| == |steps| + 1
    && Init(run[0])
    && forall i: nat {:trigger StepAt(run, steps, i)} :: i < |steps| ==> StepAt(run, steps, i)
  }
}
