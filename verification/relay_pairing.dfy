/** Pairing of relay connections. A connection's task holds a permit until it ends.
    The first stream that names a uuid waits in a table under a timer stamped with
    a generation; the second takes it out and relays. */
module RelayPairing {
  import opened Values

  type Conn = nat
  type Ip = string
  type Uuid = string

  const MAX_PENDING_RELAYS: nat := 4096
  const MAX_PENDING_RELAYS_PER_IP: nat := 32

  /** A stream waiting in the table; it stays named by the connection it came from. */
  datatype Pending = Pending(stream: Conn, ip: Ip, generation: nat)

  datatype Task =
    | Console
    | Reading
    | Sleeping(uuid: Uuid, generation: nat)
    | Relaying(uuid: Uuid, partner: Conn)

  /** `named` remembers the uuid each connection gave. */
  datatype State = State(
    slots: nat,
    tasks: map<Conn, Task>,
    peers: map<Uuid, Pending>,
    nextGeneration: nat,
    nextConn: Conn,
    named: map<Conn, Uuid>)

  datatype Step =
    | Accept(console: bool)
    | Quit(c: Conn)
    | Request(c: Conn, uuid: Uuid, ip: Ip)
    | Timeout(c: Conn)
    | Close(c: Conn)

  function WaitingFrom(peers: map<Uuid, Pending>, ip: Ip): set<Uuid> {
    set u | u in peers && peers[u].ip == ip
  }

  predicate Refused(s: State, ip: Ip) {
    |s.peers| >= MAX_PENDING_RELAYS || |WaitingFrom(s.peers, ip)| >= MAX_PENDING_RELAYS_PER_IP
  }

  function EndTask(s: State, c: Conn): State {
    s.(tasks := s.tasks - {c})
  }

  /** The region of `make_pair_` that holds the table's lock. */
  function DoRequest(s: State, c: Conn, uuid: Uuid, ip: Ip): State {
    var s1 := s.(named := s.named[c := uuid]);
    if uuid in s.peers then
      s1.(peers := s.peers - {uuid}, tasks := s.tasks[c := Relaying(uuid, s.peers[uuid].stream)])
    else if Refused(s, ip) then
      EndTask(s1, c)
    else
      s1.(peers := s.peers[uuid := Pending(c, ip, s.nextGeneration)],
          nextGeneration := s.nextGeneration + 1,
          tasks := s.tasks[c := Sleeping(uuid, s.nextGeneration)])
  }

  /** `remove_pending_if_generation`. */
  function RemoveIfGeneration(peers: map<Uuid, Pending>, uuid: Uuid, generation: nat): map<Uuid, Pending> {
    if uuid in peers && peers[uuid].generation == generation then peers - {uuid} else peers
  }

  predicate Enabled(s: State, step: Step) {
    match step
    case Accept(_) => |s.tasks| < s.slots
    case Quit(c) => c in s.tasks && (s.tasks[c].Reading? || s.tasks[c].Console?)
    case Request(c, _, _) => c in s.tasks && s.tasks[c].Reading?
    case Timeout(c) => c in s.tasks && s.tasks[c].Sleeping?
    case Close(c) => c in s.tasks && s.tasks[c].Relaying?
  }

  function Apply(s: State, step: Step): State
    requires Enabled(s, step)
  {
    match step
    case Accept(console) =>
      s.(tasks := s.tasks[s.nextConn := if console then Console else Reading], nextConn := s.nextConn + 1)
    case Quit(c) => EndTask(s, c)
    case Request(c, uuid, ip) => DoRequest(s, c, uuid, ip)
    case Timeout(c) =>
      EndTask(s.(peers := RemoveIfGeneration(s.peers, s.tasks[c].uuid, s.tasks[c].generation)), c)
    case Close(c) => EndTask(s, c)
  }

  ghost predicate Init(s: State) {
    s.tasks == map[] && s.peers == map[] && s.named == map[]
  }

  ghost predicate StepAt(run: seq<State>, steps: seq<Step>, i: nat)
    requires |run| == |steps| + 1 && i < |steps|
  {
    Enabled(run[i], steps[i]) && run[i + 1] == Apply(run[i], steps[i])
  }

  ghost predicate IsRun(run: seq<State>, steps: seq<Step>) {
    && |run| == |steps| + 1
    && Init(run[0])
    && forall i: nat {:trigger StepAt(run, steps, i)} :: i < |steps| ==> StepAt(run, steps, i)
  }

  // ----- where a stream is -----

  predicate IsReading(s: State, c: Conn) {
    c in s.tasks && s.tasks[c].Reading?
  }

  predicate WaitsUnder(s: State, c: Conn, u: Uuid) {
    u in s.peers && s.peers[u].stream == c
  }

  /** The session run by connection d's task carries the stream. */
  predicate InSession(s: State, c: Conn, d: Conn) {
    d in s.tasks && s.tasks[d].Relaying? && (d == c || s.tasks[d].partner == c)
  }

  ghost predicate Waits(s: State, c: Conn) {
    exists u :: WaitsUnder(s, c, u)
  }

  ghost predicate Relays(s: State, c: Conn) {
    exists d :: InSession(s, c, d)
  }

  ghost predicate Live(s: State, c: Conn) {
    IsReading(s, c) || Waits(s, c) || Relays(s, c)
  }

  // ----- the invariant -----

  ghost predicate EntriesOk(s: State) {
    forall u :: u in s.peers ==>
      && s.peers[u].stream in s.tasks
      && s.tasks[s.peers[u].stream] == Sleeping(u, s.peers[u].generation)
      && s.peers[u].stream in s.named && s.named[s.peers[u].stream] == u
  }

  /** Generations are handed out once: a timer's generation is below the counter and
      no two timers share one. */
  ghost predicate TimersOk(s: State) {
    && (forall c :: c in s.tasks && s.tasks[c].Sleeping? ==> s.tasks[c].generation < s.nextGeneration)
    && (forall c, d ::
          (c in s.tasks && d in s.tasks && s.tasks[c].Sleeping? && s.tasks[d].Sleeping? &&
           s.tasks[c].generation == s.tasks[d].generation) ==> c == d)
  }

  /** A session's partner is some other stream that named the same uuid, has left
      the table and is nobody else's partner. */
  ghost predicate SessionOk(s: State, d: Conn)
    requires d in s.tasks && s.tasks[d].Relaying?
  {
    var p := s.tasks[d].partner;
    && p != d && p < s.nextConn
    && d in s.named && p in s.named && s.named[d] == s.named[p] == s.tasks[d].uuid
    && (p in s.tasks ==> s.tasks[p].Sleeping?)
    && (forall u :: u in s.peers ==> s.peers[u].stream != p)
  }

  ghost predicate SessionsOk(s: State) {
    && (forall d :: d in s.tasks && s.tasks[d].Relaying? ==> SessionOk(s, d))
    && (forall d, e ::
          (d in s.tasks && e in s.tasks && s.tasks[d].Relaying? && s.tasks[e].Relaying? &&
           s.tasks[d].partner == s.tasks[e].partner) ==> d == e)
  }

  ghost predicate BoundsOk(s: State) {
    && |s.tasks| <= s.slots
    && |s.peers| <= MAX_PENDING_RELAYS
    && forall ip :: |WaitingFrom(s.peers, ip)| <= MAX_PENDING_RELAYS_PER_IP
  }

  ghost predicate ConnsOk(s: State) {
    && (forall c :: c in s.tasks ==> c < s.nextConn)
    && (forall c :: c in s.named ==> c < s.nextConn && !IsReading(s, c))
  }

  ghost predicate Inv(s: State) {
    ConnsOk(s) && EntriesOk(s) && TimersOk(s) && SessionsOk(s) && BoundsOk(s)
  }

  // ----- bounds -----

  lemma FewerWaiting(p: map<Uuid, Pending>, uuid: Uuid, ip: Ip)
    ensures |p - {uuid}| <= |p| && |WaitingFrom(p - {uuid}, ip)| <= |WaitingFrom(p, ip)|
  {
    SubsetSize((p - {uuid}).Keys, p.Keys);
    SubsetSize(WaitingFrom(p - {uuid}, ip), WaitingFrom(p, ip));
  }

  lemma OneMoreWaiting(p: map<Uuid, Pending>, uuid: Uuid, e: Pending, ip: Ip)
    requires uuid !in p
    ensures |WaitingFrom(p[uuid := e], ip)| == |WaitingFrom(p, ip)| + (if e.ip == ip then 1 else 0)
  {
    if e.ip == ip {
      assert WaitingFrom(p[uuid := e], ip) == WaitingFrom(p, ip) + {uuid};
    } else {
      assert WaitingFrom(p[uuid := e], ip) == WaitingFrom(p, ip);
    }
  }

  lemma TasksShrink(tasks: map<Conn, Task>, c: Conn)
    ensures |tasks - {c}| <= |tasks|
  {
    SubsetSize((tasks - {c}).Keys, tasks.Keys);
  }

  lemma StepBounds(s: State, step: Step)
    requires BoundsOk(s) && Enabled(s, step)
    ensures BoundsOk(Apply(s, step))
  {
    var s' := Apply(s, step);
    match step
    case Accept(_) =>
    case Quit(c) => TasksShrink(s.tasks, c);
    case Close(c) => TasksShrink(s.tasks, c);
    case Timeout(c) =>
      TasksShrink(s.tasks, c);
      forall ip ensures |WaitingFrom(s'.peers, ip)| <= MAX_PENDING_RELAYS_PER_IP {
        FewerWaiting(s.peers, s.tasks[c].uuid, ip);
      }
    case Request(c, uuid, ip) =>
      TasksShrink(s.tasks, c);
      if uuid in s.peers {
        forall ip' ensures |WaitingFrom(s'.peers, ip')| <= MAX_PENDING_RELAYS_PER_IP {
          FewerWaiting(s.peers, uuid, ip');
        }
      } else if !Refused(s, ip) {
        forall ip' ensures |WaitingFrom(s'.peers, ip')| <= MAX_PENDING_RELAYS_PER_IP {
          OneMoreWaiting(s.peers, uuid, s'.peers[uuid], ip');
        }
      }
  }

  // ----- every step keeps the invariant -----

  lemma EndTaskInv(s: State, c: Conn)
    requires Inv(s) && c in s.tasks && forall u :: u in s.peers ==> s.peers[u].stream != c
    ensures Inv(EndTask(s, c))
  {
    TasksShrink(s.tasks, c);
    var s' := EndTask(s, c);
    forall d | d in s'.tasks && s'.tasks[d].Relaying? ensures SessionOk(s', d) {
      assert SessionOk(s, d);
    }
  }

  lemma AcceptInv(s: State, console: bool)
    requires Inv(s) && Enabled(s, Accept(console))
    ensures Inv(Apply(s, Accept(console)))
  {
    var s' := Apply(s, Accept(console));
    StepBounds(s, Accept(console));
    forall d | d in s'.tasks && s'.tasks[d].Relaying? ensures SessionOk(s', d) {
      assert SessionOk(s, d);
    }
  }

  lemma TimeoutInv(s: State, c: Conn)
    requires Inv(s) && Enabled(s, Timeout(c))
    ensures Inv(Apply(s, Timeout(c)))
  {
    var s' := Apply(s, Timeout(c));
    StepBounds(s, Timeout(c));
    assert forall u :: u in s'.peers ==> u in s.peers && s'.peers[u] == s.peers[u] && s.peers[u].stream != c;
    forall d | d in s'.tasks && s'.tasks[d].Relaying? ensures SessionOk(s', d) {
      assert SessionOk(s, d);
    }
  }

  lemma PairSessions(s: State, c: Conn, uuid: Uuid, ip: Ip)
    requires ConnsOk(s) && EntriesOk(s) && SessionsOk(s) && Enabled(s, Request(c, uuid, ip)) && uuid in s.peers
    ensures SessionsOk(DoRequest(s, c, uuid, ip))
  {
    var s' := DoRequest(s, c, uuid, ip);
    var p := s.peers[uuid].stream;
    assert s.tasks[p].Sleeping?;
    forall d | d in s'.tasks && s'.tasks[d].Relaying? ensures SessionOk(s', d) && (d != c ==> s'.tasks[d].partner != p) {
      if d != c {
        assert SessionOk(s, d);
      }
    }
  }

  lemma PairInv(s: State, c: Conn, uuid: Uuid, ip: Ip)
    requires Inv(s) && Enabled(s, Request(c, uuid, ip)) && uuid in s.peers
    ensures Inv(DoRequest(s, c, uuid, ip))
  {
    StepBounds(s, Request(c, uuid, ip));
    PairSessions(s, c, uuid, ip);
  }

  lemma WaitInv(s: State, c: Conn, uuid: Uuid, ip: Ip)
    requires Inv(s) && Enabled(s, Request(c, uuid, ip)) && uuid !in s.peers && !Refused(s, ip)
    ensures Inv(DoRequest(s, c, uuid, ip))
  {
    StepBounds(s, Request(c, uuid, ip));
    WaitTimers(s, c, uuid, ip);
    WaitSessions(s, c, uuid, ip);
  }

  lemma WaitTimers(s: State, c: Conn, uuid: Uuid, ip: Ip)
    requires EntriesOk(s) && TimersOk(s) && Enabled(s, Request(c, uuid, ip)) && uuid !in s.peers && !Refused(s, ip)
    ensures EntriesOk(DoRequest(s, c, uuid, ip)) && TimersOk(DoRequest(s, c, uuid, ip))
  {
  }

  lemma WaitSessions(s: State, c: Conn, uuid: Uuid, ip: Ip)
    requires SessionsOk(s) && Enabled(s, Request(c, uuid, ip)) && uuid !in s.peers && !Refused(s, ip)
    ensures SessionsOk(DoRequest(s, c, uuid, ip))
  {
    var s' := DoRequest(s, c, uuid, ip);
    forall d | d in s'.tasks && s'.tasks[d].Relaying? ensures SessionOk(s', d) {
      assert SessionOk(s, d);
    }
  }

  lemma StepInv(s: State, step: Step)
    requires Inv(s) && Enabled(s, step)
    ensures Inv(Apply(s, step))
  {
    match step
    case Accept(console) => AcceptInv(s, console);
    case Quit(c) => EndTaskInv(s, c);
    case Close(c) => EndTaskInv(s, c);
    case Timeout(c) => TimeoutInv(s, c);
    case Request(c, uuid, ip) =>
      if uuid in s.peers {
        PairInv(s, c, uuid, ip);
      } else if Refused(s, ip) {
        RefuseInv(s, c, uuid, ip);
      } else {
        WaitInv(s, c, uuid, ip);
      }
  }

  lemma RefuseInv(s: State, c: Conn, uuid: Uuid, ip: Ip)
    requires Inv(s) && Enabled(s, Request(c, uuid, ip)) && uuid !in s.peers && Refused(s, ip)
    ensures Inv(DoRequest(s, c, uuid, ip))
  {
    EndTaskInv(s, c);
    var s' := DoRequest(s, c, uuid, ip);
    forall d | d in s'.tasks && s'.tasks[d].Relaying? ensures SessionOk(s', d) {
      assert SessionOk(s, d);
    }
  }

  lemma {:induction false} RunInv(run: seq<State>, steps: seq<Step>, i: nat)
    requires IsRun(run, steps) && i < |run|
    ensures Inv(run[i])
  {
    if i == 0 {
      assert forall ip :: WaitingFrom(run[0].peers, ip) == {};
    } else {
      RunInv(run, steps, i - 1);
      assert StepAt(run, steps, i - 1);
      StepInv(run[i - 1], steps[i - 1]);
    }
  }

  // ----- ownership -----

  /** A stream is in at most one place: being read, waiting under one uuid, or
      carried by one session. */
  lemma OneOwner(s: State, c: Conn)
    requires Inv(s)
    ensures !(IsReading(s, c) && Waits(s, c)) && !(IsReading(s, c) && Relays(s, c)) && !(Waits(s, c) && Relays(s, c))
    ensures forall u, v :: WaitsUnder(s, c, u) && WaitsUnder(s, c, v) ==> u == v
    ensures forall d, e :: InSession(s, c, d) && InSession(s, c, e) ==> d == e
  {
    assert forall d :: InSession(s, c, d) ==> SessionOk(s, d);
  }

  /** The session joins two streams that gave the same uuid. */
  ghost predicate JoinsTwo(s: State, d: Conn)
    requires d in s.tasks && s.tasks[d].Relaying?
  {
    var p := s.tasks[d].partner;
    && p != d && d in s.named && p in s.named && s.named[d] == s.named[p]
    && forall c :: InSession(s, c, d) <==> c == d || c == p
  }

  /** In every state of every run: each stream has one owner or is gone; each session
      joins exactly two streams, which gave the same uuid; and each waiting entry has
      exactly one live timer with its uuid and generation, its own connection's. */
  lemma RelayOwnership(run: seq<State>, steps: seq<Step>, i: nat, c: Conn)
    requires IsRun(run, steps) && i < |run|
    ensures var s := run[i];
      && !(IsReading(s, c) && Waits(s, c)) && !(IsReading(s, c) && Relays(s, c)) && !(Waits(s, c) && Relays(s, c))
      && (forall u, v :: WaitsUnder(s, c, u) && WaitsUnder(s, c, v) ==> u == v)
      && (forall d, e :: InSession(s, c, d) && InSession(s, c, e) ==> d == e)
    ensures forall d :: d in run[i].tasks && run[i].tasks[d].Relaying? ==> JoinsTwo(run[i], d)
    ensures var s := run[i];
      forall u :: u in s.peers ==>
        forall t :: (t in s.tasks && s.tasks[t] == Sleeping(u, s.peers[u].generation)) <==> t == s.peers[u].stream
  {
    RunInv(run, steps, i);
    OneOwner(run[i], c);
    assert forall d :: d in run[i].tasks && run[i].tasks[d].Relaying? ==> SessionOk(run[i], d);
  }

  lemma RefusedIff(s: State, ip: Ip)
    ensures Refused(s, ip) <==> |s.peers| >= 4096 || |set u | u in s.peers && s.peers[u].ip == ip| >= 32
  {
    assert WaitingFrom(s.peers, ip) == set u | u in s.peers && s.peers[u].ip == ip;
  }

  /** What becomes of a stream that names a uuid: it is joined with the stream waiting
      under that uuid, dropped exactly when none waits and 4096 streams wait or 32 of
      its address, and left to wait otherwise. */
  lemma RequestOutcome(s: State, c: Conn, uuid: Uuid, ip: Ip)
    requires Inv(s) && Enabled(s, Request(c, uuid, ip))
    ensures var s' := Apply(s, Request(c, uuid, ip));
      && (forall p :: WaitsUnder(s, p, uuid) ==> InSession(s', c, c) && InSession(s', p, c))
      && (!Live(s', c) <==> uuid !in s.peers && (|s.peers| >= 4096 || |set u | u in s.peers && s.peers[u].ip == ip| >= 32))
      && (Waits(s', c) <==> uuid !in s.peers && |s.peers| < 4096 && |set u | u in s.peers && s.peers[u].ip == ip| < 32)
  {
    var s' := Apply(s, Request(c, uuid, ip));
    RefusedIff(s, ip);
    StepInv(s, Request(c, uuid, ip));
    OneOwner(s', c);
    assert forall d :: InSession(s', c, d) ==> SessionOk(s', d);
    if uuid in s.peers {
      assert InSession(s', c, c);
    } else if !Refused(s, ip) {
      assert WaitsUnder(s', c, uuid);
    }
  }

  /** A connection that finds a free slot is accepted and read. */
  lemma AcceptReads(s: State)
    requires Inv(s) && |s.tasks| < s.slots
    ensures Enabled(s, Accept(false))
    ensures var s' := Apply(s, Accept(false));
      Inv(s') && IsReading(s', s.nextConn) && |s'.tasks| == |s.tasks| + 1 && s'.peers == s.peers && s'.slots == s.slots
      && s'.nextConn == s.nextConn + 1 && (forall c :: IsReading(s, c) ==> IsReading(s', c))
  {
    AcceptInv(s, false);
  }

  /** Two streams being read that name a uuid nobody waits under, while there is room for
      the first, end up in one session. */
  lemma TwoPair(s: State, a: Conn, b: Conn, uuid: Uuid, ip: Ip, ip2: Ip)
    requires a != b && IsReading(s, a) && IsReading(s, b) && uuid !in s.peers
    requires |s.peers| < 4096 && |set u | u in s.peers && s.peers[u].ip == ip| < 32
    ensures Enabled(s, Request(a, uuid, ip)) && Enabled(Apply(s, Request(a, uuid, ip)), Request(b, uuid, ip2))
    ensures var s' := Apply(Apply(s, Request(a, uuid, ip)), Request(b, uuid, ip2));
      InSession(s', a, b) && InSession(s', b, b) && s'.peers == s.peers
  {
    RefusedIff(s, ip);
    var s1 := Apply(s, Request(a, uuid, ip));
    assert s1.peers - {uuid} == s.peers;
  }

  function TwoAccepted(s: State): State
    requires |s.tasks| + 2 <= s.slots && s.nextConn !in s.tasks
  {
    var s1 := Apply(s, Accept(false));
    assert |s1.tasks| == |s.tasks| + 1;
    Apply(s1, Accept(false))
  }

  lemma TwoRead(s: State)
    requires Inv(s) && |s.tasks| + 2 <= s.slots
    ensures s.nextConn !in s.tasks
    ensures var s' := TwoAccepted(s);
      IsReading(s', s.nextConn) && IsReading(s', s.nextConn + 1) && s'.peers == s.peers
  {
    AcceptReads(s);
    AcceptReads(Apply(s, Accept(false)));
  }

  /** From every state the server can be in with two free slots, two connections that name
      an unused uuid, while there is room, are accepted, joined and leave nobody waiting. */
  lemma PairingSucceeds(run: seq<State>, steps: seq<Step>, i: nat, uuid: Uuid, ip: Ip, ip2: Ip)
    requires IsRun(run, steps) && i < |run| && |run[i].tasks| + 2 <= run[i].slots && uuid !in run[i].peers
    requires |run[i].peers| < 4096 && |set u | u in run[i].peers && run[i].peers[u].ip == ip| < 32
    ensures run[i].nextConn !in run[i].tasks
    ensures var s, a, b := TwoAccepted(run[i]), run[i].nextConn, run[i].nextConn + 1;
      && Enabled(s, Request(a, uuid, ip)) && Enabled(Apply(s, Request(a, uuid, ip)), Request(b, uuid, ip2))
      && var s' := Apply(Apply(s, Request(a, uuid, ip)), Request(b, uuid, ip2));
      InSession(s', a, b) && InSession(s', b, b) && s'.peers == run[i].peers
  {
    RunInv(run, steps, i);
    TwoRead(run[i]);
    TwoPair(TwoAccepted(run[i]), run[i].nextConn, run[i].nextConn + 1, uuid, ip, ip2);
  }

  /** A timer that fires takes out its own connection's entry if that still waits, and
      nothing otherwise. */
  lemma TimerTakesOwnEntry(s: State, c: Conn)
    requires Inv(s) && Enabled(s, Timeout(c))
    ensures forall u :: u in Apply(s, Timeout(c)).peers <==> u in s.peers && !WaitsUnder(s, c, u)
    ensures forall u :: u in Apply(s, Timeout(c)).peers ==> Apply(s, Timeout(c)).peers[u] == s.peers[u]
    ensures !Waits(s, c) ==> Apply(s, Timeout(c)).peers == s.peers
  {
    var u, g := s.tasks[c].uuid, s.tasks[c].generation;
    assert u in s.peers && s.peers[u].generation == g ==> WaitsUnder(s, c, u);
  }

  /** Once accepted, named and out of the table, a stream never waits again. */
  lemma GoneStep(s: State, step: Step, c: Conn)
    requires Inv(s) && Enabled(s, step) && c in s.named && !Waits(s, c)
    ensures c in Apply(s, step).named && !Waits(Apply(s, step), c)
  {
    var s' := Apply(s, step);
    assert forall u :: WaitsUnder(s', c, u) ==> WaitsUnder(s, c, u);
  }

  lemma {:induction false} GoneRun(run: seq<State>, steps: seq<Step>, i: nat, j: nat, c: Conn)
    requires IsRun(run, steps) && i <= j < |run| && c in run[i].named && !Waits(run[i], c)
    ensures c in run[j].named && !Waits(run[j], c)
    decreases j
  {
    if i < j {
      GoneRun(run, steps, i, j - 1, c);
      RunInv(run, steps, j - 1);
      assert StepAt(run, steps, j - 1);
      GoneStep(run[j - 1], steps[j - 1], c);
    }
  }

  /** A timer whose entry was taken changes nothing when it fires, however often its
      uuid was used again in between. */
  lemma StaleTimerIsIdle(run: seq<State>, steps: seq<Step>, i: nat, j: nat, c: Conn)
    requires IsRun(run, steps) && i <= j < |steps| && steps[j] == Timeout(c)
    requires c in run[i].named && !Waits(run[i], c)
    ensures run[j + 1].peers == run[j].peers
  {
    GoneRun(run, steps, i, j, c);
    RunInv(run, steps, j);
    assert StepAt(run, steps, j);
    TimerTakesOwnEntry(run[j], c);
  }

  lemma DeadStaysUnpaired(s: State, step: Step, c: Conn, d: Conn)
    requires Enabled(s, step) && c < s.nextConn && !Live(s, c)
    ensures !InSession(Apply(s, step), c, d)
  {
    assert !InSession(s, c, d);
    if step.Request? && step.uuid in s.peers {
      assert WaitsUnder(s, s.peers[step.uuid].stream, step.uuid);
    }
  }

  lemma DeadStep(s: State, step: Step, c: Conn)
    requires Enabled(s, step) && c < s.nextConn && !Live(s, c)
    ensures c < Apply(s, step).nextConn && !Live(Apply(s, step), c)
  {
    var s' := Apply(s, step);
    assert forall u :: WaitsUnder(s', c, u) ==> WaitsUnder(s, c, u);
    forall d ensures !InSession(s', c, d) {
      DeadStaysUnpaired(s, step, c, d);
    }
  }

  /** A dropped stream is never owned again. */
  lemma {:induction false} DroppedForGood(run: seq<State>, steps: seq<Step>, i: nat, j: nat, c: Conn)
    requires IsRun(run, steps) && i <= j < |run| && c < run[i].nextConn && !Live(run[i], c)
    ensures c < run[j].nextConn && !Live(run[j], c)
    decreases j
  {
    if i < j {
      DroppedForGood(run, steps, i, j - 1, c);
      assert StepAt(run, steps, j - 1);
      DeadStep(run[j - 1], steps[j - 1], c);
    }
  }

  // ----- permits -----

  function Sessions(s: State): set<Conn> {
    set d | d in s.tasks && s.tasks[d].Relaying?
  }

  ghost function LiveStreams(s: State): set<Conn> {
    set c: Conn | c < s.nextConn && Live(s, c)
  }

  ghost function Partners(s: State, ds: set<Conn>): set<Conn>
    requires ds <= Sessions(s)
  {
    set d | d in ds :: s.tasks[d].partner
  }

  lemma {:induction false} PartnersSize(s: State, ds: set<Conn>)
    requires ds <= Sessions(s)
    ensures |Partners(s, ds)| <= |ds|
  {
    if ds != {} {
      var d :| d in ds;
      PartnersSize(s, ds - {d});
      assert Partners(s, ds) == Partners(s, ds - {d}) + {s.tasks[d].partner};
    }
  }

  lemma UnionSize(a: set<Conn>, b: set<Conn>)
    ensures |a + b| <= |a| + |b|
  {
    assert a + b == a + (b - a);
    SubsetSize(b - a, b);
  }

  lemma LiveBound(s: State)
    requires Inv(s)
    ensures |LiveStreams(s)| <= |s.tasks| + |Sessions(s)|
    ensures |Sessions(s)| <= |s.tasks| <= s.slots
  {
    var ps := Partners(s, Sessions(s));
    forall c | c in LiveStreams(s) ensures c in s.tasks.Keys + ps {
      if Relays(s, c) {
        var d :| InSession(s, c, d);
        assert d in Sessions(s);
      }
    }
    PartnersSize(s, Sessions(s));
    SubsetSize(LiveStreams(s), s.tasks.Keys + ps);
    UnionSize(s.tasks.Keys, ps);
    SubsetSize(Sessions(s), s.tasks.Keys);
  }

  /** In every reachable state at most 4096 streams wait, at most 32 of them from one
      address, permits in use never exceed the slots, and live streams never exceed
      permits in use plus open sessions, hence never twice the slots. */
  lemma RelayBounds(run: seq<State>, steps: seq<Step>, i: nat)
    requires IsRun(run, steps) && i < |run|
    ensures |run[i].peers| <= 4096
    ensures forall ip :: |WaitingFrom(run[i].peers, ip)| <= 32
    ensures |run[i].tasks| <= run[i].slots
    ensures |LiveStreams(run[i])| <= |run[i].tasks| + |Sessions(run[i])| <= 2 * run[i].slots
  {
    RunInv(run, steps, i);
    LiveBound(run[i]);
  }
}
