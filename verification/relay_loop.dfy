/** The loop that relays one session: what it forwards, what it charges to the
    bandwidth limiters, and what it publishes about its speed. */
module RelayLoop {
  import opened Values

  const DOWNGRADE_THRESHOLD_SCALE: nat := 1_000_000

  /** Limits read when the session starts: bits per second and a scaled fraction. */
  datatype Config = Config(singleBandwidth: nat, thresholdScaled: nat)

  /** What the end of an iteration sees: milliseconds since the last sample, the two
      address lists, and the start of the downgrade check. */
  datatype Env = Env(sinceSample: nat, blocked: bool, blacked: bool, startCheck: nat)

  datatype Side = Peer | Stream

  /** One wake-up of the loop: bytes from a side, with whether forwarding them worked; a
      side that closed; or the timer, with the whole seconds since bytes last came. */
  datatype Event =
    | Received(from: Side, bytes: Bytes, sent: bool, env: Env)
    | Closed
    | Tick(idleSecs: nat, env: Env)

  datatype End = PeerGone | SendFailed | TimedOut | Blocked

  /** A sample as it is published, with the start of the downgrade check it met. */
  datatype Sample = Sample(elapsed: nat, total: nat, highest: nat, speed: nat, startCheck: nat)

  datatype State = State(
    total: nat, totalS: nat, highest: nat, elapsed: nat, downgrade: bool, blacked: bool,
    fast: nat, slow: nat, shared: nat,
    toStream: Bytes, toPeer: Bytes,
    samples: seq<Sample>)

  const START := State(0, 0, 0, 0, false, false, 0, 0, 0, [], [], [])

  datatype Result = Result(state: State, end: Option<End>, taken: nat)

  /** The bits are charged to one of the session's limiters and to the shared one. */
  function Charge(st: State, bits: nat): State {
    var slow := st.blacked || st.downgrade;
    st.(total := st.total + bits, totalS := st.totalS + bits, shared := st.shared + bits,
        fast := if slow then st.fast else st.fast + bits,
        slow := if slow then st.slow + bits else st.slow)
  }

  function Forward(st: State, from: Side, bytes: Bytes): State {
    if from.Peer? then st.(toStream := st.toStream + bytes) else st.(toPeer := st.toPeer + bytes)
  }

  /** The session has used more than its share of the bandwidth over its whole life. */
  predicate Exceeded(c: Config, elapsed: nat, total: nat, startCheck: nat) {
    elapsed > startCheck
    && total * 1000 * DOWNGRADE_THRESHOLD_SCALE > elapsed * c.singleBandwidth * c.thresholdScaled
  }

  function Max(a: nat, b: nat): nat { if a > b then a else b }

  function TakeSample(c: Config, st: State, env: Env): State
    requires env.sinceSample > 0
  {
    var speed := st.totalS / env.sinceSample;
    var highest := Max(st.highest, speed);
    var elapsed := st.elapsed + env.sinceSample;
    st.(blacked := env.blacked, highest := highest, elapsed := elapsed, totalS := 0,
        samples := st.samples + [Sample(elapsed, st.total, highest, speed, env.startCheck)],
        downgrade := st.downgrade || Exceeded(c, elapsed, st.total, env.startCheck))
  }

  function EndOfTurn(c: Config, st: State, env: Env, taken: nat): Result {
    if env.sinceSample < 1000 then Result(st, None, taken)
    else if env.blocked then Result(st, Some(Blocked), taken)
    else Result(TakeSample(c, st, env), None, taken)
  }

  /** One turn of the loop. */
  function Turn(c: Config, st: State, ev: Event, taken: nat): Result {
    match ev
    case Received(from, bytes, sent, env) =>
      var st1 := Charge(st, |bytes| * 8);
      if bytes != [] && !sent then Result(st1, Some(SendFailed), taken)
      else EndOfTurn(c, Forward(st1, from, bytes), env, taken)
    case Closed => Result(st, Some(PeerGone), taken)
    case Tick(idleSecs, env) =>
      if idleSecs > 30 then Result(st, Some(TimedOut), taken)
      else EndOfTurn(c, st, env, taken)
  }

  /** The loop over a sequence of wake-ups; it stops at the first one that ends it. */
  function Run(c: Config, events: seq<Event>): Result
    decreases |events|
  {
    if events == [] then Result(START, None, 0)
    else
      var r := Run(c, events[..|events| - 1]);
      if r.end.Some? then r else Turn(c, r.state, events[|events| - 1], |events|)
  }

  /** The loop as it runs, variable by variable. */
  method Relay(c: Config, events: seq<Event>) returns (r: Result)
    ensures r == Run(c, events)
  {
    var st := START;
    var k := 0;
    while k < |events|
      invariant 0 <= k <= |events|
      invariant Run(c, events[..k]) == Result(st, None, k)
    {
      var ev := events[k];
      k := k + 1;
      assert events[..k][..k - 1] == events[..k - 1];
      var env: Env;
      match ev {
        case Closed =>
          EndedRun(c, events, k);
          return Result(st, Some(PeerGone), k);
        case Tick(idleSecs, e) =>
          if idleSecs > 30 {
            EndedRun(c, events, k);
            return Result(st, Some(TimedOut), k);
          }
          env := e;
        case Received(from, bytes, sent, e) =>
          st := Charge(st, |bytes| * 8);
          if bytes != [] {
            if !sent {
              EndedRun(c, events, k);
              return Result(st, Some(SendFailed), k);
            }
          }
          st := Forward(st, from, bytes);
          env := e;
      }
      if env.sinceSample >= 1000 {
        if env.blocked {
          EndedRun(c, events, k);
          return Result(st, Some(Blocked), k);
        }
        st := TakeSample(c, st, env);
      }
    }
    assert events[..k] == events;
    r := Result(st, None, k);
  }

  /** Wake-ups after the end of the loop change nothing. */
  lemma {:induction false} EndedRun(c: Config, events: seq<Event>, k: nat)
    requires k <= |events| && Run(c, events[..k]).end.Some?
    ensures Run(c, events) == Run(c, events[..k])
    decreases |events|
  {
    if k < |events| {
      var n := |events| - 1;
      assert events[..n][..k] == events[..k];
      EndedRun(c, events[..n], k);
    } else {
      assert events[..k] == events;
    }
  }

  // ----- what was received -----

  /** The bytes a side delivered, in order. */
  function BytesFrom(events: seq<Event>, side: Side): Bytes
    decreases |events|
  {
    if events == [] then []
    else
      var ev := events[|events| - 1];
      BytesFrom(events[..|events| - 1], side) + (if ev.Received? && ev.from == side then ev.bytes else [])
  }

  function Out(st: State, side: Side): Bytes {
    if side.Peer? then st.toStream else st.toPeer
  }

  /** What holds of the running totals once the wake-ups in `used` have been taken. */
  ghost predicate Books(c: Config, used: seq<Event>, st: State) {
    && st.total == 8 * (|BytesFrom(used, Peer)| + |BytesFrom(used, Stream)|)
    && st.fast + st.slow == st.total && st.shared == st.total
    && PeakOk(st) && SamplesOk(st) && LatchOk(c, st)
  }

  /** The bits that samples have covered stay below the peak times the time. */
  ghost predicate PeakOk(st: State) {
    && st.totalS <= st.total
    && if st.elapsed == 0 then st.total == st.totalS else st.total - st.totalS < (st.highest + 1) * st.elapsed
  }

  ghost predicate SamplesOk(st: State) {
    forall i :: 0 <= i < |st.samples| ==> SampleOk(st, st.samples[i])
  }

  ghost predicate LatchOk(c: Config, st: State) {
    st.downgrade <==> exists i :: 0 <= i < |st.samples| && OverLimit(c, st.samples[i])
  }

  ghost predicate SampleOk(st: State, s: Sample) {
    && 0 < s.elapsed <= st.elapsed && s.total <= st.total && s.speed <= s.highest <= st.highest
    && s.total / s.elapsed <= s.highest
  }

  /** After more than the first check the session's average, in bits per second, was above
      the given fraction, in millionths, of its bandwidth. */
  ghost predicate OverLimit(c: Config, s: Sample) {
    s.elapsed > s.startCheck && s.total * 1000 * 1_000_000 > s.elapsed * c.singleBandwidth * c.thresholdScaled
  }

  lemma AverageBelowPeak(before: nat, now: nat, elapsed: nat, n: nat, h: nat, h': nat)
    requires n > 0 && h' >= h && h' >= now / n
    requires if elapsed == 0 then before == 0 else before < (h + 1) * elapsed
    ensures before + now < (h' + 1) * (elapsed + n)
    ensures (before + now) / (elapsed + n) <= h'
  {
    assert now < (now / n + 1) * n;
    assert (now / n + 1) * n <= (h' + 1) * n;
    if elapsed > 0 {
      assert (h + 1) * elapsed <= (h' + 1) * elapsed;
    }
    assert (h' + 1) * (elapsed + n) == (h' + 1) * elapsed + (h' + 1) * n;
    QuotientBelow(before + now, elapsed + n, h');
  }

  lemma QuotientBelow(x: nat, y: nat, h: nat)
    requires y > 0 && x < (h + 1) * y
    ensures x / y <= h
  {
    var q := x / y;
    assert q * y <= x;
    assert q >= h + 1 ==> q * y >= (h + 1) * y;
  }

  lemma SamplePeak(c: Config, st: State, env: Env)
    requires PeakOk(st) && SamplesOk(st) && env.sinceSample > 0
    ensures PeakOk(TakeSample(c, st, env)) && SamplesOk(TakeSample(c, st, env))
  {
    var st' := TakeSample(c, st, env);
    AverageBelowPeak(st.total - st.totalS, st.totalS, st.elapsed, env.sinceSample, st.highest, st'.highest);
    forall i | 0 <= i < |st'.samples| ensures SampleOk(st', st'.samples[i]) {
      assert i < |st.samples| ==> SampleOk(st, st.samples[i]);
    }
  }

  lemma LatchAppend(c: Config, before: seq<Sample>, s: Sample)
    ensures (exists i :: 0 <= i < |before + [s]| && OverLimit(c, (before + [s])[i])) <==>
      (exists i :: 0 <= i < |before| && OverLimit(c, before[i])) || OverLimit(c, s)
  {
    var after := before + [s];
    assert after[|before|] == s;
    assert forall i :: 0 <= i < |before| ==> after[i] == before[i];
  }

  /** A sample keeps the books: no bytes are involved. */
  lemma SampleBooks(c: Config, used: seq<Event>, st: State, env: Env)
    requires Books(c, used, st) && env.sinceSample > 0
    ensures Books(c, used, TakeSample(c, st, env))
  {
    SamplePeak(c, st, env);
    var st' := TakeSample(c, st, env);
    LatchAppend(c, st.samples, st'.samples[|st.samples|]);
  }

  /** Charging and forwarding a chunk keeps the books. */
  lemma ChargeBooks(c: Config, used: seq<Event>, st: State, ev: Event)
    requires Books(c, used, st)
    ensures Books(c, used + [ev], if ev.Received? then Charge(st, |ev.bytes| * 8) else st)
  {
    assert (used + [ev])[..|used|] == used;
    var st' := if ev.Received? then Charge(st, |ev.bytes| * 8) else st;
    forall i | 0 <= i < |st'.samples| ensures SampleOk(st', st'.samples[i]) {
      assert SampleOk(st, st.samples[i]);
    }
  }

  lemma ForwardBooks(c: Config, used: seq<Event>, st: State, from: Side, bytes: Bytes)
    requires Books(c, used, st)
    ensures Books(c, used, Forward(st, from, bytes))
  {
    var st' := Forward(st, from, bytes);
    forall i | 0 <= i < |st'.samples| ensures SampleOk(st', st'.samples[i]) {
      assert SampleOk(st, st.samples[i]);
    }
  }

  lemma TurnBooks(c: Config, used: seq<Event>, st: State, ev: Event, taken: nat)
    requires Books(c, used, st)
    ensures Books(c, used + [ev], Turn(c, st, ev, taken).state)
  {
    ChargeBooks(c, used, st, ev);
    match ev
    case Closed =>
    case Tick(_, env) =>
      if env.sinceSample >= 1000 {
        SampleBooks(c, used + [ev], st, env);
      }
    case Received(from, bytes, _, env) =>
      var st1 := Charge(st, |bytes| * 8);
      ForwardBooks(c, used + [ev], st1, from, bytes);
      if env.sinceSample >= 1000 {
        SampleBooks(c, used + [ev], Forward(st1, from, bytes), env);
      }
  }

  lemma Slices(events: seq<Event>, k: nat)
    requires k < |events|
    ensures var n := |events| - 1;
      events[..n][..k] == events[..k] && events[..n] + [events[n]] == events && events[..n + 1] == events
    ensures k == |events| - 1 ==> events[..k][..k] == events[..k]
  {
  }

  lemma {:induction false} RunTaken(c: Config, events: seq<Event>)
    ensures Run(c, events).taken <= |events|
    ensures Run(c, events).end.None? ==> Run(c, events).taken == |events|
    decreases |events|
  {
    if events != [] {
      RunTaken(c, events[..|events| - 1]);
    }
  }

  /** On every run of the loop: total bits are eight times the bytes received from both
      sides, all of them are charged to the session's two limiters together and to the
      shared one; in every published sample the average over the session is at most the
      published peak; and the session is downgraded if and only if some sample exceeded
      the threshold. */
  lemma {:induction false} RelayAccounting(c: Config, events: seq<Event>)
    ensures Run(c, events).taken <= |events|
    ensures Books(c, events[..Run(c, events).taken], Run(c, events).state)
    decreases |events|
  {
    if events != [] {
      var n := |events| - 1;
      var prior := events[..n];
      RelayAccounting(c, prior);
      RunTaken(c, prior);
      Slices(events, Run(c, prior).taken);
      if Run(c, prior).end.None? {
        TurnBooks(c, prior, Run(c, prior).state, events[n], |events|);
      }
    }
  }

  // ----- forwarding -----

  /** The chunk whose forwarding failed, if that is how the loop ended. */
  ghost function Lost(used: seq<Event>, end: Option<End>, side: Side): Bytes {
    if end == Some(SendFailed) && used != [] && used[|used| - 1].Received? && used[|used| - 1].from == side
    then used[|used| - 1].bytes else []
  }

  /** The other side was sent what this side delivered, but for the chunk that failed. */
  ghost predicate Delivered(used: seq<Event>, r: Result, side: Side) {
    Out(r.state, side) + Lost(used, r.end, side) == BytesFrom(used, side)
  }

  lemma BytesAppend(used: seq<Event>, ev: Event, side: Side)
    ensures BytesFrom(used + [ev], side) ==
      BytesFrom(used, side) + (if ev.Received? && ev.from == side then ev.bytes else [])
  {
    assert (used + [ev])[..|used|] == used;
  }

  lemma LostAppend(used: seq<Event>, ev: Event, end: Option<End>, side: Side)
    ensures Lost(used + [ev], end, side) ==
      if end == Some(SendFailed) && ev.Received? && ev.from == side then ev.bytes else []
  {
    assert (used + [ev])[|used|] == ev;
  }

  /** What the other side has been sent after a turn. */
  lemma TurnOut(c: Config, st: State, ev: Event, taken: nat, side: Side)
    ensures var r := Turn(c, st, ev, taken);
      Out(r.state, side) ==
        Out(st, side) + (if ev.Received? && ev.from == side && r.end != Some(SendFailed) then ev.bytes else [])
  {
  }

  lemma TurnForwards(c: Config, r: Result, ev: Event, taken: nat, used: seq<Event>, side: Side)
    requires Delivered(used, r, side) && r.end.None?
    ensures Delivered(used + [ev], Turn(c, r.state, ev, taken), side)
  {
    var next := Turn(c, r.state, ev, taken);
    BytesAppend(used, ev, side);
    LostAppend(used, ev, next.end, side);
    TurnOut(c, r.state, ev, taken, side);
    assert Out(r.state, side) == BytesFrom(used, side);
  }

  /** Each side is sent exactly the bytes the other side delivered, in order and without
      gaps; only the chunk on which a send failed is missing. */
  lemma {:induction false} RelayIsTransparent(c: Config, events: seq<Event>, side: Side)
    ensures Run(c, events).taken <= |events|
    ensures Delivered(events[..Run(c, events).taken], Run(c, events), side)
    decreases |events|
  {
    if events != [] {
      var n := |events| - 1;
      var prior := events[..n];
      RelayIsTransparent(c, prior, side);
      RunTaken(c, prior);
      Slices(events, Run(c, prior).taken);
      if Run(c, prior).end.None? {
        TurnForwards(c, Run(c, prior), events[n], |events|, prior, side);
      }
    }
  }

  // ----- the downgrade latch -----

  lemma TurnLatch(c: Config, st: State, ev: Event, taken: nat)
    ensures st.downgrade ==> Turn(c, st, ev, taken).state.downgrade && Turn(c, st, ev, taken).state.fast == st.fast
    ensures Turn(c, st, ev, taken).state.highest >= st.highest
  {
  }

  /** Once downgraded, a session stays so, and not one more bit is charged to the fast
      limiter, whatever follows; the published peak never falls. */
  lemma {:induction false} DowngradeIsFinal(c: Config, events: seq<Event>, k: nat)
    requires k <= |events|
    ensures var early, late := Run(c, events[..k]).state, Run(c, events).state;
      (early.downgrade ==> late.downgrade && late.fast == early.fast) && late.highest >= early.highest
    decreases |events|
  {
    if k == |events| {
      assert events[..k] == events;
    } else {
      var n := |events| - 1;
      assert events[..n][..k] == events[..k];
      DowngradeIsFinal(c, events[..n], k);
      TurnLatch(c, Run(c, events[..n]).state, events[n], |events|);
    }
  }

  // ----- when a session ends -----

  /** The session goes on after this wake-up: no side has closed, bytes came within thirty
      seconds, a chunk that was not empty was sent on, and no sample fell due while the
      address was on the block list. */
  predicate GoesOn(ev: Event) {
    && !ev.Closed?
    && (ev.Tick? ==> ev.idleSecs <= 30)
    && (ev.Received? && ev.bytes != [] ==> ev.sent)
    && (ev.Received? || ev.Tick? ==> !(ev.env.sinceSample >= 1000 && ev.env.blocked))
  }

  /** Why it ends otherwise. */
  ghost predicate EndsWith(ev: Event, end: End) {
    match end
    case PeerGone => ev.Closed?
    case TimedOut => ev.Tick? && ev.idleSecs > 30
    case SendFailed => ev.Received? && ev.bytes != [] && !ev.sent
    case Blocked =>
      && ((ev.Tick? && ev.idleSecs <= 30) || (ev.Received? && (ev.bytes == [] || ev.sent)))
      && ev.env.sinceSample >= 1000 && ev.env.blocked
  }

  lemma TurnGoesOnIff(c: Config, st: State, ev: Event, taken: nat)
    ensures var r := Turn(c, st, ev, taken);
      (r.end.None? <==> GoesOn(ev)) && (r.end.Some? ==> EndsWith(ev, r.end.value)) && r.taken == taken
  {
  }

  /** A session takes the wake-ups up to the first after which it does not go on, ends there
      for that wake-up's reason, and otherwise takes them all. */
  lemma {:induction false} EndsAtFirst(c: Config, events: seq<Event>)
    ensures var r := Run(c, events);
      && r.taken <= |events|
      && (forall k :: 0 <= k < r.taken && (r.end.None? || k < r.taken - 1) ==> GoesOn(events[k]))
      && (r.end.None? ==> r.taken == |events|)
      && (r.end.Some? ==> r.taken > 0 && !GoesOn(events[r.taken - 1]) && EndsWith(events[r.taken - 1], r.end.value))
    decreases |events|
  {
    if events != [] {
      var n := |events| - 1;
      var prior := events[..n];
      EndsAtFirst(c, prior);
      assert forall k :: 0 <= k < n ==> prior[k] == events[k];
      TurnGoesOnIff(c, Run(c, prior).state, events[n], |events|);
    }
  }

  // ----- what is published and charged -----

  /** The bits of both sides. */
  function BitsOf(used: seq<Event>): nat {
    8 * (|BytesFrom(used, Peer)| + |BytesFrom(used, Stream)|)
  }

  /** A sample falls due at this wake-up. */
  predicate Samples(ev: Event) {
    GoesOn(ev) && ev.env.sinceSample >= 1000
  }

  function LastTotal(samples: seq<Sample>): nat { if samples == [] then 0 else samples[|samples| - 1].total }
  function LastElapsed(samples: seq<Sample>): nat { if samples == [] then 0 else samples[|samples| - 1].elapsed }
  function LastHighest(samples: seq<Sample>): nat { if samples == [] then 0 else samples[|samples| - 1].highest }

  /** The sample that falls due when so many bits have come. */
  function NextSample(before: seq<Sample>, bits: nat, env: Env): Sample
    requires env.sinceSample > 0
  {
    var speed := (if bits >= LastTotal(before) then bits - LastTotal(before) else 0) / env.sinceSample;
    Sample(LastElapsed(before) + env.sinceSample, bits, Max(LastHighest(before), speed), speed, env.startCheck)
  }

  /** What should be published of the wake-ups taken so far: whenever a sample falls due,
      the time and the bits since the session began, the speed since the sample before,
      and the highest of all speeds so far. */
  function Report(used: seq<Event>): seq<Sample>
    decreases |used|
  {
    if used == [] then []
    else
      var before, ev := Report(used[..|used| - 1]), used[|used| - 1];
      if !Samples(ev) then before
      else before + [NextSample(before, BitsOf(used), ev.env)]
  }

  /** Whether the last sample found the address on the black list. */
  function LastBlacked(used: seq<Event>): bool
    decreases |used|
  {
    used != [] && if Samples(used[|used| - 1]) then used[|used| - 1].env.blacked else LastBlacked(used[..|used| - 1])
  }

  ghost predicate Published(used: seq<Event>, st: State) {
    && st.samples == Report(used) && st.total == BitsOf(used) && st.blacked == LastBlacked(used)
    && st.elapsed == LastElapsed(st.samples) && st.highest == LastHighest(st.samples)
    && st.totalS + LastTotal(st.samples) == st.total
  }

  lemma BitsAppend(used: seq<Event>, ev: Event)
    ensures BitsOf(used + [ev]) == BitsOf(used) + (if ev.Received? then 8 * |ev.bytes| else 0)
  {
    BytesAppend(used, ev, Peer);
    BytesAppend(used, ev, Stream);
  }

  lemma ReportAppend(used: seq<Event>, ev: Event)
    ensures !Samples(ev) ==> Report(used + [ev]) == Report(used) && LastBlacked(used + [ev]) == LastBlacked(used)
    ensures Samples(ev) ==> LastBlacked(used + [ev]) == ev.env.blacked
    ensures Samples(ev) ==> Report(used + [ev]) == Report(used) + [NextSample(Report(used), BitsOf(used + [ev]), ev.env)]
  {
    assert (used + [ev])[..|used|] == used;
  }

  /** The running totals after the bytes of the wake-up and before the sample. */
  ghost predicate Running(used: seq<Event>, ev: Event, st: State) {
    && st.samples == Report(used) && st.total == BitsOf(used + [ev]) && st.blacked == LastBlacked(used)
    && st.elapsed == LastElapsed(st.samples) && st.highest == LastHighest(st.samples)
    && st.totalS + LastTotal(st.samples) == st.total
  }

  lemma SamplePublished(c: Config, used: seq<Event>, ev: Event, st: State)
    requires Running(used, ev, st) && Samples(ev)
    ensures Published(used + [ev], TakeSample(c, st, ev.env))
  {
    ReportAppend(used, ev);
  }

  lemma TurnPublished(c: Config, used: seq<Event>, st: State, ev: Event, taken: nat)
    requires Published(used, st)
    ensures Published(used + [ev], Turn(c, st, ev, taken).state)
  {
    BitsAppend(used, ev);
    var st1 := if ev.Received? then Charge(st, |ev.bytes| * 8) else st;
    assert Running(used, ev, st1);
    if Samples(ev) {
      SamplePublished(c, used, ev, if ev.Received? then Forward(st1, ev.from, ev.bytes) else st1);
    } else {
      ReportAppend(used, ev);
    }
  }

  /** What a session publishes is the report of the wake-ups it took, computed from the
      bytes themselves. */
  lemma {:induction false} PublishesReport(c: Config, events: seq<Event>)
    ensures Run(c, events).taken <= |events| && Published(events[..Run(c, events).taken], Run(c, events).state)
    decreases |events|
  {
    if events != [] {
      var n := |events| - 1;
      var prior := events[..n];
      PublishesReport(c, prior);
      RunTaken(c, prior);
      Slices(events, Run(c, prior).taken);
      if Run(c, prior).end.None? {
        TurnPublished(c, prior, Run(c, prior).state, events[n], |events|);
      }
    }
  }

  lemma TurnCharges(c: Config, st: State, ev: Event, taken: nat)
    ensures var st', bits := Turn(c, st, ev, taken).state, if ev.Received? then 8 * |ev.bytes| else 0;
      var slow := st.downgrade || st.blacked;
      && st'.slow == st.slow + (if slow then bits else 0) && st'.fast == st.fast + (if slow then 0 else bits)
      && st'.shared == st.shared + bits
  {
  }

  /** Some sample was over the limit, or the last one found the address on the black list. */
  ghost predicate OnSlow(c: Config, used: seq<Event>) {
    LastBlacked(used) || exists i :: 0 <= i < |Report(used)| && OverLimit(c, Report(used)[i])
  }

  lemma SlowState(c: Config, used: seq<Event>, st: State)
    requires Published(used, st) && LatchOk(c, st)
    ensures st.downgrade || st.blacked <==> OnSlow(c, used)
  {
  }

  lemma SlowRun(c: Config, used: seq<Event>)
    requires Run(c, used).end.None?
    ensures var st := Run(c, used).state; st.downgrade || st.blacked <==> OnSlow(c, used)
  {
    RunTaken(c, used);
    PublishesReport(c, used);
    RelayAccounting(c, used);
    assert used[..|used|] == used;
    SlowState(c, used, Run(c, used).state);
  }

  /** Each chunk is charged to the slow limiter if some sample so far was over the limit or
      the last one found the address on the black list, and to the fast one otherwise. */
  lemma ChargedTo(c: Config, events: seq<Event>, k: nat)
    requires k < |events| && Run(c, events[..k]).end.None?
    ensures var st, st' := Run(c, events[..k]).state, Run(c, events[..k + 1]).state;
      var bits := if events[k].Received? then 8 * |events[k].bytes| else 0;
      && st'.slow == st.slow + (if OnSlow(c, events[..k]) then bits else 0)
      && st'.fast == st.fast + (if OnSlow(c, events[..k]) then 0 else bits)
  {
    SlowRun(c, events[..k]);
    assert events[..k + 1][..k] == events[..k];
    TurnCharges(c, Run(c, events[..k]).state, events[k], k + 1);
  }
}
