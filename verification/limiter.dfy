/** The per-address request limiter: a fixed window for requests, a daily window for
    distinct ids, in a bounded table that is pruned of expired entries. */
module IpLimiter {
  import opened Clock
  import opened Values

  type Ip = string
  type Id = string

  const IP_BLOCK_DUR: nat := 60
  const DAY_SECONDS: nat := 86_400
  const IP_REQUEST_LIMIT: nat := 30
  const IP_DISTINCT_ID_LIMIT: nat := 300

  datatype Entry = Entry(count: nat, since: Time, ids: set<Id>, day: Time)
  type Table = map<Ip, Entry>

  function NewEntry(now: Time): Entry { Entry(0, now, {}, now) }

  datatype Verdict = Verdict(entry: Entry, allowed: bool)

  function RollWindow(e: Entry, now: Time): Entry {
    if WindowExpired(now, e.since, IP_BLOCK_DUR) then e.(count := 0, since := now) else e
  }

  function RollDay(e: Entry, now: Time): Entry {
    if WindowExpired(now, e.day, DAY_SECONDS) then e.(ids := {}, day := now) else e
  }

  /** What happens to the entry of the asking address. */
  function Admit(e: Entry, id: Id, now: Time): Verdict {
    var w := RollWindow(e, now);
    if w.count >= IP_REQUEST_LIMIT then Verdict(w, false)
    else
      var d := RollDay(w.(count := w.count + 1), now);
      if id in d.ids then Verdict(d, true)
      else if |d.ids| >= IP_DISTINCT_ID_LIMIT then Verdict(d, false)
      else Verdict(d.(ids := d.ids + {id}), true)
  }

  /** Both windows of the entry have run out. */
  predicate Stale(e: Entry, now: Time) {
    WindowExpired(now, e.since, IP_BLOCK_DUR) && WindowExpired(now, e.day, DAY_SECONDS)
  }

  /** Every entry has a window that is still running: less than a minute or a day old. */
  ghost predicate AllRunning(t: Table, now: Time) {
    forall ip :: ip in t ==> now < t[ip].since + 60 * SEC || now < t[ip].day + 86_400 * SEC
  }

  function Prune(t: Table, now: Time): Table {
    map ip | ip in t && !Stale(t[ip], now) :: t[ip]
  }

  datatype Answer = Full | Answered(allowed: bool)
  datatype Outcome = Outcome(table: Table, answer: Answer)

  function AdmitIn(t: Table, ip: Ip, id: Id, now: Time): Outcome {
    var v := Admit(if ip in t then t[ip] else NewEntry(now), id, now);
    Outcome(t[ip := v.entry], Answered(v.allowed))
  }

  /** `allow_ip_request_in`. */
  function Allow(t: Table, ip: Ip, id: Id, now: Time, cap: nat): Outcome {
    if ip in t then AdmitIn(t, ip, id, now)
    else
      var p := if |t| >= cap then Prune(t, now) else t;
      if |p| >= cap then Outcome(p, Full) else AdmitIn(p, ip, id, now)
  }

  // ----- the limiter that never forgets -----

  /** The pruned table stands for the unpruned one: entries agree, and what is missing
      has run out in both windows. */
  ghost predicate Represents(t: Table, all: Table, now: Time) {
    && (forall ip :: ip in t ==> ip in all && all[ip] == t[ip])
    && (forall ip :: ip in all && ip !in t ==> Stale(all[ip], now))
  }

  lemma StaleStays(e: Entry, at: Time, now: Time)
    requires Stale(e, at) && at <= now
    ensures Stale(e, now)
  {
  }

  lemma RepresentsLater(t: Table, all: Table, at: Time, now: Time)
    requires Represents(t, all, at) && at <= now
    ensures Represents(t, all, now)
  {
    forall ip | ip in all && ip !in t ensures Stale(all[ip], now) {
      StaleStays(all[ip], at, now);
    }
  }

  /** A run-out entry treats the next request as a new entry would. */
  lemma StaleActsNew(e: Entry, id: Id, now: Time)
    requires Stale(e, now)
    ensures Admit(e, id, now) == Admit(NewEntry(now), id, now)
  {
  }

  /** Pruning, even with a clock read earlier, forgets nothing that matters. */
  lemma PruneRepresents(t: Table, all: Table, at: Time, now: Time)
    requires Represents(t, all, now) && at <= now
    ensures Represents(Prune(t, at), all, now)
  {
    forall ip | ip in all && ip !in Prune(t, at) ensures Stale(all[ip], now) {
      if ip in t {
        StaleStays(t[ip], at, now);
      }
    }
  }

  lemma AdmitAgrees(t: Table, all: Table, ip: Ip, id: Id, now: Time)
    requires Represents(t, all, now)
    ensures AdmitIn(t, ip, id, now).answer == AdmitIn(all, ip, id, now).answer
    ensures Represents(AdmitIn(t, ip, id, now).table, AdmitIn(all, ip, id, now).table, now)
  {
    if ip in all && ip !in t {
      StaleActsNew(all[ip], id, now);
    }
  }

  /** A request that is not refused for lack of room is answered as by the limiter that
      never prunes; a refusal means a full table in which every entry has a window
      that is still running. */
  lemma AllowAgrees(t: Table, all: Table, ip: Ip, id: Id, now: Time, cap: nat)
    requires Represents(t, all, now)
    ensures var o := Allow(t, ip, id, now, cap);
      if o.answer.Full?
      then |o.table| >= cap && ip !in o.table && AllRunning(o.table, now) && Represents(o.table, all, now)
      else o.answer == AdmitIn(all, ip, id, now).answer && Represents(o.table, AdmitIn(all, ip, id, now).table, now)
  {
    if ip in t {
      AdmitAgrees(t, all, ip, id, now);
    } else {
      PruneRepresents(t, all, now, now);
      AdmitAgrees(Prune(t, now), all, ip, id, now);
      AdmitAgrees(t, all, ip, id, now);
    }
  }

  // ----- runs -----

  /** A request that was not refused for lack of room, and its answer. */
  datatype Asked = Asked(ip: Ip, id: Id, at: Time, allowed: bool)

  /** `all` is the limiter that never prunes, fed with the same requests except those
      refused for lack of room; `log` lists them with their answers. */
  datatype State = State(now: Time, cap: nat, table: Table, all: Table, log: seq<Asked>)

  datatype Step =
    | Ask(ip: Ip, id: Id, at: Time)
    | Cleanup(readAt: Time, at: Time)

  predicate Enabled(s: State, step: Step) {
    match step
    case Ask(_, _, at) => s.now <= at
    case Cleanup(readAt, at) => s.now <= at && readAt <= at
  }

  function Reply(s: State, step: Step): Answer
    requires step.Ask?
  {
    Allow(s.table, step.ip, step.id, step.at, s.cap).answer
  }

  function Apply(s: State, step: Step): State
    requires Enabled(s, step)
  {
    match step
    case Ask(ip, id, at) =>
      var o := Allow(s.table, ip, id, at, s.cap);
      if o.answer.Full? then s.(now := at, table := o.table)
      else State(at, s.cap, o.table, AdmitIn(s.all, ip, id, at).table, s.log + [Asked(ip, id, at, o.answer.allowed)])
    case Cleanup(readAt, at) => s.(now := at, table := Prune(s.table, readAt))
  }

  ghost predicate StepAt(run: seq<State>, steps: seq<Step>, i: nat)
    requires |run| == |steps| + 1 && i < |steps|
  {
    Enabled(run[i], steps[i]) && run[i + 1] == Apply(run[i], steps[i])
  }

  ghost predicate IsRun(run: seq<State>, steps: seq<Step>) {
    && |run| == |steps| + 1
    && run[0].table == map[] && run[0].all == map[] && run[0].log == []
    && forall i: nat {:trigger StepAt(run, steps, i)} :: i < |steps| ==> StepAt(run, steps, i)
  }

  lemma {:induction false} RunRepresents(run: seq<State>, steps: seq<Step>, i: nat)
    requires IsRun(run, steps) && i < |run|
    ensures Represents(run[i].table, run[i].all, run[i].now)
  {
    if i > 0 {
      RunRepresents(run, steps, i - 1);
      var s, step := run[i - 1], steps[i - 1];
      assert StepAt(run, steps, i - 1);
      RepresentsLater(s.table, s.all, s.now, step.at);
      match step
      case Ask(ip, id, at) => AllowAgrees(s.table, s.all, ip, id, at, s.cap);
      case Cleanup(readAt, at) => PruneRepresents(s.table, s.all, readAt, at);
    }
  }

  /** Over any run pruning is unobservable: each request not refused for lack of room
      gets the answer of the limiter that never prunes, and a request refused for lack
      of room meets a full table without any run-out entry. */
  lemma PruningIsUnobservable(run: seq<State>, steps: seq<Step>, i: nat)
    requires IsRun(run, steps) && i < |steps| && steps[i].Ask?
    ensures var s, step, a := run[i], steps[i], Reply(run[i], steps[i]);
      if a.Full?
      then |run[i + 1].table| >= s.cap && AllRunning(run[i + 1].table, step.at)
      else a == AdmitIn(s.all, step.ip, step.id, step.at).answer
  {
    RunRepresents(run, steps, i);
    assert StepAt(run, steps, i);
    RepresentsLater(run[i].table, run[i].all, run[i].now, steps[i].at);
    AllowAgrees(run[i].table, run[i].all, steps[i].ip, steps[i].id, steps[i].at, run[i].cap);
  }

  /** The table never outgrows its bound. */
  lemma {:induction false} TableIsBounded(run: seq<State>, steps: seq<Step>, i: nat)
    requires IsRun(run, steps) && i < |run|
    ensures |run[i].table| <= run[i].cap
  {
    if i > 0 {
      TableIsBounded(run, steps, i - 1);
      assert StepAt(run, steps, i - 1);
      var s := run[i - 1];
      forall at { SubsetSize(Prune(s.table, at).Keys, s.table.Keys); }
    }
  }

  // ----- the table as the server changes it under its lock -----

  /** The asking address's entry, changed step by step. */
  method AdmitEntry(e: Entry, id: Id, now: Time) returns (entry: Entry, allowed: bool)
    ensures Verdict(entry, allowed) == Admit(e, id, now)
  {
    entry := e;
    if WindowExpired(now, entry.since, IP_BLOCK_DUR) {
      entry := entry.(count := 0, since := now);
    }
    if entry.count >= IP_REQUEST_LIMIT {
      return entry, false;
    }
    entry := entry.(count := entry.count + 1);
    if WindowExpired(now, entry.day, DAY_SECONDS) {
      entry := entry.(ids := {}, day := now);
    }
    if id !in entry.ids {
      if |entry.ids| >= IP_DISTINCT_ID_LIMIT {
        return entry, false;
      }
      entry := entry.(ids := entry.ids + {id});
    }
    allowed := true;
  }

  function StaleIps(t: Table, now: Time): set<Ip> {
    set ip | ip in t && Stale(t[ip], now)
  }

  lemma PruneSize(t: Table, now: Time)
    ensures |Prune(t, now)| + |StaleIps(t, now)| == |t|
  {
    var kept, gone := Prune(t, now).Keys, StaleIps(t, now);
    assert t.Keys == kept + gone && kept !! gone;
  }

  class IpBlocker {
    var blockers: Table

    /** `allow_ip_request_in`, with room for `maxTracked` addresses. */
    method AllowRequest(ip: Ip, id: Id, now: Time, maxTracked: nat) returns (allowed: bool)
      modifies this
      ensures blockers == Allow(old(blockers), ip, id, now, maxTracked).table
      ensures allowed <==> Allow(old(blockers), ip, id, now, maxTracked).answer == Answered(true)
    {
      if ip !in blockers {
        if |blockers| >= maxTracked {
          blockers := Prune(blockers, now);
        }
        if |blockers| >= maxTracked {
          return false;
        }
        blockers := blockers[ip := NewEntry(now)];
      }
      var entry: Entry;
      entry, allowed := AdmitEntry(blockers[ip], id, now);
      blockers := blockers[ip := entry];
    }

    /** The blocker half of `cleanup_transient_state`; the clock was read before the lock.
        An entry stays if and only if one of its windows was running then, the others
        are counted, and the table still stands for whatever it stood for. */
    method CleanUp(readAt: Time) returns (removed: nat)
      modifies this
      ensures forall ip :: ip in blockers <==>
        && ip in old(blockers)
        && (readAt < old(blockers)[ip].since + 60 * SEC || readAt < old(blockers)[ip].day + 86_400 * SEC)
      ensures forall ip :: ip in blockers ==> blockers[ip] == old(blockers)[ip]
      ensures removed == |StaleIps(old(blockers), readAt)|
      ensures forall all, now: Time :: Represents(old(blockers), all, now) && readAt <= now ==> Represents(blockers, all, now)
    {
      var before := |blockers|;
      PruneSize(blockers, readAt);
      forall all, now: Time | Represents(blockers, all, now) && readAt <= now
        ensures Represents(Prune(blockers, readAt), all, now)
      {
        PruneRepresents(blockers, all, readAt, now);
      }
      blockers := Prune(blockers, readAt);
      removed := before - |blockers|;
    }
  }
}
