/** The other half of the limiter's promise: it refuses only addresses that asked for it. */
module IpLimiterFair {
  import opened Clock
  import opened IpLimiter

  /** How often an address asked since some time. */
  ghost function Asks(log: seq<Asked>, ip: Ip, since: Time): nat {
    if log == [] then 0
    else
      var x := log[|log| - 1];
      Asks(log[..|log| - 1], ip, since) + (if x.ip == ip && x.at >= since then 1 else 0)
  }

  /** The ids it had admitted since then. */
  ghost function AdmittedIds(log: seq<Asked>, ip: Ip, since: Time): set<Id> {
    set i: nat | i < |log| && log[i].ip == ip && log[i].at >= since && log[i].allowed :: log[i].id
  }

  lemma AsksAppend(log: seq<Asked>, x: Asked, ip: Ip, since: Time)
    ensures Asks(log + [x], ip, since) == Asks(log, ip, since) + (if x.ip == ip && x.at >= since then 1 else 0)
  {
    assert (log + [x])[..|log|] == log;
  }

  lemma IdsAppend(log: seq<Asked>, x: Asked, ip: Ip, since: Time)
    ensures AdmittedIds(log + [x], ip, since) ==
      AdmittedIds(log, ip, since) + (if x.ip == ip && x.at >= since && x.allowed then {x.id} else {})
  {
    var log' := log + [x];
    forall id | id in AdmittedIds(log, ip, since) ensures id in AdmittedIds(log', ip, since) {
      var i: nat :| i < |log| && log[i].ip == ip && log[i].at >= since && log[i].allowed && log[i].id == id;
      assert log'[i] == log[i];
    }
    assert log'[|log|] == x;
  }

  /** All the requests of the address, and all the admitted ones, came before these times. */
  ghost predicate Before(log: seq<Asked>, ip: Ip, asked: Time, admitted: Time) {
    forall i: nat :: i < |log| && log[i].ip == ip ==> log[i].at < asked && (log[i].allowed ==> log[i].at < admitted)
  }

  lemma {:induction false} NoAsks(log: seq<Asked>, ip: Ip, since: Time, admitted: Time)
    requires Before(log, ip, since, admitted)
    ensures Asks(log, ip, since) == 0
  {
    if log != [] {
      assert Before(log[..|log| - 1], ip, since, admitted);
      NoAsks(log[..|log| - 1], ip, since, admitted);
    }
  }

  /** An entry is exactly what its address has asked: its count is the requests since its
      window began, up to thirty, its ids are those admitted since its day began, and
      all of them fell into the window and the day. */
  ghost predicate Exact(e: Entry, log: seq<Asked>, ip: Ip, now: Time) {
    && e.since <= now && e.day <= now
    && e.count == (if Asks(log, ip, e.since) < 30 then Asks(log, ip, e.since) else 30)
    && e.ids == AdmittedIds(log, ip, e.day)
    && Before(log, ip, e.since + 60 * SEC, e.day + 86_400 * SEC)
  }

  lemma RollWindowExact(e: Entry, log: seq<Asked>, ip: Ip, now: Time)
    requires Exact(e, log, ip, now)
    ensures Exact(RollWindow(e, now), log, ip, now) && now < RollWindow(e, now).since + 60 * SEC
  {
    if WindowExpired(now, e.since, IP_BLOCK_DUR) {
      NoAsks(log, ip, now, e.day + 86_400 * SEC);
    }
  }

  lemma RollDayExact(e: Entry, log: seq<Asked>, ip: Ip, now: Time)
    requires Exact(e, log, ip, now)
    ensures Exact(RollDay(e, now), log, ip, now) && now < RollDay(e, now).day + 86_400 * SEC
  {
    if WindowExpired(now, e.day, DAY_SECONDS) {
      assert AdmittedIds(log, ip, now) == {};
    }
  }

  /** Logging a request keeps the entry exact if it is counted up to thirty, and its id
      is remembered exactly if it was admitted. */
  lemma LogExact(e: Entry, log: seq<Asked>, ip: Ip, x: Asked, e': Entry)
    requires Exact(e, log, ip, x.at) && x.ip == ip && x.at < e.since + 60 * SEC
    requires x.allowed ==> x.at < e.day + 86_400 * SEC
    requires e' == e.(count := if e.count < 30 then e.count + 1 else 30, ids := if x.allowed then e.ids + {x.id} else e.ids)
    ensures Exact(e', log + [x], ip, x.at)
  {
    AsksAppend(log, x, ip, e.since);
    IdsAppend(log, x, ip, e.day);
    forall i: nat | i < |log + [x]| && (log + [x])[i].ip == ip
      ensures (log + [x])[i].at < e.since + 60 * SEC && ((log + [x])[i].allowed ==> (log + [x])[i].at < e.day + 86_400 * SEC)
    {
      assert i < |log| ==> (log + [x])[i] == log[i];
    }
  }

  /** The answer by what was asked: fewer than thirty requests in the running window, and
      the id admitted already, or fewer than three hundred ids, in the running day. */
  ghost predicate Deserved(e: Entry, log: seq<Asked>, ip: Ip, id: Id, at: Time) {
    && (at >= e.since + 60 * SEC || Asks(log, ip, e.since) < 30)
    && (at >= e.day + 86_400 * SEC || id in AdmittedIds(log, ip, e.day) || |AdmittedIds(log, ip, e.day)| < 300)
  }

  lemma AnswerIsDeserved(e: Entry, log: seq<Asked>, ip: Ip, id: Id, at: Time)
    requires Exact(e, log, ip, at)
    ensures Admit(e, id, at).allowed <==> Deserved(e, log, ip, id, at)
  {
    RollWindowExact(e, log, ip, at);
  }

  lemma AskExact(e: Entry, log: seq<Asked>, ip: Ip, id: Id, at: Time)
    requires Exact(e, log, ip, at)
    ensures var v := Admit(e, id, at); Exact(v.entry, log + [Asked(ip, id, at, v.allowed)], ip, at)
  {
    var v, w := Admit(e, id, at), RollWindow(e, at);
    var x := Asked(ip, id, at, v.allowed);
    RollWindowExact(e, log, ip, at);
    if w.count >= IP_REQUEST_LIMIT {
      LogExact(w, log, ip, x, v.entry);
    } else {
      RollDayExact(w, log, ip, at);
      CountThenRoll(w, at);
      assert v.allowed && id in RollDay(w, at).ids ==> RollDay(w, at).ids + {id} == RollDay(w, at).ids;
      LogExact(RollDay(w, at), log, ip, x, v.entry);
    }
  }

  lemma CountThenRoll(w: Entry, at: Time)
    ensures RollDay(w.(count := w.count + 1), at) == RollDay(w, at).(count := w.count + 1)
  {
  }

  lemma NewExact(log: seq<Asked>, ip: Ip, at: Time)
    requires forall i: nat :: i < |log| ==> log[i].ip != ip
    ensures Exact(NewEntry(at), log, ip, at)
  {
    NoAsks(log, ip, at, at);
    assert AdmittedIds(log, ip, at) == {};
  }

  lemma OtherExact(e: Entry, log: seq<Asked>, ip: Ip, x: Asked, now: Time)
    requires Exact(e, log, ip, now) && now <= x.at && x.ip != ip
    ensures Exact(e, log + [x], ip, x.at)
  {
    AsksAppend(log, x, ip, e.since);
    IdsAppend(log, x, ip, e.day);
    forall i: nat | i < |log + [x]| && (log + [x])[i].ip == ip
      ensures (log + [x])[i].at < e.since + 60 * SEC && ((log + [x])[i].allowed ==> (log + [x])[i].at < e.day + 86_400 * SEC)
    {
      assert i < |log| ==> (log + [x])[i] == log[i];
    }
  }

  ghost predicate FairInv(s: State, ip: Ip) {
    if ip in s.all then Exact(s.all[ip], s.log, ip, s.now) else forall i: nat :: i < |s.log| ==> s.log[i].ip != ip
  }

  lemma FairAsk(s: State, s': State, ip: Ip, id: Id, at: Time)
    requires FairInv(s, ip) && s.now <= at && s'.now == at && s'.all == AdmitIn(s.all, ip, id, at).table
    requires s'.log == s.log + [Asked(ip, id, at, AdmitIn(s.all, ip, id, at).answer.allowed)]
    ensures FairInv(s', ip)
  {
    if ip !in s.all {
      NewExact(s.log, ip, at);
    }
    AskExact(if ip in s.all then s.all[ip] else NewEntry(at), s.log, ip, id, at);
  }

  lemma FairOther(s: State, s': State, ip: Ip, x: Asked, e: Entry)
    requires FairInv(s, ip) && s.now <= x.at && x.ip != ip && s'.now == x.at
    requires s'.all == s.all[x.ip := e] && s'.log == s.log + [x]
    ensures FairInv(s', ip)
  {
    if ip in s.all {
      OtherExact(s.all[ip], s.log, ip, x, s.now);
    }
  }

  lemma FairAt(run: seq<State>, steps: seq<Step>, k: nat, ip: Ip)
    requires IsRun(run, steps) && k < |steps| && FairInv(run[k], ip)
    ensures FairInv(run[k + 1], ip)
  {
    assert StepAt(run, steps, k);
    var s, step := run[k], steps[k];
    if step.Ask? && !Reply(s, step).Full? {
      PruningIsUnobservable(run, steps, k);
      if step.ip == ip {
        FairAsk(s, run[k + 1], ip, step.id, step.at);
      } else {
        FairOther(s, run[k + 1], ip, Asked(step.ip, step.id, step.at, Reply(s, step).allowed), run[k + 1].all[step.ip]);
      }
    }
  }

  lemma {:induction false} RunFair(run: seq<State>, steps: seq<Step>, i: nat, ip: Ip)
    requires IsRun(run, steps) && i < |run|
    ensures FairInv(run[i], ip)
  {
    if i > 0 {
      RunFair(run, steps, i - 1, ip);
      FairAt(run, steps, i - 1, ip);
    }
  }

  /** Every request that is not refused for lack of room is answered by what its address has
      asked: allowed at once if it never did, and otherwise if and only if it asked fewer
      than thirty times since its running window began, and the id was admitted, or fewer
      than three hundred were, since its running day began. */
  lemma AnsweredByHistory(run: seq<State>, steps: seq<Step>, i: nat)
    requires IsRun(run, steps) && i < |steps| && steps[i].Ask? && !Reply(run[i], steps[i]).Full?
    ensures var s, ip := run[i], steps[i].ip;
      if ip in s.all
      then Exact(s.all[ip], s.log, ip, s.now)
           && (Reply(s, steps[i]).allowed <==> Deserved(s.all[ip], s.log, ip, steps[i].id, steps[i].at))
      else (forall k: nat :: k < |s.log| ==> s.log[k].ip != ip) && Reply(s, steps[i]).allowed
  {
    PruningIsUnobservable(run, steps, i);
    assert StepAt(run, steps, i);
    var s, ip := run[i], steps[i].ip;
    RunFair(run, steps, i, ip);
    if ip in s.all {
      AnswerIsDeserved(s.all[ip], s.log, ip, steps[i].id, steps[i].at);
    }
  }

  /** An address is refused, other than for lack of room, only if it asked at least 30
      times in the last minute or had at least 300 ids admitted in the last day. */
  lemma RefusalIsEarned(run: seq<State>, steps: seq<Step>, i: nat)
    requires IsRun(run, steps) && i < |steps| && steps[i].Ask? && Reply(run[i], steps[i]) == Answered(false)
    ensures var log, ip, at := run[i].log, steps[i].ip, steps[i].at;
      || (exists a: nat :: a <= at < a + 60 * SEC && Asks(log, ip, a) >= 30)
      || (exists d: nat :: d <= at < d + 86_400 * SEC && |AdmittedIds(log, ip, d)| >= 300)
  {
    AnsweredByHistory(run, steps, i);
    assert StepAt(run, steps, i);
    var log, ip, at := run[i].log, steps[i].ip, steps[i].at;
    var e := run[i].all[ip];
    assert e.since <= at && e.day <= at;
    if at < e.since + 60 * SEC && Asks(log, ip, e.since) >= 30 {
      assert exists a: nat :: a <= at < a + 60 * SEC && Asks(log, ip, a) >= 30;
    } else {
      assert at < e.day + 86_400 * SEC && |AdmittedIds(log, ip, e.day)| >= 300;
    }
  }
}
