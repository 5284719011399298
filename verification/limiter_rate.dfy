/** How much the limiter lets through in any interval, over whole runs. */
module IpLimiterRate {
  import opened Clock
  import opened IpLimiter
  import opened Values

  /** The length of a request window and of a day, in clock units. */
  const WINDOW: nat := 60_000_000_000
  const DAY: nat := 86_400_000_000_000

  /** Division rounded up. */
  function Ceil(x: nat, w: nat): nat
    requires w > 0
  {
    (x + w - 1) / w
  }

  lemma CeilMonotone(x: nat, y: nat)
    requires x <= y
    ensures Ceil(x, WINDOW) <= Ceil(y, WINDOW) && Ceil(x, DAY) <= Ceil(y, DAY)
  {
  }

  lemma CeilNextWindow(x: nat, y: nat)
    requires y >= x + WINDOW
    ensures Ceil(y, WINDOW) >= Ceil(x, WINDOW) + 1
  {
  }

  lemma CeilNextDay(x: nat, y: nat)
    requires y >= x + DAY
    ensures Ceil(y, DAY) >= Ceil(x, DAY) + 1
  {
  }

  // ----- what was admitted -----

  ghost predicate Hit(e: Asked, ip: Ip, a: Time, b: Time) {
    e.allowed && e.ip == ip && a <= e.at <= b
  }

  /** Requests of one address admitted in [a, b]. */
  ghost function CountIn(log: seq<Asked>, ip: Ip, a: Time, b: Time): nat {
    if log == [] then 0
    else CountIn(log[..|log| - 1], ip, a, b) + (if Hit(log[|log| - 1], ip, a, b) then 1 else 0)
  }

  /** Distinct ids one address had admitted in [a, b]. */
  ghost function IdsIn(log: seq<Asked>, ip: Ip, a: Time, b: Time): set<Id> {
    set i | 0 <= i < |log| && Hit(log[i], ip, a, b) :: log[i].id
  }

  lemma CountAppend(log: seq<Asked>, e: Asked, ip: Ip, a: Time, b: Time)
    ensures CountIn(log + [e], ip, a, b) == CountIn(log, ip, a, b) + (if Hit(e, ip, a, b) then 1 else 0)
  {
    assert (log + [e])[..|log|] == log;
  }

  lemma IdsAppend(log: seq<Asked>, e: Asked, ip: Ip, a: Time, b: Time)
    ensures IdsIn(log + [e], ip, a, b) == IdsIn(log, ip, a, b) + (if Hit(e, ip, a, b) then {e.id} else {})
  {
    var log' := log + [e];
    forall x | x in IdsIn(log, ip, a, b) ensures x in IdsIn(log', ip, a, b) {
      var i :| 0 <= i < |log| && Hit(log[i], ip, a, b) && log[i].id == x;
      assert log'[i] == log[i];
    }
    if Hit(e, ip, a, b) {
      assert log'[|log|] == e;
    }
  }

  // ----- requests -----

  /** `n` requests were admitted at or after `a`, seen from the entry's current window. */
  ghost predicate CountOk(e: Entry, a: Time, n: nat) {
    && e.count <= IP_REQUEST_LIMIT
    && (e.since + WINDOW <= a ==> n == 0)
    && (e.since <= a ==> n <= e.count)
    && (a < e.since ==> n <= e.count + IP_REQUEST_LIMIT * Ceil(e.since - a, WINDOW))
  }

  lemma RollCount(e: Entry, a: Time, n: nat, now: Time)
    requires CountOk(e, a, n)
    ensures CountOk(RollWindow(e, now), a, n)
    ensures !WindowExpired(now, RollWindow(e, now).since, IP_BLOCK_DUR)
  {
    if WindowExpired(now, e.since, IP_BLOCK_DUR) && a < now {
      if a < e.since {
        CeilNextWindow(e.since - a, now - a);
      } else {
        CeilMonotone(1, now - a);
      }
    }
  }

  lemma AdmitCount(e: Entry, a: Time, n: nat, id: Id, now: Time)
    requires CountOk(e, a, n)
    ensures var v := Admit(e, id, now);
      CountOk(v.entry, a, if v.allowed && a <= now then n + 1 else n)
  {
    RollCount(e, a, n, now);
  }

  // ----- distinct ids -----

  ghost predicate IdsOk(e: Entry, a: Time, ids: set<Id>) {
    && |e.ids| <= IP_DISTINCT_ID_LIMIT
    && (e.day + DAY <= a ==> ids == {})
    && (e.day <= a ==> ids <= e.ids)
    && (a < e.day ==> |ids - e.ids| <= IP_DISTINCT_ID_LIMIT * Ceil(e.day - a, DAY))
  }

  lemma SplitSize(ids: set<Id>, inner: set<Id>)
    ensures |ids| <= |ids - inner| + |inner|
  {
    assert ids == (ids - inner) + (ids * inner);
    SubsetSize(ids * inner, inner);
  }

  lemma RollIds(e: Entry, a: Time, ids: set<Id>, now: Time)
    requires IdsOk(e, a, ids)
    ensures IdsOk(RollDay(e, now), a, ids)
    ensures !WindowExpired(now, RollDay(e, now).day, DAY_SECONDS)
  {
    if WindowExpired(now, e.day, DAY_SECONDS) && a < now {
      SplitSize(ids, e.ids);
      if a < e.day {
        CeilNextDay(e.day - a, now - a);
      } else {
        SubsetSize(ids, e.ids);
        CeilMonotone(1, now - a);
      }
    }
  }

  lemma AddId(d: Entry, a: Time, ids: set<Id>, id: Id, now: Time)
    requires IdsOk(d, a, ids) && !WindowExpired(now, d.day, DAY_SECONDS) && |d.ids + {id}| <= IP_DISTINCT_ID_LIMIT
    ensures IdsOk(d.(ids := d.ids + {id}), a, if a <= now then ids + {id} else ids)
  {
    SubsetSize((ids + {id}) - (d.ids + {id}), ids - d.ids);
    SubsetSize(ids - (d.ids + {id}), ids - d.ids);
  }

  /** The part of a request that concerns ids. */
  function AdmitId(d: Entry, id: Id): Verdict {
    if id in d.ids then Verdict(d, true)
    else if |d.ids| >= IP_DISTINCT_ID_LIMIT then Verdict(d, false)
    else Verdict(d.(ids := d.ids + {id}), true)
  }

  lemma AdmitIdOk(d: Entry, a: Time, ids: set<Id>, id: Id, now: Time)
    requires IdsOk(d, a, ids) && !WindowExpired(now, d.day, DAY_SECONDS)
    ensures IdsOk(AdmitId(d, id).entry, a, if AdmitId(d, id).allowed && a <= now then ids + {id} else ids)
  {
    if AdmitId(d, id).allowed {
      assert id in d.ids ==> d.ids + {id} == d.ids;
      AddId(d, a, ids, id, now);
    }
  }

  lemma AdmitIsAdmitId(e: Entry, id: Id, now: Time)
    requires RollWindow(e, now).count < IP_REQUEST_LIMIT
    ensures var w := RollWindow(e, now); Admit(e, id, now) == AdmitId(RollDay(w.(count := w.count + 1), now), id)
  {
  }

  lemma AdmitIds(e: Entry, a: Time, ids: set<Id>, id: Id, now: Time)
    requires IdsOk(e, a, ids)
    ensures var v := Admit(e, id, now);
      IdsOk(v.entry, a, if v.allowed && a <= now then ids + {id} else ids)
  {
    var w := RollWindow(e, now);
    assert IdsOk(w, a, ids);
    if w.count < IP_REQUEST_LIMIT {
      var c := w.(count := w.count + 1);
      assert IdsOk(c, a, ids);
      RollIds(c, a, ids, now);
      AdmitIdOk(RollDay(c, now), a, ids, id, now);
      AdmitIsAdmitId(e, id, now);
    }
  }

  // ----- runs -----

  function RequestBound(a: Time, b: Time): nat
    requires a <= b
  {
    IP_REQUEST_LIMIT * (Ceil(b - a, WINDOW) + 1)
  }

  function IdBound(a: Time, b: Time): nat
    requires a <= b
  {
    IP_DISTINCT_ID_LIMIT * (Ceil(b - a, DAY) + 1)
  }

  /** Everything the bounds need to know about one address and one interval. */
  ghost predicate RateInv(s: State, ip: Ip, a: Time, b: Time)
    requires a <= b
  {
    var n, ids := CountIn(s.log, ip, a, b), IdsIn(s.log, ip, a, b);
    && n <= RequestBound(a, b) && |ids| <= IdBound(a, b)
    && if ip in s.all
       then EntryOk(s.all[ip], s.now, a, n, ids)
       else n == 0 && ids == {}
  }

  lemma CountWithin(e: Entry, a: Time, b: Time, n: nat)
    requires CountOk(e, a, n) && a <= b && e.since <= b
    ensures n <= RequestBound(a, b)
  {
    if a < e.since {
      CeilMonotone(e.since - a, b - a);
    }
  }

  lemma IdsWithin(e: Entry, a: Time, b: Time, ids: set<Id>)
    requires IdsOk(e, a, ids) && a <= b && e.day <= b
    ensures |ids| <= IdBound(a, b)
  {
    SplitSize(ids, e.ids);
    if a < e.day {
      CeilMonotone(e.day - a, b - a);
    } else {
      SubsetSize(ids, e.ids);
    }
  }

  lemma FewerIdsOk(e: Entry, a: Time, ids: set<Id>, fewer: set<Id>)
    requires IdsOk(e, a, ids) && fewer <= ids
    ensures IdsOk(e, a, fewer)
  {
    SubsetSize(fewer - e.ids, ids - e.ids);
  }

  lemma AdmitClock(e: Entry, id: Id, now: Time)
    requires e.since <= now && e.day <= now
    ensures Admit(e, id, now).entry.since <= now && Admit(e, id, now).entry.day <= now
  {
  }

  ghost predicate EntryOk(e: Entry, now: Time, a: Time, n: nat, ids: set<Id>) {
    e.since <= now && e.day <= now && CountOk(e, a, n) && IdsOk(e, a, ids)
  }

  /** The asking address's entry, where `n` and `ids` are what it had admitted in [a, b]. */
  lemma AskEntry(e: Entry, id: Id, at: Time, a: Time, b: Time, n: nat, ids: set<Id>)
    requires a <= b && EntryOk(e, at, a, n, ids) && n <= RequestBound(a, b) && |ids| <= IdBound(a, b)
    ensures var v := Admit(e, id, at);
      if v.allowed && a <= at <= b
      then EntryOk(v.entry, at, a, n + 1, ids + {id}) && n + 1 <= RequestBound(a, b) && |ids + {id}| <= IdBound(a, b)
      else EntryOk(v.entry, at, a, n, ids)
  {
    var v := Admit(e, id, at);
    AdmitCount(e, a, n, id, at);
    AdmitIds(e, a, ids, id, at);
    AdmitClock(e, id, at);
    if v.allowed && a <= at <= b {
      CountWithin(v.entry, a, b, n + 1);
      IdsWithin(v.entry, a, b, ids + {id});
    } else {
      FewerIdsOk(v.entry, a, if v.allowed && a <= at then ids + {id} else ids, ids);
    }
  }

  lemma NewEntryOk(at: Time, a: Time)
    ensures EntryOk(NewEntry(at), at, a, 0, {})
  {
    assert {} - NewEntry(at).ids == {};
  }

  /** The asking address. */
  lemma AskOwn(s: State, s': State, ip: Ip, id: Id, at: Time, a: Time, b: Time)
    requires a <= b && s.now <= at && RateInv(s, ip, a, b)
    requires s'.now == at && s'.all == AdmitIn(s.all, ip, id, at).table
    requires s'.log == s.log + [Asked(ip, id, at, AdmitIn(s.all, ip, id, at).answer.allowed)]
    ensures RateInv(s', ip, a, b)
  {
    var e := if ip in s.all then s.all[ip] else NewEntry(at);
    NewEntryOk(at, a);
    AskEntry(e, id, at, a, b, CountIn(s.log, ip, a, b), IdsIn(s.log, ip, a, b));
    CountAppend(s.log, Asked(ip, id, at, Admit(e, id, at).allowed), ip, a, b);
    IdsAppend(s.log, Asked(ip, id, at, Admit(e, id, at).allowed), ip, a, b);
  }

  lemma StepRate(s: State, step: Step, ip: Ip, a: Time, b: Time)
    requires a <= b && Enabled(s, step) && RateInv(s, ip, a, b)
    requires step.Ask? && !Reply(s, step).Full? ==> Reply(s, step) == AdmitIn(s.all, step.ip, step.id, step.at).answer
    ensures RateInv(Apply(s, step), ip, a, b)
  {
    if step.Ask? && !Reply(s, step).Full? {
      if step.ip == ip {
        AskOwn(s, Apply(s, step), ip, step.id, step.at, a, b);
      } else {
        CountAppend(s.log, Asked(step.ip, step.id, step.at, Reply(s, step).allowed), ip, a, b);
        IdsAppend(s.log, Asked(step.ip, step.id, step.at, Reply(s, step).allowed), ip, a, b);
      }
    }
  }

  lemma InitRate(s: State, ip: Ip, a: Time, b: Time)
    requires a <= b && s.all == map[] && s.log == []
    ensures RateInv(s, ip, a, b)
  {
    assert IdsIn(s.log, ip, a, b) == {};
  }

  lemma RateAt(run: seq<State>, steps: seq<Step>, k: nat, ip: Ip, a: Time, b: Time)
    requires IsRun(run, steps) && k < |steps| && a <= b && RateInv(run[k], ip, a, b)
    ensures RateInv(run[k + 1], ip, a, b)
  {
    assert StepAt(run, steps, k);
    if steps[k].Ask? {
      PruningIsUnobservable(run, steps, k);
    }
    StepRate(run[k], steps[k], ip, a, b);
  }

  lemma {:induction false} RunRate(run: seq<State>, steps: seq<Step>, i: nat, ip: Ip, a: Time, b: Time)
    requires IsRun(run, steps) && i < |run| && a <= b
    ensures RateInv(run[i], ip, a, b)
  {
    if i == 0 {
      InitRate(run[0], ip, a, b);
    } else {
      RunRate(run, steps, i - 1, ip, a, b);
      RateAt(run, steps, i - 1, ip, a, b);
    }
  }

  /** Over any run, across window resets and pruned entries, an address has at most
      30 * (ceil(T / 60 s) + 1) requests and at most 300 * (ceil(T / 1 day) + 1) distinct
      ids admitted in any interval of length T. */
  lemma RateBound(run: seq<State>, steps: seq<Step>, i: nat, ip: Ip, a: Time, b: Time)
    requires IsRun(run, steps) && i < |run| && a <= b
    ensures CountIn(run[i].log, ip, a, b) <= 30 * (Ceil(b - a, 60 * SEC) + 1)
    ensures |IdsIn(run[i].log, ip, a, b)| <= 300 * (Ceil(b - a, 86_400 * SEC) + 1)
  {
    RunRate(run, steps, i, ip, a, b);
  }
}
