/** The log of punch-hole requests: bounded, in order of time, and without a second
    entry for the same source and target among the last thirty within a minute. */
module PunchLog {
  import opened Clock

  const CAPACITY: nat := 10_000
  const DEDUPE_SECS: nat := 60
  const TAIL: nat := 30

  datatype Entry = Entry(tm: Time, fromIp: string, toIp: string, toId: string)

  predicate SamePair(e: Entry, fromIp: string, toId: string) {
    e.fromIp == fromIp && e.toId == toId
  }

  predicate Recent(e: Entry, now: Time) {
    AsSecs(Elapsed(now, e.tm)) < DEDUPE_SECS
  }

  ghost predicate Ordered(log: seq<Entry>) {
    forall i, j :: 0 <= i <= j < |log| ==> log[i].tm <= log[j].tm
  }

  /** Entries for one pair at most thirty positions apart lie at least a minute apart. */
  ghost predicate Spaced(log: seq<Entry>) {
    forall i, j :: 0 <= i < j < |log| && j - i <= 30 && SamePair(log[i], log[j].fromIp, log[j].toId) ==>
      log[j].tm - log[i].tm >= 60 * SEC
  }

  ghost predicate LogOk(log: seq<Entry>) {
    |log| <= 10_000 && Ordered(log) && Spaced(log)
  }

  /** One of the last thirty entries is for the pair and less than a minute old. */
  ghost predicate Duplicate(log: seq<Entry>, fromIp: string, toId: string, now: Time) {
    exists k :: 0 <= k < |log| && |log| - k <= TAIL && SamePair(log[k], fromIp, toId) && Recent(log[k], now)
  }

  function DropOldest(log: seq<Entry>): seq<Entry> {
    if |log| >= CAPACITY then log[1..] else log
  }

  ghost function Recorded(log: seq<Entry>, e: Entry, checked: Time): seq<Entry> {
    if Duplicate(log, e.fromIp, e.toId, checked) then log else DropOldest(log) + [e]
  }

  /** No entry is younger than the given time. */
  ghost predicate NotAfter(log: seq<Entry>, now: Time) {
    forall i :: 0 <= i < |log| ==> log[i].tm <= now
  }

  lemma DropKeeps(log: seq<Entry>)
    requires LogOk(log)
    ensures LogOk(DropOldest(log)) && |DropOldest(log)| < CAPACITY
  {
    var d := DropOldest(log);
    if |log| >= CAPACITY {
      forall i, j | 0 <= i < j < |d| && j - i <= TAIL && SamePair(d[i], d[j].fromIp, d[j].toId)
        ensures d[j].tm - d[i].tm >= DEDUPE_SECS * SEC
      {
        assert d[i] == log[i + 1] && d[j] == log[j + 1];
      }
    }
  }

  /** An entry at least a minute younger than every entry for its pair in the tail keeps
      the log spaced. */
  lemma AppendSpaced(d: seq<Entry>, e: Entry)
    requires Spaced(d)
    requires forall i :: 0 <= i < |d| && |d| - i <= TAIL && SamePair(d[i], e.fromIp, e.toId) ==> e.tm - d[i].tm >= DEDUPE_SECS * SEC
    ensures Spaced(d + [e])
  {
    var r := d + [e];
    forall i, j | 0 <= i < j < |r| && j - i <= TAIL && SamePair(r[i], r[j].fromIp, r[j].toId)
      ensures r[j].tm - r[i].tm >= DEDUPE_SECS * SEC
    {
      assert r[i] == d[i];
      if j < |d| {
        assert r[j] == d[j];
      }
    }
  }

  lemma AppendOrdered(d: seq<Entry>, e: Entry)
    requires Ordered(d) && NotAfter(d, e.tm)
    ensures Ordered(d + [e]) && NotAfter(d + [e], e.tm)
  {
  }

  /** In a log without a duplicate the tail has no entry for the pair within a minute,
      also after the oldest entry has gone. */
  lemma TailIsOld(log: seq<Entry>, e: Entry, checked: Time, i: nat)
    requires LogOk(log) && checked <= e.tm && !Duplicate(log, e.fromIp, e.toId, checked)
    requires i < |DropOldest(log)| && |DropOldest(log)| - i <= TAIL && SamePair(DropOldest(log)[i], e.fromIp, e.toId)
    ensures e.tm - DropOldest(log)[i].tm >= DEDUPE_SECS * SEC
  {
    var k := i + |log| - |DropOldest(log)|;
    assert DropOldest(log)[i] == log[k];
    assert !Recent(log[k], checked);
  }

  /** An entry put at the end, unless it is a duplicate, keeps the log in order and
      spaced, also when the oldest entry has to go. */
  lemma RecordKeeps(log: seq<Entry>, e: Entry, checked: Time)
    requires LogOk(log) && NotAfter(log, checked) && checked <= e.tm
    ensures LogOk(Recorded(log, e, checked)) && NotAfter(Recorded(log, e, checked), e.tm)
  {
    if !Duplicate(log, e.fromIp, e.toId, checked) {
      DropKeeps(log);
      var d := DropOldest(log);
      forall i | 0 <= i < |d| && |d| - i <= TAIL && SamePair(d[i], e.fromIp, e.toId)
        ensures e.tm - d[i].tm >= DEDUPE_SECS * SEC
      {
        TailIsOld(log, e, checked, i);
      }
      AppendSpaced(d, e);
      AppendOrdered(d, e);
    }
  }

  /** The log holds an entry for the pair less than a minute old. */
  ghost predicate Covered(log: seq<Entry>, fromIp: string, toId: string, now: Time) {
    exists k :: 0 <= k < |log| && log[k].fromIp == fromIp && log[k].toId == toId && now < log[k].tm + 60 * SEC
  }

  /** No entry is lost but the oldest of a full log. */
  ghost predicate Keeps(log: seq<Entry>, after: seq<Entry>) {
    forall i :: 0 <= i < |log| ==> log[i] in after || (i == 0 && |log| == CAPACITY)
  }

  lemma AppendCovers(d: seq<Entry>, e: Entry, now: Time)
    requires now <= e.tm
    ensures Covered(d + [e], e.fromIp, e.toId, now)
  {
    var r := d + [e];
    assert r[|d|] == e && Recent(e, now);
  }

  lemma AppendKeeps(log: seq<Entry>, e: Entry)
    requires |log| <= CAPACITY
    ensures Keeps(log, DropOldest(log) + [e])
  {
    var d := DropOldest(log);
    var r := d + [e];
    var shift := |log| - |d|;
    forall i | 0 <= i < |log| ensures log[i] in r || (i == 0 && |log| == CAPACITY) {
      if i >= shift {
        assert r[i - shift] == log[i];
      }
    }
  }

  /** After a request the log holds an entry for its pair less than a minute older, and
      every earlier entry but the oldest of a full log. */
  lemma RequestIsCovered(log: seq<Entry>, e: Entry, checked: Time)
    requires |log| <= CAPACITY && checked <= e.tm
    ensures Covered(Recorded(log, e, checked), e.fromIp, e.toId, checked)
    ensures Keeps(log, Recorded(log, e, checked))
  {
    AppendCovers(DropOldest(log), e, checked);
    AppendKeeps(log, e);
    if Duplicate(log, e.fromIp, e.toId, checked) {
      var k :| 0 <= k < |log| && |log| - k <= TAIL && SamePair(log[k], e.fromIp, e.toId) && Recent(log[k], checked);
      assert checked < log[k].tm + 60 * SEC;
    }
  }

  /** A request is entered exactly when none of the last thirty entries is for the same
      source and target and less than sixty seconds old. */
  lemma EnteredIff(log: seq<Entry>, e: Entry, checked: Time)
    requires |log| <= 10_000
    ensures var alone :=
        forall k :: 0 <= k < |log| && |log| - 30 <= k && log[k].fromIp == e.fromIp && log[k].toId == e.toId ==>
          checked >= log[k].tm + 60 * SEC;
      Recorded(log, e, checked) == if alone then (if |log| == 10_000 then log[1..] else log) + [e] else log
  {
    forall k | 0 <= k < |log| ensures Recent(log[k], checked) <==> checked < log[k].tm + 60 * SEC {
    }
  }

  // ----- runs -----

  datatype Request = Request(fromIp: string, toIp: string, toId: string, checked: Time, at: Time)

  function EntryOf(q: Request): Entry { Entry(q.at, q.fromIp, q.toIp, q.toId) }

  /** The clock does not run backwards. */
  ghost predicate InOrder(qs: seq<Request>) {
    && (forall i :: 0 <= i < |qs| ==> qs[i].checked <= qs[i].at)
    && (forall i, j :: 0 <= i < j < |qs| ==> qs[i].at <= qs[j].checked)
  }

  ghost function Replay(qs: seq<Request>): seq<Entry> {
    if qs == [] then []
    else Recorded(Replay(qs[..|qs| - 1]), EntryOf(qs[|qs| - 1]), qs[|qs| - 1].checked)
  }

  /** Every reachable log holds at most 10,000 entries, in order of time, with entries
      for one pair at most thirty positions apart at least a minute apart. */
  lemma {:induction false} ReachableLog(qs: seq<Request>)
    requires InOrder(qs)
    ensures LogOk(Replay(qs))
    ensures qs == [] ==> Replay(qs) == []
    ensures qs != [] ==> NotAfter(Replay(qs), qs[|qs| - 1].at)
  {
    if qs != [] {
      var n := |qs| - 1;
      ReachableLog(qs[..n]);
      var log := Replay(qs[..n]);
      assert NotAfter(log, qs[n].checked) by {
        if n > 0 {
          assert qs[..n][n - 1] == qs[n - 1];
        }
      }
      RecordKeeps(log, EntryOf(qs[n]), qs[n].checked);
    }
  }

  // ----- the log as the server changes it -----

  /** The scan from the back stops at the first entry for the pair. In an ordered log
      that entry decides for all thirty. */
  method IsDuplicate(log: seq<Entry>, fromIp: string, toId: string, now: Time) returns (dup: bool)
    requires Ordered(log)
    ensures dup <==> Duplicate(log, fromIp, toId, now)
  {
    dup := false;
    var k := |log|;
    while k > 0 && |log| - k < TAIL
      invariant 0 <= k <= |log| && |log| - k <= TAIL
      invariant forall i :: k <= i < |log| ==> !SamePair(log[i], fromIp, toId)
    {
      k := k - 1;
      if SamePair(log[k], fromIp, toId) {
        dup := Recent(log[k], now);
        if !dup {
          forall i | 0 <= i <= k ensures !Recent(log[i], now) {
            OlderIsNotRecent(log[i], log[k], now);
          }
        }
        return;
      }
    }
  }

  lemma OlderIsNotRecent(a: Entry, b: Entry, now: Time)
    requires a.tm <= b.tm && !Recent(b, now)
    ensures !Recent(a, now)
  {
    assert Elapsed(now, a.tm) >= Elapsed(now, b.tm);
  }

  class PunchRequests {
    var log: seq<Entry>

    ghost predicate Valid()
      reads this
    {
      LogOk(log)
    }

    constructor ()
      ensures Valid() && log == []
    {
      log := [];
    }

    /** One request: `checked` is the clock while scanning, `at` when the entry is made. */
    method Record(fromIp: string, toIp: string, toId: string, checked: Time, at: Time)
      requires Valid() && NotAfter(log, checked) && checked <= at
      modifies this
      ensures Valid() && NotAfter(log, at)
      ensures log == Recorded(old(log), Entry(at, fromIp, toIp, toId), checked)
    {
      RecordKeeps(log, Entry(at, fromIp, toIp, toId), checked);
      var dup := IsDuplicate(log, fromIp, toId, checked);
      if !dup {
        if |log| >= CAPACITY {
          log := log[1..];
        }
        log := log + [Entry(at, fromIp, toIp, toId)];
      }
    }
  }
}
