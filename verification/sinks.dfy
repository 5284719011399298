/** The map of reply channels. A connection publishes its channel under its
    normalised address when it opens, may publish it again while open, and withdraws
    it when it closes, but only if the entry is still its own. */
module Sinks {
  type Addr = string
  type Conn = nat

  /** `key` is the normalised address a connection had when it opened. */
  datatype State = State(sinks: map<Addr, Conn>, open: set<Conn>, key: map<Conn, Addr>)

  datatype Step =
    | Open(c: Conn, key: Addr)
    | Recache(c: Conn)
    | SendOnce(to: Addr)
    | Close(c: Conn)

  predicate Enabled(s: State, step: Step) {
    match step
    case Open(c, _) => c !in s.key
    case Recache(c) => c in s.open && c in s.key
    case SendOnce(_) => true
    case Close(c) => c in s.open && c in s.key
  }

  function Apply(s: State, step: Step): State
    requires Enabled(s, step)
  {
    match step
    case Open(c, key) => State(s.sinks[key := c], s.open + {c}, s.key[c := key])
    case Recache(c) => s.(sinks := s.sinks[s.key[c] := c])
    case SendOnce(to) => s.(sinks := s.sinks - {to})
    case Close(c) =>
      var k := s.key[c];
      State(if k in s.sinks && s.sinks[k] == c then s.sinks - {k} else s.sinks, s.open - {c}, s.key)
  }

  ghost predicate StepAt(run: seq<State>, steps: seq<Step>, i: nat)
    requires |run| == |steps| + 1 && i < |steps|
  {
    Enabled(run[i], steps[i]) && run[i + 1] == Apply(run[i], steps[i])
  }

  ghost predicate IsRun(run: seq<State>, steps: seq<Step>) {
    && |run| == |steps| + 1
    && run[0] == State(map[], {}, map[])
    && forall i: nat {:trigger StepAt(run, steps, i)} :: i < |steps| ==> StepAt(run, steps, i)
  }

  ghost predicate Inv(s: State) {
    && s.open <= s.key.Keys
    && forall k :: k in s.sinks ==> s.sinks[k] in s.open && s.sinks[k] in s.key && s.key[s.sinks[k]] == k
  }

  /** In every reachable state an entry belongs to an open connection whose normalised
      address is the entry's key; so a connection owns at most one entry. */
  lemma {:induction false} SinkOwnership(run: seq<State>, steps: seq<Step>, i: nat)
    requires IsRun(run, steps) && i < |run|
    ensures Inv(run[i])
    ensures forall k, m :: k in run[i].sinks && m in run[i].sinks && run[i].sinks[k] == run[i].sinks[m] ==> k == m
  {
    if i > 0 {
      SinkOwnership(run, steps, i - 1);
      assert StepAt(run, steps, i - 1);
    }
  }

  /** A closing connection leaves every other connection's entry as it is, and after it
      no entry is its own. */
  lemma CloseKeepsNewer(run: seq<State>, steps: seq<Step>, i: nat)
    requires IsRun(run, steps) && i < |steps| && steps[i].Close?
    ensures forall k :: k in run[i].sinks && run[i].sinks[k] != steps[i].c ==> k in run[i + 1].sinks && run[i + 1].sinks[k] == run[i].sinks[k]
    ensures forall k :: k in run[i + 1].sinks ==> k in run[i].sinks && run[i + 1].sinks[k] == run[i].sinks[k] != steps[i].c
  {
    SinkOwnership(run, steps, i);
    assert StepAt(run, steps, i);
  }

  lemma {:induction false} ClosedStays(run: seq<State>, steps: seq<Step>, i: nat, j: nat, c: Conn)
    requires IsRun(run, steps) && i <= j < |run| && c in run[i].key && c !in run[i].open
    ensures c in run[j].key && c !in run[j].open
    decreases j
  {
    if i < j {
      ClosedStays(run, steps, i, j - 1, c);
      assert StepAt(run, steps, j - 1);
    }
  }

  /** After a connection closed no later lookup can reach its channel. */
  lemma ClosedIsUnreachable(run: seq<State>, steps: seq<Step>, i: nat, j: nat, k: Addr)
    requires IsRun(run, steps) && i < j < |run| && StepAt(run, steps, i) && steps[i].Close?
    ensures k in run[j].sinks ==> run[j].sinks[k] != steps[i].c
  {
    ClosedStays(run, steps, i + 1, j, steps[i].c);
    SinkOwnership(run, steps, j);
  }

  /** The map as the server changes it under its lock. */
  class SinkMap {
    var sinks: map<Addr, Conn>

    /** Opening a connection and caching its channel again: the channel becomes the one
        reached at the key, and no other entry changes. */
    method Publish(key: Addr, c: Conn)
      modifies this
      ensures key in sinks && sinks[key] == c
      ensures forall k :: k != key ==> (k in sinks <==> k in old(sinks)) && (k in sinks ==> sinks[k] == old(sinks)[k])
      ensures forall s: State :: s.sinks == old(sinks) && Enabled(s, Open(c, key)) ==> sinks == Apply(s, Open(c, key)).sinks
      ensures forall s: State :: s.sinks == old(sinks) && Enabled(s, Recache(c)) && s.key[c] == key ==>
        sinks == Apply(s, Recache(c)).sinks
    {
      sinks := sinks[key := c];
    }

    /** A one-shot send takes the channel out whether or not the send succeeds. */
    method TakeOnce(to: Addr) returns (found: bool, c: Conn)
      modifies this
      ensures to !in sinks
      ensures forall k :: k != to ==> (k in sinks <==> k in old(sinks)) && (k in sinks ==> sinks[k] == old(sinks)[k])
      ensures forall s: State :: s.sinks == old(sinks) ==> sinks == Apply(s, SendOnce(to)).sinks
      ensures found <==> to in old(sinks)
      ensures found ==> c == old(sinks)[to]
    {
      found, c := false, 0;
      if to in sinks {
        found, c := true, sinks[to];
        sinks := sinks - {to};
      }
    }

    method Withdraw(key: Addr, c: Conn)
      modifies this
      ensures forall k :: k in sinks <==> k in old(sinks) && !(k == key && old(sinks)[k] == c)
      ensures forall k :: k in sinks ==> sinks[k] == old(sinks)[k]
    {
      if key in sinks && sinks[key] == c {
        sinks := sinks - {key};
      }
    }
  }
}
