/** The answer to an online query: one bit per peer, most significant bit first. */
module OnlineStates {
  import opened Clock
  import opened Values

  const REG_TIMEOUT_MS: nat := 30_000

  /** What a lookup in the cache saw: when the peer last registered and when it was
      asked, or that the peer is not cached. */
  datatype Seen = Seen(lastReg: Time, now: Time)

  function AsMillis(d: nat): nat { d / 1_000_000 }

  predicate IsOnline(seen: Option<Seen>) {
    seen.Some? && AsMillis(Elapsed(seen.value.now, seen.value.lastReg)) < REG_TIMEOUT_MS
  }

  /** Online means registered less than thirty seconds ago. */
  lemma OnlineIff(seen: Option<Seen>)
    ensures IsOnline(seen) <==> seen.Some? && seen.value.now < seen.value.lastReg + 30 * SEC
  {
  }

  /** The byte in which only bit k is set, bit 0 being the least significant. */
  function Mask(k: nat): bv8
    requires k < 8
  {
    if k == 0 then 0x01 else if k == 1 then 0x02 else if k == 2 then 0x04 else if k == 3 then 0x08
    else if k == 4 then 0x10 else if k == 5 then 0x20 else if k == 6 then 0x40 else 0x80
  }

  predicate Bit(b: bv8, k: nat)
    requires k < 8
  {
    b & Mask(k) != 0
  }

  /** The masks are the shifts the source writes. */
  lemma ShiftIsMask(k: nat)
    requires k < 8
    ensures (0x01 as bv8) << k == Mask(k)
  {
    if k == 0 {} else if k == 1 {} else if k == 2 {} else if k == 3 {}
    else if k == 4 {} else if k == 5 {} else if k == 6 {} else {}
  }

  /** Setting one bit sets that bit and no other. */
  lemma SetBit(b: bv8, k: nat, j: nat)
    requires k < 8 && j < 8
    ensures Bit(b | Mask(k), j) <==> j == k || Bit(b, j)
  {
  }

  /** The state of peer i as a reader of the answer finds it. */
  predicate StateOf(states: seq<bv8>, i: nat)
    requires i / 8 < |states|
  {
    Bit(states[i / 8], 7 - i % 8)
  }

  function BytesFor(n: nat): nat { (n + 7) / 8 }

  /** Bits for peers below n say who is online, and every other bit is clear. */
  ghost predicate Answers(states: seq<bv8>, seen: seq<Option<Seen>>, n: nat)
    requires n <= |seen| && |states| == BytesFor(|seen|)
  {
    forall i: nat :: i < 8 * |states| ==> (StateOf(states, i) <==> i < n && IsOnline(seen[i]))
  }

  lemma OneMore(states: seq<bv8>, states': seq<bv8>, seen: seq<Option<Seen>>, n: nat)
    requires n < |seen| && |states| == |states'| == BytesFor(|seen|) && Answers(states, seen, n)
    requires states' == if IsOnline(seen[n]) then states[n / 8 := states[n / 8] | Mask(7 - n % 8)] else states
    ensures Answers(states', seen, n + 1)
  {
    forall i: nat | i < 8 * |states'| ensures StateOf(states', i) <==> i < n + 1 && IsOnline(seen[i]) {
      assert StateOf(states, i) <==> i < n && IsOnline(seen[i]);
      if i / 8 == n / 8 {
        SetBit(states[n / 8], 7 - n % 8, 7 - i % 8);
      }
    }
  }

  /** `build_online_response`: the answer has one byte for every eight peers or part of
      eight, bit 7 - i % 8 of byte i / 8 is set exactly when peer i is online, and the
      bits behind the last peer are clear. */
  method BuildOnlineResponse(seen: seq<Option<Seen>>) returns (states: seq<bv8>)
    ensures |states| == BytesFor(|seen|)
    ensures forall i: nat :: i < |seen| ==>
      (StateOf(states, i) <==> seen[i].Some? && seen[i].value.now < seen[i].value.lastReg + 30 * SEC)
    ensures forall i: nat :: |seen| <= i < 8 * |states| ==> !StateOf(states, i)
  {
    var buffer := new bv8[BytesFor(|seen|)](_ => 0);
    var n := 0;
    while n < |seen|
      invariant 0 <= n <= |seen|
      invariant Answers(buffer[..], seen, n)
    {
      ghost var before := buffer[..];
      if IsOnline(seen[n]) {
        buffer[n / 8] := buffer[n / 8] | Mask(7 - n % 8);
      }
      OneMore(before, buffer[..], seen, n);
      n := n + 1;
    }
    states := buffer[..];
    forall i: nat | i < |seen|
      ensures IsOnline(seen[i]) <==> seen[i].Some? && seen[i].value.now < seen[i].value.lastReg + 30 * SEC
    {
      OnlineIff(seen[i]);
    }
  }
}
