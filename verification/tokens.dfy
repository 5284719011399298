/** One-shot rendezvous tokens. The table is swept of expired entries and bounded;
    it is proved to answer as the complete history of requests would. */
module Tokens {
  import opened Clock
  import opened Values

  type Token = seq<Byte>

  datatype SocketAddr = SocketAddr(ip: seq<Byte>, port: nat)

  const CAPACITY: nat := 10_000
  const TTL_SECS: nat := 30
  const TOKEN_LEN: nat := 32

  datatype Kind = Direct | Local | Relay

  /** An entry; `requester` is an address already brought to its IPv4 form. */
  datatype Entry = Entry(requester: SocketAddr, responder: string, kind: Kind, relayServer: string, createdAt: Time)

  datatype Consumed = Consumed(requester: SocketAddr, relayServer: string)

  type Table = map<Token, Entry>

  predicate Expired(e: Entry, now: Time) {
    Elapsed(now, e.createdAt) > TTL_SECS * SEC
  }

  predicate Matches(e: Entry, responder: string, claimed: SocketAddr, expected: Option<Kind>) {
    e.responder == responder && (expected.Some? ==> e.kind == expected.value) && e.requester == claimed
  }

  /** The reservation is at most thirty seconds old. */
  predicate InTime(e: Entry, now: Time) {
    now <= e.createdAt + 30 * SEC
  }

  lemma InTimeIff(e: Entry, now: Time)
    ensures InTime(e, now) <==> !Expired(e, now)
  {
  }

  /** What a consumer has to present: the responder's id, the requester's address and, if
      it asks for one, the kind of the reservation. */
  predicate Presents(e: Entry, responder: string, claimed: SocketAddr, expected: Option<Kind>) {
    responder == e.responder && claimed == e.requester && (expected == None || expected == Some(e.kind))
  }

  lemma PresentsIff(e: Entry, responder: string, claimed: SocketAddr, expected: Option<Kind>)
    ensures Presents(e, responder, claimed, expected) <==> Matches(e, responder, claimed, expected)
  {
  }

  /** The sweep made before a reservation. */
  function Sweep(pending: Table, now: Time): Table {
    map t | t in pending && !Expired(pending[t], now) :: pending[t]
  }

  datatype Reply = Reply(pending: Table, consumed: Option<Consumed>)

  /** `consume_pending_rendezvous_in`; `claimed` is the address already normalised. */
  function Consume(pending: Table, token: Token, responder: string, claimed: SocketAddr, expected: Option<Kind>, now: Time): Reply {
    if |token| != TOKEN_LEN || token !in pending then Reply(pending, None)
    else if Expired(pending[token], now) then Reply(pending - {token}, None)
    else if !Matches(pending[token], responder, claimed, expected) then Reply(pending, None)
    else Reply(pending - {token}, Some(Consumed(pending[token].requester, pending[token].relayServer)))
  }

  // ----- the history -----

  /** What happened to tokens, in order. */
  datatype Event =
    | Reserved(token: Token, entry: Entry)
    | Spent(token: Token)

  /** The reservation at position i is the last thing that happened to its token. */
  ghost predicate OpenAt(log: seq<Event>, i: nat, token: Token, e: Entry) {
    i < |log| && log[i] == Reserved(token, e) && forall k :: i < k < |log| ==> log[k].token != token
  }

  /** The token was reserved with this entry and neither consumed, cancelled nor
      reserved again since. */
  ghost predicate Open(log: seq<Event>, token: Token, e: Entry) {
    exists i: nat :: OpenAt(log, i, token, e)
  }

  lemma OpenUnique(log: seq<Event>, token: Token, e: Entry, f: Entry)
    requires Open(log, token, e) && Open(log, token, f)
    ensures e == f
  {
    var i: nat :| OpenAt(log, i, token, e);
    var j: nat :| OpenAt(log, j, token, f);
  }

  /** How one more event changes what is open. */
  lemma OpenAfter(log: seq<Event>, ev: Event, token: Token, e: Entry)
    ensures Open(log + [ev], token, e) <==>
      if ev.token == token then ev == Reserved(token, e) else Open(log, token, e)
  {
    var log' := log + [ev];
    if ev == Reserved(token, e) {
      assert OpenAt(log', |log|, token, e);
    }
    if ev.token != token && Open(log, token, e) {
      var i: nat :| OpenAt(log, i, token, e);
      assert OpenAt(log', i, token, e);
    }
    if Open(log', token, e) {
      var i: nat :| OpenAt(log', i, token, e);
      assert log'[|log|] == ev;
      if i < |log| {
        assert OpenAt(log, i, token, e) by {
          assert forall k :: i < k < |log| ==> log[k] == log'[k];
        }
      }
    }
  }

  /** The swept table stands for the history: it holds open reservations only, and
      every open reservation that has not expired. */
  ghost predicate Represents(pending: Table, log: seq<Event>, now: Time) {
    && (forall t :: t in pending ==> Open(log, t, pending[t]))
    && (forall t, e :: Open(log, t, e) && !Expired(e, now) ==> t in pending)
  }

  lemma RepresentsLater(pending: Table, log: seq<Event>, now: Time, later: Time)
    requires Represents(pending, log, now) && now <= later
    ensures Represents(pending, log, later)
  {
    forall t, e | Open(log, t, e) && !Expired(e, later) ensures t in pending {
      assert !Expired(e, now);
    }
  }

  /** A consume succeeds exactly when the token has its full length and was reserved,
      neither consumed nor cancelled since, at most 30 seconds ago, for this
      responder, kind and requester; and it returns what was reserved. */
  lemma ConsumeIffOpen(pending: Table, log: seq<Event>, now: Time,
                       token: Token, responder: string, claimed: SocketAddr, expected: Option<Kind>)
    requires Represents(pending, log, now)
    ensures var r := Consume(pending, token, responder, claimed, expected, now).consumed;
      r.Some? <==> |token| == 32 && exists e :: Open(log, token, e) && InTime(e, now) && Presents(e, responder, claimed, expected)
    ensures var r := Consume(pending, token, responder, claimed, expected, now).consumed;
      r.Some? ==> exists e :: Open(log, token, e) && r.value == Consumed(e.requester, e.relayServer)
  {
    forall e ensures InTime(e, now) <==> !Expired(e, now) {
      InTimeIff(e, now);
    }
    forall e ensures Presents(e, responder, claimed, expected) <==> Matches(e, responder, claimed, expected) {
      PresentsIff(e, responder, claimed, expected);
    }
    if token in pending {
      assert Open(log, token, pending[token]);
      forall e | Open(log, token, e) ensures e == pending[token] {
        OpenUnique(log, token, e, pending[token]);
      }
    }
  }

  /** Consuming keeps the table faithful to the history, in which a success spends the
      token and a failure leaves no trace. */
  lemma ConsumeRepresents(pending: Table, log: seq<Event>, now: Time,
                          token: Token, responder: string, claimed: SocketAddr, expected: Option<Kind>)
    requires Represents(pending, log, now)
    ensures var r := Consume(pending, token, responder, claimed, expected, now);
      Represents(r.pending, if r.consumed.Some? then log + [Spent(token)] else log, now)
  {
    var r := Consume(pending, token, responder, claimed, expected, now);
    if r.consumed.Some? {
      SpendRepresents(pending, log, now, token);
    } else if token in pending && |token| == TOKEN_LEN && Expired(pending[token], now) {
      forall e | Open(log, token, e) ensures e == pending[token] {
        OpenUnique(log, token, e, pending[token]);
      }
    }
  }

  lemma SpendRepresents(pending: Table, log: seq<Event>, now: Time, token: Token)
    requires Represents(pending, log, now)
    ensures Represents(pending - {token}, log + [Spent(token)], now)
  {
    forall t, e ensures Open(log + [Spent(token)], t, e) <==> t != token && Open(log, t, e) {
      OpenAfter(log, Spent(token), t, e);
    }
  }

  // ----- reservations -----

  /** After the sweep the table is exactly the open reservations that have not expired. */
  lemma SweepExact(pending: Table, log: seq<Event>, now: Time, t: Token)
    requires Represents(pending, log, now)
    ensures t in Sweep(pending, now) <==> exists e :: Open(log, t, e) && InTime(e, now)
    ensures t in Sweep(pending, now) ==> Open(log, t, Sweep(pending, now)[t])
  {
    forall e ensures InTime(e, now) <==> !Expired(e, now) {
      InTimeIff(e, now);
    }
    if t in pending {
      forall e | Open(log, t, e) ensures e == pending[t] {
        OpenUnique(log, t, e, pending[t]);
      }
    }
  }

  lemma SweepRepresents(pending: Table, log: seq<Event>, now: Time)
    requires Represents(pending, log, now)
    ensures Represents(Sweep(pending, now), log, now)
  {
    forall t, e | Open(log, t, e) && !Expired(e, now) ensures t in Sweep(pending, now) {
      InTimeIff(e, now);
      SweepExact(pending, log, now, t);
    }
  }

  lemma InsertRepresents(pending: Table, log: seq<Event>, now: Time, token: Token, e: Entry)
    requires Represents(pending, log, now) && token !in pending
    ensures Represents(pending[token := e], log + [Reserved(token, e)], now)
  {
    forall t, f ensures Open(log + [Reserved(token, e)], t, f) <==> if t == token then f == e else Open(log, t, f) {
      OpenAfter(log, Reserved(token, e), t, f);
    }
  }

  /** The tokens a new reservation has to share the table with. */
  ghost function LiveTokens(log: seq<Event>, now: Time): set<Token> {
    set i | 0 <= i < |log| && exists e :: Open(log, log[i].token, e) && InTime(e, now) :: log[i].token
  }

  lemma SweepIsLive(pending: Table, log: seq<Event>, now: Time)
    requires Represents(pending, log, now)
    ensures Sweep(pending, now).Keys == LiveTokens(log, now)
  {
    forall t ensures t in Sweep(pending, now) <==> t in LiveTokens(log, now) {
      SweepExact(pending, log, now, t);
      if t in Sweep(pending, now) {
        var i: nat :| OpenAt(log, i, t, Sweep(pending, now)[t]);
        assert log[i].token == t;
      }
    }
  }

  /** A spent token stays unusable until it is reserved anew. */
  lemma {:induction false} OneShot(log: seq<Event>, since: seq<Event>, token: Token, e: Entry)
    requires forall k :: 0 <= k < |since| ==> !(since[k].Reserved? && since[k].token == token)
    ensures !Open(log + [Spent(token)] + since, token, e)
  {
    if |since| == 0 {
      assert log + [Spent(token)] + since == log + [Spent(token)];
      OpenAfter(log, Spent(token), token, e);
    } else {
      var n := |since| - 1;
      OneShot(log, since[..n], token, e);
      OpenAfter(log + [Spent(token)] + since[..n], since[n], token, e);
      assert log + [Spent(token)] + since == (log + [Spent(token)] + since[..n]) + [since[n]];
    }
  }

  // ----- the table as the server changes it -----

  /** Tokens are drawn until one is not taken. */
  method FirstFree(pending: Table, draws: seq<Token>) returns (token: Option<Token>)
    ensures token.None? <==> forall d :: d in draws ==> d in pending
    ensures token.Some? ==> token.value in draws && token.value !in pending
  {
    var k := 0;
    while k < |draws|
      invariant 0 <= k <= |draws|
      invariant forall i :: 0 <= i < k ==> draws[i] in pending
    {
      if draws[k] !in pending {
        return Some(draws[k]);
      }
      k := k + 1;
    }
    token := None;
  }

  class PendingTable {
    /** `try_into_v4`, which belongs to another library. */
    const norm: SocketAddr -> SocketAddr
    var pending: Table
    /** Everything that happened to tokens, and the last reading of the clock. */
    ghost var log: seq<Event>
    ghost var now: Time

    ghost predicate Valid()
      reads this
    {
      Represents(pending, log, now) && |pending| <= 10_000
    }

    constructor (norm: SocketAddr -> SocketAddr)
      ensures Valid() && log == [] && this.norm == norm
    {
      this.norm := norm;
      pending := map[];
      log := [];
      now := 0;
    }

    /** `reserve_pending_rendezvous`; `draws` are the tokens the generator yields until
        it fails. The request is refused exactly when 10,000 unexpired reservations are
        open, or no drawn token is free of them. */
    method Reserve(requester: SocketAddr, responder: string, kind: Kind, relayServer: string, clock: Time, draws: seq<Token>)
      returns (token: Option<Token>)
      requires Valid() && now <= clock
      modifies this
      ensures Valid() && now == clock
      ensures token.None? <==>
        || |LiveTokens(old(log), clock)| >= 10_000
        || (forall d :: d in draws ==> d in LiveTokens(old(log), clock))
      ensures token.None? ==> log == old(log)
      ensures token.Some? ==>
        && token.value in draws && token.value !in LiveTokens(old(log), clock)
        && log == old(log) + [Reserved(token.value, Entry(norm(requester), responder, kind, relayServer, clock))]
    {
      RepresentsLater(pending, log, now, clock);
      SweepIsLive(pending, log, clock);
      SweepRepresents(pending, log, clock);
      SweepSize(pending, clock);
      now := clock;
      pending := Sweep(pending, clock);
      assert pending.Keys == LiveTokens(log, clock);
      if |pending| >= CAPACITY {
        return None;
      }
      token := FirstFree(pending, draws);
      if token.Some? {
        var e := Entry(norm(requester), responder, kind, relayServer, clock);
        InsertRepresents(pending, log, clock, token.value, e);
        pending := pending[token.value := e];
        log := log + [Reserved(token.value, e)];
      }
    }

    /** `consume_pending_rendezvous`; `claimed` is the decoded requester address. */
    method ConsumeToken(token: Token, responder: string, claimed: Option<SocketAddr>, expected: Option<Kind>, clock: Time)
      returns (r: Option<Consumed>)
      requires Valid() && now <= clock
      modifies this
      ensures Valid()
      ensures r.Some? <==>
        && claimed.Some? && claimed.value.port != 0 && |token| == 32
        && exists e ::
             Open(old(log), token, e) && InTime(e, clock) && Presents(e, responder, norm(norm(claimed.value)), expected)
      ensures r.Some? ==> exists e :: Open(old(log), token, e) && r.value == Consumed(e.requester, e.relayServer)
      ensures log == if r.Some? then old(log) + [Spent(token)] else old(log)
    {
      if claimed.None? || claimed.value.port == 0 {
        return None;
      }
      var address := norm(norm(claimed.value));
      RepresentsLater(pending, log, now, clock);
      ConsumeIffOpen(pending, log, clock, token, responder, address, expected);
      ConsumeRepresents(pending, log, clock, token, responder, address, expected);
      ConsumeShrinks(pending, clock, token, responder, address, expected);
      now := clock;
      var reply := Consume(pending, token, responder, address, expected, clock);
      r := reply.consumed;
      pending := reply.pending;
      if r.Some? {
        log := log + [Spent(token)];
      }
    }

    /** A request that could not be delivered takes its token back. */
    method Cancel(token: Token)
      requires Valid()
      modifies this
      ensures Valid() && log == old(log) + [Spent(token)] && now == old(now)
    {
      SpendRepresents(pending, log, now, token);
      FewerKeys(pending, pending - {token});
      pending := pending - {token};
      log := log + [Spent(token)];
    }
  }

  lemma FewerKeys(p: Table, q: Table)
    requires q.Keys <= p.Keys
    ensures |q| <= |p|
  {
    SubsetSize(q.Keys, p.Keys);
  }

  lemma SweepSize(pending: Table, now: Time)
    ensures |Sweep(pending, now)| <= |pending|
  {
    FewerKeys(pending, Sweep(pending, now));
  }

  lemma ConsumeShrinks(pending: Table, now: Time, token: Token, responder: string, claimed: SocketAddr, expected: Option<Kind>)
    ensures |Consume(pending, token, responder, claimed, expected, now).pending| <= |pending|
  {
    FewerKeys(pending, Consume(pending, token, responder, claimed, expected, now).pending);
  }
}
