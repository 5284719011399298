/** The table of waiting relays as the relay server changes it under its lock. */
module RelayTableModel {
  import opened RelayPairing

  datatype Entered = Paired(pending: Pending) | Rejected | Waiting(generation: nat)

  /** The connection sleeps under this timer. */
  ghost predicate WaitingOn(s: State, c: Conn, uuid: Uuid, generation: nat) {
    Inv(s) && c in s.tasks && s.tasks[c] == Sleeping(uuid, generation)
  }

  /** A sleeping connection still waits exactly when the entry of its uuid has the
      generation of its timer. */
  lemma OwnGeneration(s: State, c: Conn)
    requires Inv(s) && c in s.tasks && s.tasks[c].Sleeping?
    ensures var u, g := s.tasks[c].uuid, s.tasks[c].generation;
      u in s.peers && s.peers[u].generation == g <==> Waits(s, c)
  {
    var u, g := s.tasks[c].uuid, s.tasks[c].generation;
    if u in s.peers && s.peers[u].generation == g {
      assert WaitsUnder(s, c, u);
    }
    if Waits(s, c) {
      var v :| WaitsUnder(s, c, v);
    }
  }

  class RelayTable {
    var peers: map<Uuid, Pending>
    var nextGeneration: nat

    /** The connections from one address that wait, counted entry by entry. */
    method CountFrom(ip: Ip) returns (n: nat)
      ensures n == |WaitingFrom(peers, ip)|
    {
      n := 0;
      var rest := peers.Keys;
      while rest != {}
        invariant rest <= peers.Keys
        invariant n == |WaitingFrom(peers, ip) - rest|
        decreases rest
      {
        var u :| u in rest;
        if peers[u].ip == ip {
          assert WaitingFrom(peers, ip) - (rest - {u}) == (WaitingFrom(peers, ip) - rest) + {u};
          n := n + 1;
        } else {
          assert WaitingFrom(peers, ip) - (rest - {u}) == WaitingFrom(peers, ip) - rest;
        }
        rest := rest - {u};
      }
      assert WaitingFrom(peers, ip) - rest == WaitingFrom(peers, ip);
    }

    /** A stream that names a uuid: it takes the stream waiting there, or waits there
        itself, or is turned away by one of the two limits. */
    method Enter(uuid: Uuid, stream: Conn, ip: Ip) returns (r: Entered)
      modifies this
      ensures r.Paired? <==> uuid in old(peers)
      ensures r.Paired? ==> r.pending == old(peers)[uuid]
      ensures forall s: State :: s.peers == old(peers) && s.nextGeneration == old(nextGeneration) ==>
        && peers == DoRequest(s, stream, uuid, ip).peers
        && nextGeneration == DoRequest(s, stream, uuid, ip).nextGeneration
        && (r.Rejected? <==>
              uuid !in s.peers && (|s.peers| >= 4096 || |set u | u in s.peers && s.peers[u].ip == ip| >= 32))
        && (r.Waiting? ==> r.generation == s.nextGeneration)
    {
      assert WaitingFrom(peers, ip) == set u | u in peers && peers[u].ip == ip;
      if uuid in peers {
        r := Paired(peers[uuid]);
        peers := peers - {uuid};
      } else {
        var fromIp := CountFrom(ip);
        if |peers| >= MAX_PENDING_RELAYS || fromIp >= MAX_PENDING_RELAYS_PER_IP {
          r := Rejected;
        } else {
          r := Waiting(nextGeneration);
          peers := peers[uuid := Pending(stream, ip, nextGeneration)];
          nextGeneration := nextGeneration + 1;
        }
      }
    }

    /** A timer that fires. In every state of the server in which the timer is some
        connection's, it removes that connection's own entry if that still waits, and
        nothing else, and says whether it did. */
    method Expire(uuid: Uuid, generation: nat) returns (removed: bool)
      modifies this`peers
      ensures forall s: State, c: Conn {:trigger WaitingOn(s, c, uuid, generation)} ::
        s.peers == old(peers) && WaitingOn(s, c, uuid, generation) ==>
          && peers == Apply(s, Timeout(c)).peers
          && (removed <==> Waits(s, c))
          && (forall u :: u in peers <==> u in s.peers && !WaitsUnder(s, c, u))
    {
      forall s: State, c: Conn | s.peers == peers && WaitingOn(s, c, uuid, generation)
        ensures RemoveIfGeneration(peers, uuid, generation) == Apply(s, Timeout(c)).peers
        ensures (uuid in peers && peers[uuid].generation == generation) <==> Waits(s, c)
        ensures forall u :: u in Apply(s, Timeout(c)).peers <==> u in s.peers && !WaitsUnder(s, c, u)
      {
        TimerTakesOwnEntry(s, c);
        OwnGeneration(s, c);
      }
      removed := uuid in peers && peers[uuid].generation == generation;
      if removed {
        peers := peers - {uuid};
      }
    }
  }
}
