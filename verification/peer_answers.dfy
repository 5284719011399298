/** Which registrations and heartbeats a peer accepts, in terms of what it stores and
    what the device sends. */
module PeerAnswers {
  import opened Clock
  import opened PeerModel
  import opened Values

  /** An answer for every registration: busy while a write is under way; a mismatch if,
      without a management server, a stored device comes with another uuid, or with
      another key from another address; too frequent if three registrations were counted
      and the last is less than seven seconds old; unchanged if it brings what is stored;
      and written otherwise. */
  lemma StageAnswers(p: Peer, addr: Addr, uuid: Bytes, pk: Bytes, managed: bool, now: Time)
    ensures var stage := StagePeer(p, addr, uuid, pk, managed, now).stage;
      var known := p.uuid == [] || managed || (p.uuid == uuid && (p.pk == pk || p.ip == addr.ip));
      var calm := p.regCount < 3 || now >= p.regAt + 7 * SEC;
      var same := p.uuid != [] && p.uuid == uuid && p.pk == pk && p.ip == addr.ip;
      && (stage.Busy? <==> p.inProgress)
      && (stage.UuidMismatch? <==> !p.inProgress && !known)
      && (stage.TooFrequent? <==> !p.inProgress && known && !calm)
      && (stage.Unchanged? <==> !p.inProgress && known && calm && same)
      && (stage.Persist? <==> !p.inProgress && known && calm && !same)
  {
  }

  /** The registration counter goes up by one with every registration that is let through
      and starts anew after seven seconds. */
  predicate Counts(p: Peer, q: Peer, now: Time) {
    q.regAt == now && q.regCount == if now >= p.regAt + 7 * SEC then 1 else p.regCount + 1
  }

  /** What a registration leaves behind: nothing if it is refused, the counter if it brings
      nothing new, and otherwise the device's new identity, marked as being written, with
      all that a failed write has to put back. */
  lemma StageEffect(p: Peer, addr: Addr, uuid: Bytes, pk: Bytes, managed: bool, now: Time)
    ensures var r := StagePeer(p, addr, uuid, pk, managed, now); var q := r.peer;
      && (r.stage.Busy? || r.stage.UuidMismatch? || r.stage.TooFrequent? ==> q == p)
      && (r.stage.Unchanged? ==> Counts(p, q, now) && q.(regAt := p.regAt, regCount := p.regCount) == p)
      && (r.stage.Persist? ==>
            && Counts(p, q, now) && q.uuid == uuid && q.pk == pk && q.ip == addr.ip
            && q.socketAddr == addr && q.lastReg == now && q.inProgress
            && q.guid == p.guid == r.stage.guid && q.lastAccess == p.lastAccess && q.verifiedAt == p.verifiedAt
            && r.stage.ip == addr.ip && (r.stage.ipChanged <==> p.uuid != [] && p.ip != addr.ip)
            && RollBackPeer(q, r.stage.rollback) == p.(regAt := q.regAt, regCount := q.regCount))
  {
  }

  /** Without a management server a stored device keeps its uuid, and it never changes its
      key and its address at once. */
  lemma StageKeepsIdentity(p: Peer, addr: Addr, uuid: Bytes, pk: Bytes, now: Time)
    requires p.uuid != []
    ensures var q := StagePeer(p, addr, uuid, pk, false, now).peer;
      q.uuid == p.uuid && (q.pk == p.pk || q.ip == p.ip)
  {
  }

  /** A device that is not stored can register at once, whatever the clock shows, and is
      asked for its key until it has. */
  lemma NewPeerRegisters(made: Time, addr: Addr, uuid: Bytes, pk: Bytes, managed: bool, now: Time)
    requires made <= now
    ensures StagePeer(DefaultPeer(made), addr, uuid, pk, managed, now).stage.Persist?
    ensures BeatPeer(DefaultPeer(made), addr, !managed, now).requestPk
    ensures DefaultPeer(made).lastAccess == made
    ensures made >= 3600 * SEC ==> DefaultPeer(made).lastReg == made - 3600 * SEC
  {
  }

  /** A heartbeat is asked for the key exactly when the peer has none, when it comes from
      another address, loopback excepted, than the recorded or else the stored one, or
      when, with a management server, the last verification is missing or thirty seconds
      old. Otherwise its address and time are recorded; nothing else changes. */
  lemma BeatAnswers(p: Peer, addr: Addr, unmanaged: bool, now: Time)
    ensures var r := BeatPeer(p, addr, unmanaged, now);
      var elsewhere := addr.ip != (if p.socketAddr.port != 0 then p.socketAddr.ip else p.ip);
      && (r.requestPk <==>
            || p.pk == []
            || (elsewhere && !("127." <= addr.ip) && addr.ip != "::1")
            || (!unmanaged && (p.verifiedAt.None? || now >= p.verifiedAt.value + 30 * SEC)))
      && r.peer == if r.requestPk then p else p.(socketAddr := addr, lastReg := now)
  {
  }
}
