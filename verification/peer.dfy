/** One cached peer and the three regions of code that change it while its write
    lock is held: staging a registration, answering a heartbeat, and ending a
    database write by committing or rolling back. */
module PeerModel {
  import opened Clock
  import opened Values

  type Id = string

  /** A socket address. The address part is kept as canonical text, which is how
      `info.ip` stores it, so comparing texts is comparing addresses. */
  datatype Addr = Addr(ip: string, port: nat)

  const UNSPECIFIED := Addr("0.0.0.0", 0)
  const DEPLOYMENT_VERIFICATION_CACHE_SECS: nat := 30

  predicate IsLoopback(ip: string) {
    "127." <= ip || ip == "::1"
  }

  datatype Peer = Peer(
    socketAddr: Addr,
    lastReg: Time,
    lastAccess: Time,
    guid: Bytes,
    uuid: Bytes,
    pk: Bytes,
    inProgress: bool,
    verifiedAt: Option<Time>,
    ip: string,
    regCount: nat,
    regAt: Time)

  /** One hour ago, or now when the clock has not run that long. */
  function ExpiredTime(now: Time): Time {
    if now >= 3600 * SEC then now - 3600 * SEC else now
  }

  function DefaultPeer(now: Time): Peer {
    Peer(UNSPECIFIED, ExpiredTime(now), now, [], [], [], false, None, "", 0, ExpiredTime(now))
  }

  /** What a failed write puts back. */
  datatype Rollback = Rollback(
    socketAddr: Addr,
    lastReg: Time,
    uuid: Bytes,
    pk: Bytes,
    ip: string,
    verifiedAt: Option<Time>)

  datatype Stage =
    | Busy
    | UuidMismatch
    | TooFrequent
    | Unchanged
    | Persist(guid: Bytes, rollback: Rollback, ip: string, ipChanged: bool)

  datatype Staged = Staged(peer: Peer, stage: Stage)

  /** The identity checks that come before the registration counter is touched. */
  predicate IdentityRefused(p: Peer, uuid: Bytes, pk: Bytes, ip: string, managed: bool) {
    p.uuid != [] && !managed && (p.uuid != uuid || (p.ip != ip && p.pk != pk))
  }

  /** The registration as `stage_peer_registration` leaves the peer. */
  function StagePeer(p: Peer, addr: Addr, uuid: Bytes, pk: Bytes, managed: bool, now: Time): Staged {
    if p.inProgress then
      Staged(p, Busy)
    else if IdentityRefused(p, uuid, pk, addr.ip, managed) then
      Staged(p, UuidMismatch)
    else
      var stale := AsSecs(Elapsed(now, p.regAt)) > 6;
      if !stale && p.regCount > 2 then
        Staged(p, TooFrequent)
      else
        var q := p.(regCount := (if stale then 0 else p.regCount) + 1, regAt := now);
        var ipChanged := p.uuid != [] && p.ip != addr.ip;
        if !(p.uuid == [] || p.uuid != uuid || p.pk != pk || ipChanged) then
          Staged(q, Unchanged)
        else
          Staged(
            q.(socketAddr := addr, lastReg := now, uuid := uuid, pk := pk, ip := addr.ip, inProgress := true),
            Persist(p.guid, Rollback(p.socketAddr, p.lastReg, p.uuid, p.pk, p.ip, p.verifiedAt), addr.ip, ipChanged))
  }

  datatype Beaten = Beaten(peer: Peer, requestPk: bool)

  predicate IpChange(p: Peer, addr: Addr) {
    (if p.socketAddr.port != 0 then addr.ip != p.socketAddr.ip else addr.ip != p.ip) && !IsLoopback(addr.ip)
  }

  predicate VerificationExpired(p: Peer, unmanaged: bool, now: Time) {
    !unmanaged
    && (p.verifiedAt.None?
        || AsSecs(Elapsed(now, p.verifiedAt.value)) >= DEPLOYMENT_VERIFICATION_CACHE_SECS)
  }

  /** A heartbeat as `register_peer_common` answers it. */
  function BeatPeer(p: Peer, addr: Addr, unmanaged: bool, now: Time): Beaten {
    if p.pk == [] || IpChange(p, addr) || VerificationExpired(p, unmanaged, now) then
      Beaten(p, true)
    else
      Beaten(p.(socketAddr := addr, lastReg := now), false)
  }

  /** A write that reached the database. */
  function CommitPeer(p: Peer, guid: Bytes, managed: bool, now: Time): Peer {
    var q := p.(guid := guid, inProgress := false);
    if managed then q.(verifiedAt := Some(now)) else q
  }

  /** A write that failed. */
  function RollBackPeer(p: Peer, r: Rollback): Peer {
    p.(socketAddr := r.socketAddr, lastReg := r.lastReg, uuid := r.uuid, pk := r.pk, ip := r.ip,
       verifiedAt := r.verifiedAt, inProgress := false)
  }

  /** The fields a failed registration promises to leave as they were. */
  predicate SameRegistration(a: Peer, b: Peer) {
    && a.guid == b.guid && a.uuid == b.uuid && a.pk == b.pk && a.ip == b.ip
    && a.socketAddr == b.socketAddr && a.lastReg == b.lastReg && a.verifiedAt == b.verifiedAt
  }

  /** A recorded socket address lies at the address stored with the identity. */
  predicate AddrOk(p: Peer) {
    p.socketAddr.port != 0 ==> p.socketAddr.ip == p.ip
  }
}
