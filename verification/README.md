# Verification of the rendezvous and relay server

A Dafny 4.11 model of the server's small concurrent protocols: peer registration over
a bounded cache and a database, rendezvous tokens and reply channels, relay pairing
and accounting, the request limiter, key creation, the punch-request log and the
online bitmap. Every protocol is a state machine whose steps are the regions of code
that run under one lock or inside one database or file-system call. A run is a
sequence of states joined by such steps, from any number of tasks or processes in any
order, and the main theorems are about every run. Code that changes a table or an
object in place is also written as a method of a class and proved against the step it
belongs to.

`dafny verify dfyconfig.toml` checks the whole project.

| file | subject |
|---|---|
| `values.dfy`, `clock.dfy` | shared values, the monotone clock |
| `peer.dfy`, `peer_answers.dfy` | one peer: staging, heartbeat, commit, rollback; which requests it accepts |
| `registry.dfy` | cache, table and tasks as a state machine |
| `registry_frame.dfy`, `registry_inv.dfy` | what a step leaves alone; the inductive invariant |
| `registry_theorems.dfy`, `registry_eviction.dfy` | stored identities, rollback, eviction |
| `registry_coherence.dfy` | agreement of cache and table |
| `registry_lookup.dfy` | what lookups and registrations end with |
| `registry_identity.dfy`, `registry_registrations.dfy`, `registry_verification.dfy` | what a registration may change, how often it may come, what a heartbeat stands on |
| `registry_addresses.dfy`, `registry_reload.dfy`, `registry_staging.dfy`, `registry_handshake.dfy` | recorded addresses; registration followed by heartbeat |
| `registry_witnesses.dfy`, `registry_forgotten.dfy`, `registry_takeover.dfy` | runs that break what holds only under a condition |
| `peer_ops.dfy` | the locked regions statement by statement |
| `tokens.dfy`, `sinks.dfy` | rendezvous tokens, reply channels |
| `relay_pairing.dfy`, `relay_table.dfy`, `relay_loop.dfy` | pairing and permits, the waiting table, one session |
| `limiter.dfy`, `limiter_rate.dfy`, `limiter_fair.dfy` | the request limiter and its two bounds |
| `keys.dfy`, `keys_stale.dfy`, `keys_alone.dfy` | racing key creation |
| `punch_log.dfy`, `online.dfy` | the punch-request log, the online bitmap |

Some properties one would expect of the code hold only under a condition. For each the
project gives a run that breaks it and the condition under which it holds:

* Cache and table can come to disagree about an id: a lookup held up between reading a
  row and caching it can cache a row that has changed since
  (`RegistryWitnesses.StaleRowCanBeCached`). They agree about an id all along a run if
  and only if no lookup caches a changed row of that id
  (`RegistryCoherence.AgreementIff`), and they do agree whenever no eviction of the id
  falls between a read of its row and the insertion of what was read
  (`RegistryCoherence.CacheCoherence`).
* Without a management server a registration can change both the key and the address of a
  stored device, if it meets a peer cached from an old row
  (`RegistryTakeover.StaleRowLetsBothChange`); as long as no changed row of the device was
  cached it never does (`RegistryIdentity.KeyOrAddressStays`).
* A lookup does not always protect a peer from eviction: one that misses at first and
  then meets the peer in the map leaves its access time as it was, and the peer can be
  evicted in the instant it is released (`RegistryWitnesses.UnrefreshedPeerCanVanish`).
  Which candidates a round takes out is stated exactly in
  `RegistryEviction.EvictedIff`.
* A heartbeat soon after a successful registration can be asked for the key again. With a
  management server that happens if and only if the peer was taken out of the map in
  between (`RegistryForgotten.SlowWriteIsForgotten`); without one, if no changed row was
  cached, if and only if the heartbeat's lookup ended without a peer, as it does when the
  cache is full (`RegistryForgotten.FullCacheIsAsked`), or with a default peer, which has
  no key (`RegistryForgotten.DefaultPeerIsAsked`). Both conditions are in
  `RegistryHandshake.ConvergesAfterWrite`. A registration that changes nothing leaves the
  recorded address where a loopback heartbeat may have moved it, and then helps nothing
  (`RegistryForgotten.MovedPeerIsAsked`).
* A recorded socket address can leave the stored address
  (`RegistryWitnesses.LoopbackCanMove`). It stays there all along a run if and only if no
  heartbeat from another, loopback, address was accepted
  (`RegistryAddresses.AddressesAgreeIff`).
* Two racing processes can end with a success and no public key file
  (`KeysStale.StaleFileCanVanish`). That is impossible, as long as comparisons can read
  the file, if and only if the file was absent or matching at first
  (`KeysStale.PublicSafeIff`); one comparison that cannot read a matching file is enough
  to remove it (`KeysStale.FailedReadCanRemove`).

## Model

| member | source | states |
|---|---|---|
| RegistryTheorems.StoredIdentityIsPermanent | src/rendezvous_server.rs:1051-1121 | Once an id has a row, every later state of every run has one row for it, with the same guid and, without a management server, the same uuid, across registrations, failed writes, rollbacks, evictions, reloads and restarts. |
| RegistryTheorems.RunTable | src/database.rs:105-141 | Between any two states of a run no row disappears or changes its id; unmanaged rows keep their uuid. |
| RegistryInv.WriteTable | src/database.rs:105-141 | An insert or update leaves guids and ids unique, changes only rows of the writing peer's id, changes nothing on failure, and on success leaves exactly the staged identity under the returned guid. |
| RegistryIdentity.WriteSucceedsIff | src/database.rs:105-141 | A write succeeds if and only if the database does not fail and it updates a stored row, or draws an unused guid while no row has the id. |
| RegistryIdentity.KeyOrAddressStays | src/rendezvous_server.rs:303-312 | In every run without a management server in which no changed row of a device was cached, no step changes its row's uuid, nor both its key and its ip. |
| RegistryTakeover.StaleRowLetsBothChange | src/rendezvous_server.rs:303-312 | A run in which a registration that meets a peer cached from an old row changes both. |
| RegistryRegistrations.FourTakeSevenSeconds | src/rendezvous_server.rs:314-323 | In every run, of any four registrations of a cached peer that are let through, the last comes at least 7 s after the first. |
| RegistryRegistrations.RefusalIsEarned | src/rendezvous_server.rs:314-323 | In every run, a registration refused as too frequent follows three of the same cached peer that were let through, each less than 7 s after the one before and the last less than 7 s ago. |
| RegistryVerification.AcceptedIsVerified | src/rendezvous_server.rs:966-975 | In every run with a management server, an accepted heartbeat meets an object that a successful registration verified less than 30 s before. |
| RegistryLookup.LookupEndsIff | src/peer.rs:239-317 | Exactly when a lookup ends without a peer: only memory was asked and has none, the database failed, no row unless a registration looks, or no room even after an eviction unless a registration can still fall back to a default peer. |
| RegistryLookup.LookupHoldsIff | src/peer.rs:287-317 | A lookup that has read the table gets a peer if and only if the map has one by then or has room, and it is the map's own: the one that was there or a new object with what was read. |
| RegistryLookup.LookupGoesOn | src/peer.rs:270-317 | Otherwise it makes room, or a registration starts over with a default peer. |
| RegistryLookup.AnsweredWithoutPeerIff | src/rendezvous_server.rs:958-987 | A heartbeat is answered with a key request without a peer if and only if its lookup ends without one and the database did not fail. |
| RegistryLookup.StageOutcome | src/rendezvous_server.rs:1051-1100 | A registration with news spawns one write of what it brought; one without is verified first where there is a management server; every other ends. |
| RegistryInv.StepInv | src/peer.rs:239-354 | Every step of every task keeps the invariant: bounded cache, live handles are the cached objects, cached identities name their rows, one write per peer. |
| RegistryInv.RunInv | src/peer.rs:207-354 | The invariant holds in every state of every run. |
| RegistryFrame.StepFrame | src/peer.rs:239-354 | A step changes no task but its own, no peer but the one it locks, removes map entries only by eviction, and touches the table only by a database write. |
| RegistryTheorems.CacheSafety | src/peer.rs:287-354 | In every state of every run the cache is within its cap, every handle still in use is the object in the map, a peer is marked as being written exactly when a write on it is under way, and there is at most one. |
| RegistryTheorems.EvictionSafety | src/peer.rs:319-354 | An entry leaves the map only if no task but the evicting one holds it, it is the object the snapshot saw, no write is under way on it, it was not looked up for the idle time of at least 60 s, and, unless it registered after the inspection, it has not registered for 60 s. |
| RegistryEviction.EvictedIff | src/peer.rs:319-354 | An entry is taken out by the round that inspected it if and only if it was idle at the inspection, not looked up for the idle time nor registered for 60 s, and at the removal no other task holds it, its lock is free, and no lookup has refreshed it since; a registration since then protects it only through such a lookup. |
| RegistryEviction.HeldPeerStays | src/peer.rs:336-348 | A removal round never takes out an object that another task may still use, however it came by it. |
| RegistryEviction.OnlyFirstLookRefreshes | src/peer.rs:239-317 | No step but a lookup's first look at the map changes the access time of an object. |
| RegistryTheorems.RefreshedPeerStays | src/peer.rs:239-285 | A peer found at a lookup's first look at the map, and so refreshed, is not evicted for 60 s after it, however lookups and evictions interleave. |
| RegistryWitnesses.UnrefreshedPeerCanVanish | src/peer.rs:287-298 | A run in which a lookup meets the peer at its second look and an eviction takes the peer out at the same instant. |
| RegistryInv.RemovedIsIdle | src/peer.rs:336-348 | What the removal test establishes about the entry in any state that satisfies the invariant. |
| RegistryTheorems.RollbackIsExact | src/rendezvous_server.rs:1110-1119 | Whatever runs between the staging of a registration and the end of its failed write, the peer ends with the guid, uuid, key, ip, socket address, registration time and verification time it had before. |
| RegistryCoherence.StepCoh | src/peer.rs:239-317 | For each id, every step but the caching of a changed row of that id keeps cache, loaders and writes under way in agreement with the table. |
| RegistryCoherence.CacheCoherence | src/rendezvous_server.rs:1080-1121 | In a run in which no eviction of an id falls between a read of its row and the insertion of what was read, a stored cached peer of that id that is not being written equals its row; while it is being written the row is the identity before staging or the staged one. |
| RegistryCoherence.AgreementIff | src/peer.rs:239-317 | For each id, cache and table agree in all states of a run if and only if no step caches a row of that id that has changed since it was read. |
| RegistryCoherence.StaleNeedsEviction | src/peer.rs:239-354 | The first caching of a changed row of an id comes after an eviction of that id since the row was read. |
| RegistryWitnesses.StaleRowCanBeCached | src/peer.rs:249-266 | For every stored device that changes its key there is a run that ends with a cached peer that differs from its row. |
| RegistryHandshake.ConvergesAfterWrite | src/rendezvous_server.rs:952-1006 | Every answered heartbeat from the same ip after a registration whose write succeeded, with no other registration of the peer since the write, no accepted loopback heartbeat from another ip since its staging, and, with a management server, less than 30 s after the write: with a management server it is accepted, and records its address and time, if and only if neither an eviction nor a restart took the peer out of the map in between; without one it is accepted in that case too, and, if no changed row of the id was cached, if and only if its lookup ended with a peer that has a key. |
| RegistryHandshake.ConvergesAfterUnchanged | src/rendezvous_server.rs:1072-1079 | The same after a registration that found nothing to change while the recorded address had the stored ip. |
| RegistryHandshake.NoPeerMeansFull | src/peer.rs:306-314 | After a successful registration a heartbeat's lookup ends without a peer only if the id is not in the map and the cache is full; the answer then asks for the key. |
| RegistryStaging.StagedAddr | src/rendezvous_server.rs:336-357 | A peer whose write is under way has its recorded address at the stored ip, unless a loopback heartbeat was accepted since the staging. |
| RegistryReload.RunSlot | src/peer.rs:287-354 | An object taken out of the map never comes back: the entry of its id is afterwards absent or an object made later. |
| RegistryReload.RunNew | src/peer.rs:251-264 | While nobody registers an id, every object made for it stays unverified and as its row, or the default, made it. |
| RegistryForgotten.SlowWriteIsForgotten | src/rendezvous_server.rs:1087-1109 | With a management server, a run in which a heartbeat 25 s after a successful registration, from the same ip, is asked for the key because the peer was evicted in between. |
| RegistryForgotten.FullCacheIsAsked | src/peer.rs:306-314 | Without a management server, a run in which a registered device's next heartbeat finds the cache full and is asked for the key its row holds. |
| RegistryForgotten.DefaultPeerIsAsked | src/peer.rs:270-276 | Without a management server, a run in which a registered device's next heartbeat meets a default peer that another registration has cached, and is asked for the key its row holds. |
| RegistryForgotten.MovedPeerIsAsked | src/rendezvous_server.rs:961-974 | A run in which a device moved to loopback registers again without a change, succeeds, and is asked for the key by its next heartbeat. |
| RegistryAddresses.AddressesAgreeIff | src/rendezvous_server.rs:961-1000 | For each id, the cached peer's recorded address has the stored ip in all states of a run if and only if no heartbeat of that id from another, loopback, address was accepted. |
| RegistryAddresses.BeatBreaksAddrIff | src/rendezvous_server.rs:961-974 | One heartbeat breaks that agreement exactly when it has a port, comes from loopback and not from the stored ip, and meets a peer with a key whose verification has not expired. |
| RegistryWitnesses.LoopbackCanMove | src/rendezvous_server.rs:961-974 | For every stored device elsewhere there is a run that ends with its recorded address at loopback. |
| PeerOps.PeerCell.constructor | src/peer.rs:163-195 | A new peer is the default peer. |
| PeerAnswers.NewPeerRegisters | src/peer.rs:163-195 | A default peer can be registered at once, asks for the key, counts as looked up when made and as last registered an hour before. |
| PeerAnswers.StageAnswers | src/rendezvous_server.rs:283-358 | For every peer and registration, exactly when each of the five answers is given: the unmanaged uuid and the key-or-ip rule, three registrations in 7 s, nothing new. |
| PeerAnswers.StageEffect | src/rendezvous_server.rs:283-358 | What each answer leaves behind: nothing, the counter, or the new identity with what undoes it. |
| PeerAnswers.StageKeepsIdentity | src/rendezvous_server.rs:303-312 | Without a management server a stored device keeps its uuid, and its key or its ip. |
| PeerAnswers.BeatAnswers | src/rendezvous_server.rs:958-975 | Exactly when a heartbeat is asked for the key: no key, another ip than the recorded or stored one unless loopback, or a verification missing or 30 s old; and what it changes otherwise. |
| PeerOps.PeerCell.StageRegistration | src/rendezvous_server.rs:283-358 | The statements under the peer's write lock compute the staging step: new fields and answer. |
| PeerOps.PeerCell.Heartbeat | src/rendezvous_server.rs:952-1006 | The statements under the peer's lock compute the heartbeat step. |
| PeerOps.PeerCell.EndWrite | src/rendezvous_server.rs:1097-1121 | The end of the persistence task commits or restores the peer. |
| PeerOps.CacheMap.RemoveIdle | src/peer.rs:336-353 | The loop that takes candidates out one at a time removes exactly the set the removal step removes, and counts it. |
| Tokens.ConsumeIffOpen | src/rendezvous_server.rs:123-155 | A consume succeeds if and only if the token is 32 bytes long and, in the full history, was reserved, neither consumed nor cancelled since, at most 30 s ago, for this responder, kind and requester; it returns what was reserved. |
| Tokens.ConsumeRepresents | src/rendezvous_server.rs:123-155 | Consuming keeps the table faithful to the history. |
| Tokens.SpendRepresents | src/rendezvous_server.rs:811-818 | Cancelling keeps the table faithful to the history. |
| Tokens.SweepExact | src/rendezvous_server.rs:1223-1255 | After the sweep the table holds exactly the open unexpired reservations. |
| Tokens.OneShot | src/rendezvous_server.rs:123-155 | A spent token stays unusable until it is reserved anew, whatever happens to other tokens. |
| Tokens.FirstFree | src/rendezvous_server.rs:1223-1255 | Drawing fails if and only if every drawn token is taken; otherwise the result was drawn and is free. |
| Tokens.PendingTable.constructor | src/rendezvous_server.rs:1223-1255 | The table starts faithful to the empty history. |
| Tokens.PendingTable.Reserve | src/rendezvous_server.rs:1223-1255 | Refused if and only if 10,000 unexpired reservations are open or no drawn token is free of them; otherwise exactly one reservation is added; the table stays faithful and bounded. |
| Tokens.PendingTable.ConsumeToken | src/rendezvous_server.rs:1257-1277 | The same if-and-only-if over the table in place, including the missing address and the zero port. |
| Tokens.PendingTable.Cancel | src/rendezvous_server.rs:1854-1857 | An undelivered request spends its token. |
| Sinks.SinkOwnership | src/rendezvous_server.rs:365-372 | In every run each entry belongs to an open connection whose normalised address is its key, so a connection owns at most one entry. |
| Sinks.CloseKeepsNewer | src/rendezvous_server.rs:2467-2475 | A closing connection removes no other connection's entry and leaves none of its own. |
| Sinks.ClosedIsUnreachable | src/rendezvous_server.rs:2467-2475 | After a connection closed no later state of the run has its channel in the map. |
| Sinks.SinkMap.Publish | src/rendezvous_server.rs:2409-2417 | The channel becomes the one found at the key, no other entry changes, and the map is the one the opening and the re-caching step lead to. |
| Sinks.SinkMap.TakeOnce | src/rendezvous_server.rs:1798-1833 | A one-shot send yields the channel at the address and takes out that entry only, as the sending step does. |
| Sinks.SinkMap.Withdraw | src/rendezvous_server.rs:2467-2475 | An entry goes if and only if it is at the key and is this connection's. |
| RelayPairing.StepInv | src/relay_server.rs:684-772 | Every step keeps the ownership invariant. |
| RelayPairing.RelayOwnership | src/relay_server.rs:684-752 | In every run each stream is read, waits or is relayed in at most one place; each session joins exactly two streams that gave the same uuid; each waiting entry has exactly one live timer, its own. |
| RelayPairing.RequestOutcome | src/relay_server.rs:694-728 | A stream that names a uuid is joined with the one waiting there, is dropped if and only if none waits and 4,096 streams wait or 32 of its address, and otherwise waits. |
| RelayPairing.PairingSucceeds | src/relay_server.rs:580-752 | From every state of every run with two free slots and room, two connections that name an unused uuid are accepted and joined. |
| RelayPairing.TimerTakesOwnEntry | src/relay_server.rs:761-772 | A firing timer removes its own connection's entry if that still waits, and nothing else. |
| RelayPairing.StaleTimerIsIdle | src/relay_server.rs:761-772 | A timer whose entry was taken changes nothing when it fires, however the uuid was reused since. |
| RelayPairing.DroppedForGood | src/relay_server.rs:684-752 | A stream that is in no place is never in one again. |
| RelayPairing.RelayBounds | src/relay_server.rs:580-613 | In every run at most 4,096 streams wait, at most 32 of one address; permits never exceed the slots; live streams never exceed permits plus sessions, hence twice the slots. |
| RelayTableModel.RelayTable.CountFrom | src/relay_server.rs:694-728 | The loop counts the waiting entries of an address. |
| RelayTableModel.RelayTable.Enter | src/relay_server.rs:694-728 | The locked region pairs, rejects, at 4,096 waiting streams or 32 of the address, or waits, and leaves the step's table and counter. |
| RelayTableModel.RelayTable.Expire | src/relay_server.rs:761-772 | In every server state in which the timer is a connection's, it removes that connection's own entry if that still waits and nothing else, as the timeout step does, and the result says whether it did. |
| RelayLoop.Relay | src/relay_server.rs:774-876 | The loop over mutable totals computes the recursive definition of a session, event by event. |
| RelayLoop.TurnGoesOnIff | src/relay_server.rs:797-848 | A session goes on after a wake-up if and only if no side closed, bytes came within 30 s, a non-empty chunk was sent, and no sample fell due while the address was blocked; otherwise it ends for that reason. |
| RelayLoop.EndsAtFirst | src/relay_server.rs:796-876 | A session takes the wake-ups up to the first after which it does not go on, ends there with its reason, and otherwise takes them all. |
| RelayLoop.PublishesReport | src/relay_server.rs:843-864 | What a session publishes equals a report computed from the received bytes: time, bits, speed since the last sample and the highest speed, whenever a sample falls due. |
| RelayLoop.ChargedTo | src/relay_server.rs:797-835 | A chunk is charged to the slow limiter if and only if some sample so far was over the limit or the last one found the address on the black list, otherwise to the fast one. |
| RelayLoop.RelayAccounting | src/relay_server.rs:782-875 | On every session total bits are 8 times the bytes received both ways, equal to what the fast and slow limiters were charged together and to the shared charge; in every sample total / elapsed is at most the peak; the session is downgraded if and only if some sample exceeded the threshold. |
| RelayLoop.RelayIsTransparent | src/relay_server.rs:795-833 | Each side is sent exactly the bytes the other delivered, in order, except the chunk on which a send failed. |
| RelayLoop.DowngradeIsFinal | src/relay_server.rs:854-874 | A downgrade never clears, charges the fast limiter nothing more, and the peak never falls. |
| RelayLoop.AverageBelowPeak | src/relay_server.rs:499-512 | The arithmetic that keeps a lifetime average below the peak of floored samples. |
| IpLimiter.AllowAgrees | src/peer.rs:41-82 | One request gets the answer of the limiter that never prunes, or is refused by a full table whose entries all have a running window. |
| IpLimiter.PruneRepresents | src/peer.rs:141-155 | Pruning, also with an earlier clock reading, forgets only entries that act like new ones. |
| IpLimiter.PruningIsUnobservable | src/peer.rs:41-82 | The same for every request of every run with cleanups in between. |
| IpLimiter.TableIsBounded | src/peer.rs:41-82 | In every run the table stays within its cap. |
| IpLimiter.AdmitEntry | src/peer.rs:58-82 | The statements on the entry compute its new value and the answer. |
| IpLimiter.IpBlocker.AllowRequest | src/peer.rs:41-82 | The table in place ends as the step says. |
| IpLimiter.IpBlocker.CleanUp | src/peer.rs:141-155 | An entry stays, unchanged, if and only if one of its windows was running at the clock reading; the result counts the others; and the table still stands for every limiter it stood for. |
| IpLimiterRate.RateBound | src/peer.rs:37-82 | In every run, any interval of length T admits at most 30 * (ceil(T / 60 s) + 1) requests and 300 * (ceil(T / 1 day) + 1) distinct ids per address. |
| IpLimiterFair.AnsweredByHistory | src/peer.rs:37-82 | In every run, a request not refused for room is allowed if its address never asked, and otherwise if and only if it asked fewer than 30 times in its running window and the id, or fewer than 300 ids, were admitted in its running day; count and ids of the entry are exactly those of the history. |
| IpLimiterFair.RefusalIsEarned | src/peer.rs:37-82 | In every run a refusal other than for room means the address asked at least 30 times within a minute or had at least 300 ids admitted within a day. |
| Keys.StepInv | src/common.rs:359-525 | Every step keeps temporary files private and whole once linked, and never changes an existing secret. |
| Keys.SecretOnce | src/common.rs:427-457 | The secret path is written at most once and only with a whole encoding. |
| Keys.KeyAgreement | src/common.rs:359-379 | Any two processes that succeed, at any times of any run, return the same key, the stored one. |
| Keys.PublicFile | src/common.rs:459-525 | From an absent or matching public file, in every run in which no process that found the name taken fails to read the file behind it, nobody ever removes it, it is never wrong, and after a success it holds the stored key's public half. |
| Keys.PublicNeverPartial | src/common.rs:459-525 | From any directory the public file is the one found at first or the whole public half of the stored key. |
| KeysStale.StaleFileCanVanish | src/common.rs:490-520 | From every state with a stored key and another public file there is a run, with every comparison able to read the file, to a success without a public file. |
| KeysStale.PublicSafeIff | src/common.rs:359-525 | For every directory: success implies a public file in all runs whose comparisons can read it if and only if that file was absent at first, or the public half of the stored key, or, where none is stored, of every key, or the stored key cannot be read. |
| KeysStale.FailedReadCanRemove | src/common.rs:467-520 | From every directory with a stored key and its public file there is a run in which one failed read removes the file after a success. |
| KeysAlone.AloneSucceeds | src/common.rs:359-525 | From every directory whose secret is missing or readable, a process that is alone can succeed, with the stored or the drawn key, and leaves its public file. |
| KeysAlone.ThreeTries | src/common.rs:492-521 | A process that finds the public name gone, or removed what it found there, tries again, and gives up after the third time. |
| PunchLog.RecordKeeps | src/rendezvous_server.rs:1335-1362 | One request keeps the log bounded, ordered and spaced, also when the front is dropped. |
| PunchLog.ReachableLog | src/rendezvous_server.rs:1335-1362 | Every reachable log has at most 10,000 entries in order of time, and entries for one source and target at most 30 positions apart are at least 60 s apart. |
| PunchLog.RequestIsCovered | src/rendezvous_server.rs:1335-1362 | After a request the log has an entry for its pair less than 60 s older, and only the oldest entry of a full log is ever lost. |
| PunchLog.EnteredIff | src/rendezvous_server.rs:1335-1362 | A request is entered, dropping the oldest of 10,000, if and only if none of the last 30 entries is for its source and target and less than 60 s old. |
| PunchLog.IsDuplicate | src/rendezvous_server.rs:1340-1352 | The backward scan that stops at the first match decides whether any of the last 30 entries is a recent match. |
| PunchLog.PunchRequests.constructor | src/rendezvous_server.rs:1335-1362 | The log starts empty and in order. |
| PunchLog.PunchRequests.Record | src/rendezvous_server.rs:1335-1362 | The log in place ends as the recorded log. |
| OnlineStates.BuildOnlineResponse | src/rendezvous_server.rs:1451-1471 | For n peers the answer has ceil(n / 8) bytes, bit 7 - i % 8 of byte i / 8 is set if and only if peer i is cached and registered less than 30 s ago, and padding bits are clear. |
| OnlineStates.ShiftIsMask | src/rendezvous_server.rs:1451-1471 | The masks used for setting bits are the shifts of one by 0 to 7. |

## Left out

- Cryptography, handshakes, base64, protobuf and websocket framing: keys, tokens and messages are opaque values, key encoding is a parameter whose decoding undoes its encoding, and bringing an address to IPv4 form is a parameter.
- Device verification and its HTTP calls: a registration enters the model once it is verified; the refused ones change nothing.
- HTTP proxying, URL checks, listeners, signals, configuration, logging, console commands and relay health probing.
- The syntax checks of ids, uuids and relay uuids, which are pure predicates on one string; a registration enters the model with a uuid and a key of valid length.
- The record of address changes, a bounded table kept for diagnostics whose answer only decides a log line, and the request limits of the HTTP proxy.
- Which keys the generator may draw: the model lets it draw any key.
- The registry, relay pairing and key creation are state machines on values because their steps interleave; aliasing is modelled by handles and reference counts, and the locked regions also appear as methods.
- Each locked region reads the clock once, except where the source reads it before taking the lock.
- A persistence task that panics or is aborted: a spawned write always ends in a commit or a rollback, or the process restarts.
- A failed database call changes nothing in the table.
- Symbolic links, permissions and directory syncing of the key files; no other program writes to the directory.
- RelayTableModel.RelayTable.Enter: does not model the wrap-around of the 64-bit generation counter.
- RelayLoop.RelayAccounting: does not model 64-bit wrap-around of totals nor the floating-point rounding of the downgrade test, which is stated on exact integers; the limiters' waiting times are left out and only the bits charged are counted.
