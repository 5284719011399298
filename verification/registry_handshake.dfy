/** The registration handshake: once a registration is answered with success, exactly
    which heartbeats of the device are accepted without another key exchange. */
module RegistryHandshake {
  import opened Clock
  import opened PeerModel
  import opened Registry
  import opened RegistryAddresses
  import opened RegistryCoherence
  import opened RegistryFrame
  import opened RegistryInv
  import opened RegistryReload
  import opened RegistryStaging
  import opened RegistryTheorems
  import opened Values

  // ----- the object that was registered -----

  /** The object is stored, with a key and this address, and nothing is being written. */
  ghost predicate Settled(s: State, h: Handle, ip: string) {
    && h.serial < s.nextSerial
    && (h in s.heap ==>
          && s.heap[h].guid != [] && s.heap[h].pk != [] && s.heap[h].ip == ip
          && AddrOk(s.heap[h]) && !s.heap[h].inProgress)
  }

  /** The deployment was verified at `at` or later, where that is asked for. */
  ghost predicate VerifiedSince(s: State, h: Handle, at: Time) {
    h in s.heap && !s.unmanaged ==> s.heap[h].verifiedAt.Some? && s.heap[h].verifiedAt.value >= at
  }

  lemma SettledPeerStep(s: State, step: Step, h: Handle, ip: string, at: Time)
    requires Enabled(s, step) && QuietFor(s, step, h.id) && h in s.heap && Settled(s, h, ip)
    requires step.Touch? || step.Beat? || step.Verify?
    ensures Settled(Apply(s, step), h, ip)
    ensures VerifiedSince(s, h, at) && at <= s.now ==> VerifiedSince(Apply(s, step), h, at)
  {
  }

  lemma SettledFrame(s: State, step: Step, s': State, h: Handle, ip: string, at: Time)
    requires Enabled(s, step) && Framed(s, step, s') && (h in s.heap ==> !Changes(s, step, h)) && Settled(s, h, ip)
    ensures Settled(s', h, ip) && (VerifiedSince(s, h, at) ==> VerifiedSince(s', h, at))
  {
  }

  /** A write that ends would be a write under way on a peer not being written. */
  lemma QuietElsewhere(s: State, step: Step, h: Handle)
    requires Inv(s) && Enabled(s, step) && QuietFor(s, step, h.id) && h in s.heap && !s.heap[h].inProgress
    requires !step.Touch? && !step.Beat? && !step.Verify?
    ensures !Changes(s, step, h)
  {
    assert step.Finish? ==> TaskOk(s, s.tasks[step.t]);
  }

  lemma SettledStep(s: State, step: Step, h: Handle, ip: string, at: Time)
    requires Inv(s) && Enabled(s, step) && QuietFor(s, step, h.id) && Settled(s, h, ip)
    ensures Settled(Apply(s, step), h, ip)
    ensures VerifiedSince(s, h, at) && at <= s.now ==> VerifiedSince(Apply(s, step), h, at)
  {
    if step.Restart? {
    } else if h in s.heap && (step.Touch? || step.Beat? || step.Verify?) {
      SettledPeerStep(s, step, h, ip, at);
    } else {
      if h in s.heap {
        QuietElsewhere(s, step, h);
      }
      StepFrame(s, step);
      SettledFrame(s, step, Apply(s, step), h, ip, at);
    }
  }

  lemma SettledAt(run: seq<State>, steps: seq<Step>, k: nat, h: Handle, ip: string, at: Time)
    requires IsRun(run, steps) && k < |steps| && QuietAt(run, steps, k, h.id) && Settled(run[k], h, ip)
    ensures Settled(run[k + 1], h, ip)
    ensures VerifiedSince(run[k], h, at) && at <= run[k].now ==> VerifiedSince(run[k + 1], h, at)
  {
    RunInv(run, steps, k);
    assert StepAt(run, steps, k);
    SettledStep(run[k], steps[k], h, ip, at);
  }

  lemma {:induction false} RunSettled(run: seq<State>, steps: seq<Step>, m: nat, j: nat, h: Handle, ip: string, at: Time)
    requires IsRun(run, steps) && m <= j <= |steps| && QuietRun(run, steps, m, j, h.id) && Settled(run[m], h, ip)
    ensures Settled(run[j], h, ip)
    ensures VerifiedSince(run[m], h, at) && at <= run[m].now ==> VerifiedSince(run[j], h, at)
    decreases j
  {
    if m < j {
      RunSettled(run, steps, m, j - 1, h, ip, at);
      ClockRuns(run, steps, m, j - 1);
      assert QuietAt(run, steps, j - 1, h.id);
      SettledAt(run, steps, j - 1, h, ip, at);
    }
  }

  // ----- the heartbeat -----

  /** Step j answers a heartbeat of this id from this address. */
  ghost predicate HeartbeatAt(run: seq<State>, steps: seq<Step>, j: nat, id: Id, ip: string)
    requires |run| == |steps| + 1 && j < |steps|
  {
    && Enabled(run[j], steps[j]) && HeartbeatReply(run[j], steps[j]).Some?
    && IsHeartbeatOf(run[j].tasks[steps[j].t], id, ip)
  }

  /** The heartbeat was answered by a peer the lookup had found or loaded. */
  ghost predicate MetPeer(run: seq<State>, steps: seq<Step>, j: nat, h: Handle)
    requires |run| == |steps| + 1 && j < |steps| && Enabled(run[j], steps[j])
  {
    steps[j].Beat? && run[j].tasks[steps[j].t].h == h
  }

  /** The answer asks for no key, and the peer records the address and the time. */
  ghost predicate AcceptedAt(run: seq<State>, steps: seq<Step>, j: nat)
    requires |run| == |steps| + 1 && j < |steps| && Enabled(run[j], steps[j])
  {
    && HeartbeatReply(run[j], steps[j]) == Some(false)
    && var h, addr := run[j].tasks[steps[j].t].h, run[j].tasks[steps[j].t].purpose.addr;
       h in run[j + 1].heap && run[j + 1].heap[h].socketAddr == addr && run[j + 1].heap[h].lastReg == run[j].now
  }

  /** The peer was answered with success: its cached object is settled and verified. */
  ghost predicate Ready(s: State, h: Handle, ip: string, at: Time) {
    Current(s, h) && Settled(s, h, ip) && VerifiedSince(s, h, at) && at <= s.now
  }

  /** The verification is still valid, where that is asked for. */
  ghost predicate InTime(s: State, at: Time) {
    s.unmanaged || Elapsed(s.now, at) < DEPLOYMENT_VERIFICATION_CACHE_SECS * SEC
  }

  lemma MetIsCurrent(run: seq<State>, steps: seq<Step>, j: nat, cur: Handle)
    requires IsRun(run, steps) && j < |steps| && Enabled(run[j], steps[j]) && MetPeer(run, steps, j, cur)
    ensures Current(run[j], cur)
  {
    RunInv(run, steps, j);
    assert TaskOk(run[j], run[j].tasks[steps[j].t]);
  }

  /** On the object that was registered a heartbeat is accepted. */
  lemma SameObjectAccepts(run: seq<State>, steps: seq<Step>, m: nat, j: nat, h: Handle, ip: string, at: Time)
    requires IsRun(run, steps) && m <= j < |steps| && QuietRun(run, steps, m, j, h.id) && Ready(run[m], h, ip, at)
    requires HeartbeatAt(run, steps, j, h.id, ip) && MetPeer(run, steps, j, h) && InTime(run[j], at)
    ensures AcceptedAt(run, steps, j) && h in run[j].heap && run[j].heap[h].pk != []
  {
    assert StepAt(run, steps, j);
    RunSettled(run, steps, m, j, h, ip, at);
  }

  /** An object made since is blank. */
  lemma NewObjectBlank(run: seq<State>, steps: seq<Step>, m: nat, j: nat, h: Handle, ip: string, at: Time, cur: Handle)
    requires IsRun(run, steps) && m <= j < |steps| && QuietRun(run, steps, m, j, h.id) && Ready(run[m], h, ip, at)
    requires cur in run[j].heap && cur.id == h.id && cur.serial >= run[m].nextSerial
    ensures NewObjects(run[m], h.id, run[m].nextSerial) && Blank(run[j].heap[cur])
  {
    RunInv(run, steps, m);
    NothingNew(run[m], h);
    RunNew(run, steps, m, j, h.id, run[m].nextSerial);
  }

  /** The row of a ready peer. */
  lemma ReadyRow(run: seq<State>, steps: seq<Step>, m: nat, h: Handle, ip: string, at: Time)
    requires IsRun(run, steps) && m <= |steps| && Ready(run[m], h, ip, at) && NoStale(run, steps, m, h.id)
    ensures var p := run[m].heap[h]; p.guid != [] && RowIs(run[m], h.id, p.guid, p.uuid, p.pk, ip)
  {
    RunCoh(run, steps, m, h.id);
  }

  /** An object made since from an unchanged row has the address of the registration. */
  lemma NewObjectRow(run: seq<State>, steps: seq<Step>, m: nat, j: nat, h: Handle, ip: string, at: Time, cur: Handle)
    requires IsRun(run, steps) && m <= j < |steps| && QuietRun(run, steps, m, j, h.id) && Ready(run[m], h, ip, at)
    requires Current(run[j], cur) && cur.id == h.id && cur.serial >= run[m].nextSerial
    requires NoStale(run, steps, m, h.id) && NoStale(run, steps, j, h.id) && run[j].heap[cur].pk != []
    ensures run[j].heap[cur].ip == ip
  {
    NewObjectBlank(run, steps, m, j, h, ip, at, cur);
    ReadyRow(run, steps, m, h, ip, at);
    var g := run[m].heap[h].guid;
    RunRow(run, steps, m, j, h.id, run[m].nextSerial, g, run[m].db[g]);
    RunCoh(run, steps, j, h.id);
    RunInv(run, steps, j);
    assert RowIs(run[j], h.id, run[j].heap[cur].guid, run[j].heap[cur].uuid, run[j].heap[cur].pk, run[j].heap[cur].ip);
  }

  lemma BlankAnswers(run: seq<State>, steps: seq<Step>, j: nat, id: Id, ip: string, cur: Handle)
    requires IsRun(run, steps) && j < |steps| && HeartbeatAt(run, steps, j, id, ip) && MetPeer(run, steps, j, cur)
    requires Blank(run[j].heap[cur])
    ensures !run[j].unmanaged ==> !AcceptedAt(run, steps, j)
    ensures run[j].heap[cur].pk == [] ==> !AcceptedAt(run, steps, j)
    ensures run[j].unmanaged && run[j].heap[cur].pk != [] && run[j].heap[cur].ip == ip ==> AcceptedAt(run, steps, j)
  {
    assert StepAt(run, steps, j);
  }

  /** A lookup ends without a peer only when the id is not in the map and the cache is
      full: the row of a ready peer does not go away. */
  lemma NoPeerMeansFull(run: seq<State>, steps: seq<Step>, m: nat, j: nat, h: Handle, ip: string, at: Time)
    requires IsRun(run, steps) && m <= j < |steps| && Ready(run[m], h, ip, at)
    requires HeartbeatAt(run, steps, j, h.id, ip) && !steps[j].Beat?
    ensures steps[j].CacheFinal? && h.id !in run[j].cache && |run[j].cache| >= run[j].cap
    ensures HeartbeatReply(run[j], steps[j]) == Some(true)
  {
    RunInv(run, steps, m);
    assert PeerOk(run[m], h);
    RunTable(run, steps, m, j);
    assert run[m].heap[h].guid in run[j].db;
  }

  /** The lookup ended with a peer that has a key. */
  ghost predicate MetKey(run: seq<State>, steps: seq<Step>, j: nat)
    requires |run| == |steps| + 1 && j < |steps| && Enabled(run[j], steps[j])
  {
    steps[j].Beat? && run[j].heap[run[j].tasks[steps[j].t].h].pk != []
  }

  /** What a heartbeat meets after a peer was answered with success. */
  ghost predicate Outcome(run: seq<State>, steps: seq<Step>, m: nat, j: nat, id: Id)
    requires |run| == |steps| + 1 && j < |steps| && Enabled(run[j], steps[j])
  {
    && (!TakenOut(run, m, j, id) ==> AcceptedAt(run, steps, j))
    && (!run[j].unmanaged ==> (AcceptedAt(run, steps, j) <==> !TakenOut(run, m, j, id)))
    && (run[j].unmanaged && NoStale(run, steps, j, id) ==> (AcceptedAt(run, steps, j) <==> MetKey(run, steps, j)))
  }

  lemma PeerOutcome(run: seq<State>, steps: seq<Step>, m: nat, j: nat, h: Handle, ip: string, at: Time, cur: Handle)
    requires IsRun(run, steps) && m <= j < |steps| && Ready(run[m], h, ip, at) && QuietRun(run, steps, m, j, h.id)
    requires HeartbeatAt(run, steps, j, h.id, ip) && InTime(run[j], at) && MetPeer(run, steps, j, cur)
    ensures Outcome(run, steps, m, j, h.id)
  {
    MetIsCurrent(run, steps, j, cur);
    RunSlot(run, steps, m, j, h);
    if !TakenOut(run, m, j, h.id) {
      SameObjectAccepts(run, steps, m, j, h, ip, at);
    } else {
      NewObjectBlank(run, steps, m, j, h, ip, at, cur);
      BlankAnswers(run, steps, j, h.id, ip, cur);
      if NoStale(run, steps, j, h.id) && run[j].heap[cur].pk != [] {
        NewObjectRow(run, steps, m, j, h, ip, at, cur);
      }
    }
  }

  lemma HeartbeatOutcome(run: seq<State>, steps: seq<Step>, m: nat, j: nat, h: Handle, ip: string, at: Time)
    requires IsRun(run, steps) && m <= j < |steps| && Ready(run[m], h, ip, at) && QuietRun(run, steps, m, j, h.id)
    requires HeartbeatAt(run, steps, j, h.id, ip) && InTime(run[j], at)
    ensures Outcome(run, steps, m, j, h.id)
  {
    if steps[j].Beat? {
      PeerOutcome(run, steps, m, j, h, ip, at, run[j].tasks[steps[j].t].h);
    } else {
      NoPeerMeansFull(run, steps, m, j, h, ip, at);
      RunSlot(run, steps, m, j, h);
    }
  }

  // ----- what a successful registration establishes -----

  lemma CommitReady(s: State, t: nat)
    requires Inv(s) && Enabled(s, Finish(t)) && s.tasks[t].result.Some? && AddrOk(s.heap[s.tasks[t].job.h])
    ensures Ready(Apply(s, Finish(t)), s.tasks[t].job.h, s.tasks[t].job.ip, s.now)
  {
    assert TaskOk(s, s.tasks[t]);
  }

  /** A registration of the object from this address was written at step i. */
  ghost predicate WrittenAt(run: seq<State>, steps: seq<Step>, i: nat, h: Handle, ip: string)
    requires |run| == |steps| + 1 && i < |steps|
  {
    && Enabled(run[i], steps[i]) && steps[i].Finish? && run[i].tasks[steps[i].t].result.Some?
    && run[i].tasks[steps[i].t].job.h == h && run[i].tasks[steps[i].t].job.ip == ip
  }

  lemma WrittenReady(run: seq<State>, steps: seq<Step>, i: nat, h: Handle, ip: string)
    requires IsRun(run, steps) && i < |steps| && WrittenAt(run, steps, i, h, ip)
    requires UnmovedSinceStaging(run, steps, i, steps[i].t, h.id)
    ensures Ready(run[i + 1], h, ip, run[i].now)
  {
    RunInv(run, steps, i);
    assert StepAt(run, steps, i);
    StagedAddr(run, steps, i, steps[i].t);
    CommitReady(run[i], steps[i].t);
  }

  /** A registration was written at step i, and a heartbeat from the same address is
      answered at step j, in time for the verification, with no registration of the
      peer since it was written and no accepted loopback heartbeat since it was staged.
      With a management server the heartbeat is accepted if and only if neither an
      eviction nor a restart took the peer out of the map in between. Without one it is
      accepted in that case, too, and in all cases, if no changed row was cached, if and
      only if its lookup ended with a peer that has a key. */
  lemma ConvergesAfterWrite(run: seq<State>, steps: seq<Step>, i: nat, j: nat, h: Handle, ip: string)
    requires IsRun(run, steps) && i < j < |steps| && WrittenAt(run, steps, i, h, ip)
    requires UnmovedSinceStaging(run, steps, i, steps[i].t, h.id) && QuietRun(run, steps, i + 1, j, h.id)
    requires HeartbeatAt(run, steps, j, h.id, ip) && InTime(run[j], run[i].now)
    ensures Outcome(run, steps, i + 1, j, h.id)
  {
    WrittenReady(run, steps, i, h, ip);
    HeartbeatOutcome(run, steps, i + 1, j, h, ip, run[i].now);
  }

  /** A registration of the object from this address found nothing to change at step i. */
  ghost predicate UnchangedAt(run: seq<State>, steps: seq<Step>, i: nat, h: Handle, ip: string)
    requires |run| == |steps| + 1 && i < |steps|
  {
    && Enabled(run[i], steps[i]) && steps[i].StageStep? && run[i].tasks[steps[i].t].h == h
    && var pu := run[i].tasks[steps[i].t].purpose;
       pu.addr.ip == ip
       && StagePeer(run[i].heap[h], pu.addr, pu.uuid, pu.pk, !run[i].unmanaged, run[i].now).stage.Unchanged?
  }

  lemma UnchangedSettles(s: State, t: nat, h: Handle)
    requires Inv(s) && KeyedInv(s) && AddrAgrees(s, h.id) && Enabled(s, StageStep(t)) && s.tasks[t].h == h
    requires var pu := s.tasks[t].purpose;
      StagePeer(s.heap[h], pu.addr, pu.uuid, pu.pk, !s.unmanaged, s.now).stage.Unchanged?
    ensures var s' := Apply(s, StageStep(t));
      Current(s', h) && Settled(s', h, s.tasks[t].purpose.addr.ip) && s'.now == s.now && s'.unmanaged == s.unmanaged
  {
    assert TaskOk(s, s.tasks[t]);
  }

  lemma UnchangedSettlesAt(run: seq<State>, steps: seq<Step>, i: nat, h: Handle, ip: string)
    requires IsRun(run, steps) && i < |steps| && UnchangedAt(run, steps, i, h, ip) && AddrAgrees(run[i], h.id)
    ensures Current(run[i + 1], h) && Settled(run[i + 1], h, ip)
    ensures run[i + 1].now == run[i].now && run[i + 1].unmanaged == run[i].unmanaged
  {
    RunInv(run, steps, i);
    assert StepAt(run, steps, i);
    RunKeyed(run, steps, i);
    UnchangedSettles(run[i], steps[i].t, h);
  }

  lemma VerifyReady(run: seq<State>, steps: seq<Step>, m: nat, h: Handle, ip: string)
    requires IsRun(run, steps) && m < |steps| && Settled(run[m + 1], h, ip)
    requires Enabled(run[m], steps[m]) && steps[m].Verify? && run[m].tasks[steps[m].t].h == h
    ensures Ready(run[m + 1], h, ip, run[m].now)
  {
    RunInv(run, steps, m);
    assert StepAt(run, steps, m);
    assert TaskOk(run[m], run[m].tasks[steps[m].t]);
  }

  /** The step at which the registration of step i is answered: the same one without a
      management server, otherwise the one that records the verification. */
  ghost predicate AnsweredAt(run: seq<State>, steps: seq<Step>, i: nat, m: nat, h: Handle)
    requires |run| == |steps| + 1 && i < |steps| && m < |steps| && steps[i].StageStep?
  {
    if run[i].unmanaged then m == i
    else i < m && Enabled(run[m], steps[m]) && steps[m] == Verify(steps[i].t) && run[m].tasks[steps[i].t].h == h
  }

  lemma UnchangedReady(run: seq<State>, steps: seq<Step>, i: nat, m: nat, h: Handle, ip: string)
    requires IsRun(run, steps) && i <= m < |steps| && UnchangedAt(run, steps, i, h, ip) && AnsweredAt(run, steps, i, m, h)
    requires AddrAgrees(run[i], h.id) && QuietRun(run, steps, i + 1, m + 1, h.id)
    ensures Ready(run[m + 1], h, ip, run[m].now)
  {
    UnchangedSettlesAt(run, steps, i, h, ip);
    if i < m {
      RunSettled(run, steps, i + 1, m + 1, h, ip, 0);
      VerifyReady(run, steps, m, h, ip);
    }
  }

  /** The same after a registration that found nothing to change at step i, with the
      recorded address at the stored one, and was answered at step m. */
  lemma ConvergesAfterUnchanged(run: seq<State>, steps: seq<Step>, i: nat, m: nat, j: nat, h: Handle, ip: string)
    requires IsRun(run, steps) && i <= m < j < |steps| && UnchangedAt(run, steps, i, h, ip) && AnsweredAt(run, steps, i, m, h)
    requires AddrAgrees(run[i], h.id) && QuietRun(run, steps, i + 1, j, h.id)
    requires HeartbeatAt(run, steps, j, h.id, ip) && InTime(run[j], run[m].now)
    ensures Outcome(run, steps, m + 1, j, h.id)
  {
    UnchangedReady(run, steps, i, m, h, ip);
    HeartbeatOutcome(run, steps, m + 1, j, h, ip, run[m].now);
  }
}
