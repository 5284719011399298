/** What every lookup ends with, step by step. */
module RegistryLookup {
  import opened PeerModel
  import opened Registry
  import opened RegistryInv
  import opened Values

  /** A step of a lookup before it holds a peer, eviction excepted. */
  predicate IsLookup(step: Step) {
    step.Find? || step.ReadRow? || step.ReadFailed? || step.CacheLook? || step.CacheInsert? || step.CacheFinal?
  }

  /** A lookup in progress, as the step finds it: for which id, and for what. */
  function LookupId(task: Task): Id
    requires task.Looking? || task.Missed? || task.Caching?
  {
    if task.Caching? then task.loader.id else task.id
  }

  function LookupPurpose(task: Task): Purpose
    requires task.Looking? || task.Missed? || task.Caching?
  {
    if task.Caching? then task.loader.purpose else task.purpose
  }

  /** There is room in the cache. */
  predicate Room(s: State) {
    |s.cache| < s.cap
  }

  /** A lookup ends without a peer exactly in these cases: one that only looks into memory
      finds nothing there; the database fails; there is no row, unless a registration is
      looking; or there is no room even after an eviction, unless a registration can
      still fall back from a loaded peer to a default one. */
  lemma LookupEndsIff(s: State, step: Step)
    requires Enabled(s, step) && IsLookup(step)
    ensures var task := s.tasks[step.t]; var id, register := LookupId(task), LookupPurpose(task).Register?;
      step.t !in Apply(s, step).tasks <==>
        || (step.Find? && task.purpose.Peek? && id !in s.cache)
        || step.ReadFailed?
        || (step.ReadRow? && step.stored.None? && !register)
        || (step.CacheFinal? && id !in s.cache && !Room(s) && !(register && task.loader.fromGet))
  {
    if step.CacheLook? || step.CacheInsert? || step.CacheFinal? {
      CachingEndsIff(s, step);
    }
  }

  lemma CachingEndsIff(s: State, step: Step)
    requires Enabled(s, step) && (step.CacheLook? || step.CacheInsert? || step.CacheFinal?)
    ensures var l := s.tasks[step.t].loader;
      step.t !in Apply(s, step).tasks <==>
        step.CacheFinal? && l.id !in s.cache && !Room(s) && !(l.purpose.Register? && l.fromGet)
  {
  }

  /** A lookup that has read the table gets a peer exactly when the map has one by then or
      has room, and it is the one in the map: the one that was there, or else a new object
      with what the lookup had read. */
  lemma LookupHoldsIff(s: State, step: Step)
    requires CacheOk(s) && Enabled(s, step) && (step.CacheLook? || step.CacheInsert? || step.CacheFinal?)
    ensures var l, s' := s.tasks[step.t].loader, Apply(s, step);
      && (step.t in s'.tasks && s'.tasks[step.t].Holding? <==> l.id in s.cache || (!step.CacheLook? && Room(s)))
      && (step.t in s'.tasks && s'.tasks[step.t].Holding? ==>
            && l.id in s'.cache && s'.tasks[step.t] == Holding(s'.cache[l.id], l.purpose) && s'.cache[l.id] in s'.heap
            && if l.id in s.cache then s'.cache == s.cache && s'.heap == s.heap
               else s'.cache[l.id].serial == s.nextSerial && s'.heap[s'.cache[l.id]] == l.peer)
  {
    if step.CacheLook? {
      assert Apply(s, step) == DoCacheLook(s, step.t, s.tasks[step.t].loader);
    } else {
      LookupPublishes(s, step);
    }
  }

  lemma LookupPublishes(s: State, step: Step)
    requires Enabled(s, step) && (step.CacheInsert? || step.CacheFinal?)
    ensures var t, l, s' := step.t, s.tasks[step.t].loader, Apply(s, step);
      if l.id in s.cache then s' == SetTask(s, t, Holding(s.cache[l.id], l.purpose))
      else if Room(s) then s' == Publish(s, t, l)
      else t !in s'.tasks || s'.tasks[t].Caching?
  {
  }

  /** Otherwise it goes on: it makes room if there is none, and a registration that could
      not cache what it had loaded starts over with a default peer. */
  lemma LookupGoesOn(s: State, step: Step)
    requires Enabled(s, step) && (step.CacheLook? || step.CacheInsert? || step.CacheFinal?)
    requires step.t in Apply(s, step).tasks && !Apply(s, step).tasks[step.t].Holding?
    ensures var l := s.tasks[step.t].loader;
      Apply(s, step) == SetTask(s, step.t,
        if step.CacheFinal? then Caching(Loader(l.id, l.purpose, DefaultPeer(s.now), false, l.mark), Look)
        else Caching(l, if Room(s) then Insert else Sweep))
  {
  }

  /** A heartbeat is answered without a peer exactly when its lookup ends without one and
      the database did not fail. */
  lemma AnsweredWithoutPeerIff(s: State, step: Step)
    requires Enabled(s, step) && IsLookup(step) && LookupPurpose(s.tasks[step.t]).Heartbeat?
    ensures HeartbeatReply(s, step) == Some(true) <==> step.t !in Apply(s, step).tasks && !step.ReadFailed?
    ensures HeartbeatReply(s, step) != Some(false)
  {
    LookupEndsIff(s, step);
  }

  /** A registration that is let through with news spawns one write of exactly what it
      brought, with what to put back; one without news is verified first where there is a
      management server; every other ends. */
  lemma StageOutcome(s: State, t: nat)
    requires Enabled(s, StageStep(t)) && AllocOk(s)
    ensures var h, pu, s' := s.tasks[t].h, s.tasks[t].purpose, Apply(s, StageStep(t));
      var p, stage := s.heap[h], StagePeer(s.heap[h], pu.addr, pu.uuid, pu.pk, !s.unmanaged, s.now).stage;
      && (s.nextTask in s'.tasks <==> stage.Persist?)
      && (stage.Persist? ==>
            && s'.tasks[s.nextTask] == Persisting(Job(h, p.guid, pu.uuid, pu.pk, pu.addr.ip,
                 Rollback(p.socketAddr, p.lastReg, p.uuid, p.pk, p.ip, p.verifiedAt)))
            && t in s'.tasks && s'.tasks[t] == Awaiting(h))
      && (stage.Unchanged? && !s.unmanaged ==> t in s'.tasks && s'.tasks[t] == Verifying(h))
      && (!stage.Persist? && !(stage.Unchanged? && !s.unmanaged) ==> t !in s'.tasks)
  {
    assert s.nextTask !in s.tasks;
  }
}
