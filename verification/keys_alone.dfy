/** A process that nobody disturbs succeeds. */
module KeysAlone {
  import opened Keys
  import opened KeysStale
  import opened Values

  /** The process has succeeded with this key, and the public file is its public half. */
  ghost predicate Succeeded(c: Codec, s: State, p: Pid, key: Key) {
    p in s.procs && s.procs[p] == Done(key) && Contents(s, s.public) == Some(c.publicOf(key))
  }

  lemma AloneLinks(c: Codec, s0: State, s: State, p: Pid, key: Key, ino: Inode, tries: nat) returns (r: State)
    requires ReachableFrom(c, s0, s, true) && p in s.procs && s.procs[p] == PubLink(key, ino, tries)
    requires s.public.None? && WholePublic(c, s, key, ino)
    ensures ReachableFrom(c, s0, r, true) && Succeeded(c, r, p, key) && r.procs.Keys == s.procs.Keys
  {
    ReachStep(c, s0, s, Link(p), true);
    r := Apply(c, s, Link(p));
    ReachStep(c, s0, r, Return(p), true);
    r := Apply(c, r, Return(p));
  }

  /** With a stored key: a matching public file is kept, a missing one made, and any other
      replaced at the first try. */
  lemma AloneChecks(c: Codec, s0: State, s: State, p: Pid, key: Key) returns (r: State)
    requires ReachableFrom(c, s0, s, true) && p in s.procs && s.procs[p] == PubCheck(key)
    requires s.public.Some? ==> s.public.value in s.inodes && s.public.value < s.nextInode
    ensures ReachableFrom(c, s0, r, true) && Succeeded(c, r, p, key) && r.procs.Keys == s.procs.Keys
  {
    if ReadsAs(c, s, key, true) {
      ReachStep(c, s0, s, Check(p, true), true);
      r := Apply(c, s, Check(p, true));
      ReachStep(c, s0, r, Return(p), true);
      r := Apply(c, r, Return(p));
    } else {
      ReachTemp(c, s0, s, p, key, true, true);
      r := Temp(c, s, p, key);
      var ino := s.nextInode;
      if s.public.None? {
        r := AloneLinks(c, s0, r, p, key, ino, 0);
      } else {
        assert Contents(r, r.public) == Contents(s, s.public);
        ReachRemoval(c, s0, r, p, key, ino, true, true);
        r := r.(procs := r.procs[p := PubRemove(key, ino, 0)]);
        ReachStep(c, s0, r, Unlink(p), true);
        r := Apply(c, r, Unlink(p));
        r := AloneLinks(c, s0, r, p, key, ino, 1);
      }
    }
  }

  /** From every directory whose secret is missing or can be read, a process that is alone
      succeeds: with the stored key, or with the one it has drawn. */
  lemma AloneSucceeds(c: Codec, s0: State, drawn: Key) returns (s: State)
    requires Sound(c) && Init(s0) && (s0.secret.None? || StoredKey(c, s0).Some?)
    ensures ReachableFrom(c, s0, s, true) && s.procs.Keys == {2}
    ensures Succeeded(c, s, 2, if s0.secret.None? then drawn else StoredKey(c, s0).value)
  {
    var key := if s0.secret.None? then drawn else StoredKey(c, s0).value;
    if s0.secret.None? {
      s := ReachStored(c, s0, drawn);
      ReachStep(c, s0, s, ReadSecond(2), true);
      s := Apply(c, s, ReadSecond(2));
    } else {
      ReachInit(c, s0, true);
      ReachCheck(c, s0, s0, 2, key, true);
      s := Move(s0, 2, PubCheck(key));
    }
    s := AloneChecks(c, s0, s, 2, key);
  }

  /** A process that lost a public name it found taken, or removed what it found there,
      tries again, twice; after the third failure it gives up. */
  lemma ThreeTries(c: Codec, s: State, step: Step)
    requires Enabled(c, s, step) && (step.Unlink? || (step.Stat? && s.public.None?))
    ensures var proc := s.procs[step.p];
      Apply(c, s, step).procs[step.p] == if proc.tries < 2 then PubLink(proc.key, proc.ino, proc.tries + 1) else Failed
  {
  }
}
