/** How processes can succeed and leave no public file behind. */
module KeysStale {
  import opened Keys
  import opened Values

  /** Some run leads from one state to the other; `clean` asks that in it every comparison
      can read the public file. */
  ghost predicate ReachableFrom(c: Codec, s0: State, s: State, clean: bool) {
    exists run: seq<State>, steps: seq<Step> ::
      IsRun(c, run, steps) && run[0] == s0 && run[|run| - 1] == s && (clean ==> ComparesRead(steps, |steps|))
  }

  lemma ReachInit(c: Codec, s0: State, clean: bool)
    requires Init(s0)
    ensures ReachableFrom(c, s0, s0, clean)
  {
    assert IsRun(c, [s0], []);
    assert [s0][|[s0]| - 1] == s0;
    assert ComparesRead([], 0);
  }

  lemma ReachStep(c: Codec, s0: State, s: State, step: Step, clean: bool)
    requires ReachableFrom(c, s0, s, clean) && Enabled(c, s, step) && (clean ==> !FailedCompare(step))
    ensures ReachableFrom(c, s0, Apply(c, s, step), clean)
  {
    var run: seq<State>, steps: seq<Step> :|
      IsRun(c, run, steps) && run[0] == s0 && run[|run| - 1] == s && (clean ==> ComparesRead(steps, |steps|));
    var run', steps' := run + [Apply(c, s, step)], steps + [step];
    forall i: nat | i < |steps'| ensures StepAt(c, run', steps', i) {
      if i < |steps| {
        assert StepAt(c, run, steps, i);
      }
    }
    assert IsRun(c, run', steps');
    if clean {
      forall k | 0 <= k < |steps'| ensures !FailedCompare(steps'[k]) {
        assert k < |steps| ==> steps'[k] == steps[k];
      }
      assert ComparesRead(steps', |steps'|);
    }
  }

  /** A stored key with a public file, and room for two processes. */
  ghost predicate Filed(c: Codec, s: State, key: Key) {
    && StoredKey(c, s) == Some(key) && s.secret.Some? && s.public.Some?
    && s.secret.value < s.nextInode && s.public.value < s.nextInode
    && 0 !in s.procs && 1 !in s.procs
  }

  function Both(s: State, a: Proc, b: Proc): State {
    s.(procs := s.procs[0 := a][1 := b])
  }

  // ----- a stale public file -----

  /** The public file holds something else than the stored key's public half. */
  ghost predicate StaleFile(c: Codec, s: State, key: Key) {
    Filed(c, s, key) && Contents(s, s.public) != Some(c.publicOf(key))
  }

  /** Both processes have written the public key to a temporary file. */
  function Written(c: Codec, s: State, key: Key): State {
    s.(inodes := s.inodes[s.nextInode := c.publicOf(key)][s.nextInode + 1 := c.publicOf(key)],
       nextInode := s.nextInode + 2)
  }

  /** A process starts and reads the stored key. */
  lemma ReachCheck(c: Codec, s0: State, s: State, p: Pid, key: Key, clean: bool)
    requires ReachableFrom(c, s0, s, clean) && p !in s.procs && s.secret.Some? && StoredKey(c, s) == Some(key)
    ensures ReachableFrom(c, s0, Move(s, p, PubCheck(key)), clean)
  {
    var r := s;
    ReachStep(c, s0, r, Spawn(p), clean);
    r := Apply(c, r, Spawn(p));
    ReachStep(c, s0, r, ReadFirst(p, key), clean);
    r := Apply(c, r, ReadFirst(p, key));
    ReachStep(c, s0, r, ReadSecond(p), clean);
    r := Apply(c, r, ReadSecond(p));
    assert r.procs == s.procs[p := PubCheck(key)];
  }

  lemma ReachChecks(c: Codec, s0: State, f: State, key: Key, clean: bool)
    requires ReachableFrom(c, s0, f, clean) && Filed(c, f, key)
    ensures ReachableFrom(c, s0, Both(f, PubCheck(key), PubCheck(key)), clean)
  {
    ReachCheck(c, s0, f, 0, key, clean);
    ReachCheck(c, s0, Move(f, 0, PubCheck(key)), 1, key, clean);
  }

  /** The process has written the public key to a new temporary file. */
  function Temp(c: Codec, s: State, p: Pid, key: Key): State {
    s.(inodes := s.inodes[s.nextInode := c.publicOf(key)], nextInode := s.nextInode + 1,
       procs := s.procs[p := PubLink(key, s.nextInode, 0)])
  }

  /** A process writes and syncs the whole of its temporary file. */
  lemma ReachWhole(c: Codec, s0: State, s: State, p: Pid, clean: bool)
    requires ReachableFrom(c, s0, s, clean) && p in s.procs && (s.procs[p].SecretTemp? || s.procs[p].PubTemp?)
    requires s.procs[p].ino in s.inodes && s.inodes[s.procs[p].ino] == [] && s.procs[p].written == 0
    ensures var proc := s.procs[p];
      ReachableFrom(c, s0,
        s.(inodes := s.inodes[proc.ino := Target(c, proc)],
           procs := s.procs[p := if proc.SecretTemp? then SecretLink(proc.key, proc.ino) else PubLink(proc.key, proc.ino, 0)]),
        clean)
  {
    var proc, full := s.procs[p], Target(c, s.procs[p]);
    ReachStep(c, s0, s, Write(p, |full|), clean);
    var r := Apply(c, s, Write(p, |full|));
    assert r.inodes[proc.ino] == [] + full[0..|full|] == full;
    ReachStep(c, s0, r, Sync(p), clean);
    assert Apply(c, r, Sync(p)).inodes == s.inodes[proc.ino := full];
  }

  /** One process, whose check of the public file fails, writes its temporary file. */
  lemma ReachTemp(c: Codec, s0: State, s: State, p: Pid, key: Key, readable: bool, clean: bool)
    requires ReachableFrom(c, s0, s, clean) && p in s.procs && s.procs[p] == PubCheck(key)
    requires !ReadsAs(c, s, key, readable)
    ensures ReachableFrom(c, s0, Temp(c, s, p, key), clean)
  {
    ReachStep(c, s0, s, Check(p, readable), clean);
    var r := Apply(c, s, Check(p, readable));
    ReachWhole(c, s0, r, p, clean);
    assert r.inodes[s.nextInode := c.publicOf(key)] == Temp(c, s, p, key).inodes;
    assert r.procs[p := PubLink(key, s.nextInode, 0)] == Temp(c, s, p, key).procs;
  }

  lemma BothTemps(c: Codec, f: State, key: Key)
    ensures var n := f.nextInode;
      Temp(c, Temp(c, Both(f, PubCheck(key), PubCheck(key)), 0, key), 1, key) ==
        Both(Written(c, f, key), PubLink(key, n, 0), PubLink(key, n + 1, 0))
  {
    var n := f.nextInode;
    assert f.procs[0 := PubCheck(key)][1 := PubCheck(key)][0 := PubLink(key, n, 0)][1 := PubLink(key, n + 1, 0)] ==
      f.procs[0 := PubLink(key, n, 0)][1 := PubLink(key, n + 1, 0)];
  }

  lemma ReachTemps(c: Codec, s0: State, f: State, key: Key)
    requires ReachableFrom(c, s0, f, true) && StaleFile(c, f, key)
    ensures var n := f.nextInode;
      ReachableFrom(c, s0, Both(Written(c, f, key), PubLink(key, n, 0), PubLink(key, n + 1, 0)), true)
  {
    ReachChecks(c, s0, f, key, true);
    var s := Both(f, PubCheck(key), PubCheck(key));
    ReachTemp(c, s0, s, 0, key, true, true);
    ReachTemp(c, s0, Temp(c, s, 0, key), 1, key, true, true);
    BothTemps(c, f, key);
  }

  /** One process finds the public name taken by something that it does not read as its
      own key. */
  lemma ReachRemoval(c: Codec, s0: State, s: State, p: Pid, key: Key, ino: Inode, readable: bool, clean: bool)
    requires ReachableFrom(c, s0, s, clean) && p in s.procs && s.procs[p] == PubLink(key, ino, 0) && s.public.Some?
    requires !ReadsAs(c, s, key, readable) && (clean ==> readable)
    ensures ReachableFrom(c, s0, s.(procs := s.procs[p := PubRemove(key, ino, 0)]), clean)
  {
    var r := s;
    ReachStep(c, s0, r, Link(p), clean);
    r := Apply(c, r, Link(p));
    ReachStep(c, s0, r, Stat(p), clean);
    r := Apply(c, r, Stat(p));
    ReachStep(c, s0, r, Compare(p, readable), clean);
    r := Apply(c, r, Compare(p, readable));
    assert r.procs == s.procs[p := PubRemove(key, ino, 0)];
  }

  lemma ReachRemovals(c: Codec, s0: State, f: State, key: Key)
    requires ReachableFrom(c, s0, f, true) && StaleFile(c, f, key)
    ensures var n := f.nextInode;
      ReachableFrom(c, s0, Both(Written(c, f, key), PubRemove(key, n, 0), PubRemove(key, n + 1, 0)), true)
  {
    ReachTemps(c, s0, f, key);
    var n := f.nextInode;
    var s := Both(Written(c, f, key), PubLink(key, n, 0), PubLink(key, n + 1, 0));
    assert Contents(s, s.public) == Contents(f, f.public);
    ReachRemoval(c, s0, s, 0, key, n, true, true);
    s := s.(procs := s.procs[0 := PubRemove(key, n, 0)]);
    ReachRemoval(c, s0, s, 1, key, n + 1, true, true);
    assert s.procs[1 := PubRemove(key, n + 1, 0)] == Both(f, PubRemove(key, n, 0), PubRemove(key, n + 1, 0)).procs;
  }

  /** A process has succeeded and there is no public file. */
  ghost predicate Vanished(s: State) {
    s.public.None? && exists p :: p in s.procs && s.procs[p].Done?
  }

  /** From every state with a stored key and a public file that holds something else, a
      run exists, with every comparison able to read the file, that ends with a success
      and without a public file. */
  lemma StaleFileCanVanish(c: Codec, s0: State, f: State, key: Key) returns (s: State)
    requires ReachableFrom(c, s0, f, true) && StaleFile(c, f, key)
    ensures ReachableFrom(c, s0, s, true) && Vanished(s)
  {
    ReachRemovals(c, s0, f, key);
    var n := f.nextInode;
    s := Both(Written(c, f, key), PubRemove(key, n, 0), PubRemove(key, n + 1, 0));
    ReachStep(c, s0, s, Unlink(0), true);
    s := Apply(c, s, Unlink(0));
    ReachStep(c, s0, s, Link(0), true);
    s := Apply(c, s, Link(0));
    ReachStep(c, s0, s, Return(0), true);
    s := Apply(c, s, Return(0));
    ReachStep(c, s0, s, Unlink(1), true);
    s := Apply(c, s, Unlink(1));
    assert s.procs[0].Done?;
  }

  // ----- no secret and a leftover public file -----

  /** A first process stores the key it has drawn and stops there. */
  lemma ReachStored(c: Codec, s0: State, key: Key) returns (f: State)
    requires Sound(c) && Init(s0) && s0.secret.None?
    ensures ReachableFrom(c, s0, f, true)
    ensures StoredKey(c, f) == Some(key) && f.secret.Some? && f.secret.value < f.nextInode
    ensures f.public == s0.public && Contents(f, f.public) == Contents(s0, s0.public) && f.nextInode >= s0.nextInode
    ensures f.public.Some? ==> f.public.value in f.inodes
    ensures f.procs == map[2 := SecondRead]
  {
    ReachInit(c, s0, true);
    ReachStep(c, s0, s0, Spawn(2), true);
    f := Apply(c, s0, Spawn(2));
    ReachStep(c, s0, f, ReadFirst(2, key), true);
    f := Apply(c, f, ReadFirst(2, key));
    var n := s0.nextInode;
    assert f.procs[2] == SecretTemp(key, n, 0) && f.inodes == s0.inodes[n := []];
    ReachWhole(c, s0, f, 2, true);
    f := f.(inodes := f.inodes[n := c.encode(key)], procs := f.procs[2 := SecretLink(key, n)]);
    ReachStep(c, s0, f, Link(2), true);
    f := Apply(c, f, Link(2));
  }

  /** Whatever the directory holds at first: in all runs whose comparisons can read the
      file, a success implies a public file, if and only if that file was absent at
      first, or the stored key's public half, or, where no key is stored yet, the public
      half of every key, or the stored key cannot be read. */
  lemma PublicSafeIff(c: Codec, s0: State)
    requires Sound(c) && Init(s0)
    ensures PublicGood(c, s0) <==> forall s :: ReachableFrom(c, s0, s, true) ==> !Vanished(s)
  {
    if PublicGood(c, s0) {
      forall s | ReachableFrom(c, s0, s, true) ensures !Vanished(s) {
        var run: seq<State>, steps: seq<Step> :|
          IsRun(c, run, steps) && run[0] == s0 && run[|run| - 1] == s && ComparesRead(steps, |steps|);
        PublicFile(c, run, steps, |run| - 1);
      }
    } else {
      ReachInit(c, s0, true);
      var f, key := s0, Key(0);
      if s0.secret.None? {
        key :| Contents(s0, s0.public) != Some(c.publicOf(key));
        f := ReachStored(c, s0, key);
      } else {
        key := StoredKey(c, s0).value;
      }
      var s := StaleFileCanVanish(c, s0, f, key);
    }
  }

  // ----- a public file that cannot be read -----

  /** From every directory with a stored key and its public file, one comparison that
      cannot read the file is enough: a run exists that removes it after a success. */
  lemma FailedReadCanRemove(c: Codec, s0: State, key: Key) returns (s: State)
    requires Init(s0) && StoredKey(c, s0) == Some(key) && Contents(s0, s0.public) == Some(c.publicOf(key))
    ensures ReachableFrom(c, s0, s, false) && Vanished(s)
  {
    ReachInit(c, s0, false);
    ReachChecks(c, s0, s0, key, false);
    s := Both(s0, PubCheck(key), PubCheck(key));
    ReachStep(c, s0, s, Check(0, true), false);
    s := Apply(c, s, Check(0, true));
    ReachStep(c, s0, s, Return(0), false);
    s := Apply(c, s, Return(0));
    var n := s.nextInode;
    ReachTemp(c, s0, s, 1, key, false, false);
    s := Temp(c, s, 1, key);
    ReachRemoval(c, s0, s, 1, key, n, false, false);
    s := s.(procs := s.procs[1 := PubRemove(key, n, 0)]);
    ReachStep(c, s0, s, Unlink(1), false);
    s := Apply(c, s, Unlink(1));
    assert s.procs[0].Done?;
  }
}
