/** Creation of the server key pair by processes that race over one directory. A file
    name points to an inode; a temporary file is written under a private name and
    published by a hard link, which fails if the public name already exists. */
module Keys {
  import opened Values

  type Inode = nat
  type Pid = nat
  datatype Key = Key(seed: nat)

  /** Key encoding belongs to other libraries; decoding undoes encoding. */
  datatype Codec = Codec(encode: Key -> Bytes, parse: Bytes -> Option<Key>, publicOf: Key -> Bytes)

  ghost predicate Sound(c: Codec) {
    forall k :: c.parse(c.encode(k)) == Some(k)
  }

  const MAX_TRIES: nat := 3

  /** Where a process is in `load_or_create_keypair`. */
  datatype Proc =
    | FirstRead
    | SecretTemp(key: Key, ino: Inode, written: nat)
    | SecretLink(key: Key, ino: Inode)
    | SecondRead
    | PubCheck(key: Key)
    | PubTemp(key: Key, ino: Inode, written: nat)
    | PubLink(key: Key, ino: Inode, tries: nat)
    | PubStat(key: Key, ino: Inode, tries: nat)
    | PubCompare(key: Key, ino: Inode, tries: nat)
    | PubRemove(key: Key, ino: Inode, tries: nat)
    | Returning(key: Key)
    | Done(key: Key)
    | Failed

  datatype State = State(
    inodes: map<Inode, Bytes>,
    nextInode: Inode,
    secret: Option<Inode>,
    public: Option<Inode>,
    procs: map<Pid, Proc>)

  datatype Step =
    | Spawn(p: Pid)
    | ReadFirst(p: Pid, generated: Key)
    | Write(p: Pid, n: nat)
    | Sync(p: Pid)
    | Link(p: Pid)
    | ReadSecond(p: Pid)
    | Check(p: Pid, readable: bool)
    | Stat(p: Pid)
    | Compare(p: Pid, readable: bool)
    | Unlink(p: Pid)
    | Return(p: Pid)
    | Fail(p: Pid)

  /** The contents of the file behind a name, if the name exists. */
  function Contents(s: State, name: Option<Inode>): Option<Bytes> {
    if name.Some? && name.value in s.inodes then Some(s.inodes[name.value]) else None
  }

  function StoredKey(c: Codec, s: State): Option<Key> {
    match Contents(s, s.secret)
    case None => None
    case Some(b) => c.parse(b)
  }

  /** The public file was read and is the public half of the key; a read that fails
      counts as a mismatch. */
  predicate ReadsAs(c: Codec, s: State, key: Key, readable: bool) {
    readable && Contents(s, s.public) == Some(c.publicOf(key))
  }

  function Move(s: State, p: Pid, proc: Proc): State {
    s.(procs := s.procs[p := proc])
  }

  /** What a process is writing into its temporary file. */
  function Target(c: Codec, proc: Proc): Bytes
    requires proc.SecretTemp? || proc.PubTemp?
  {
    if proc.SecretTemp? then c.encode(proc.key) else c.publicOf(proc.key)
  }

  function NewTemp(s: State, p: Pid, proc: Proc): State {
    Move(s.(inodes := s.inodes[s.nextInode := []], nextInode := s.nextInode + 1), p, proc)
  }

  function DoReadFirst(c: Codec, s: State, p: Pid, generated: Key): State {
    if s.secret.None? then NewTemp(s, p, SecretTemp(generated, s.nextInode, 0))
    else Move(s, p, if StoredKey(c, s).Some? then SecondRead else Failed)
  }

  function DoLink(s: State, p: Pid, proc: Proc): State
    requires proc.SecretLink? || proc.PubLink?
  {
    if proc.SecretLink? then
      Move(if s.secret.None? then s.(secret := Some(proc.ino)) else s, p, SecondRead)
    else if s.public.None? then
      Move(s.(public := Some(proc.ino)), p, Returning(proc.key))
    else
      Move(s, p, PubStat(proc.key, proc.ino, proc.tries))
  }

  function Retry(key: Key, ino: Inode, tries: nat): Proc {
    if tries + 1 < MAX_TRIES then PubLink(key, ino, tries + 1) else Failed
  }

  predicate Enabled(c: Codec, s: State, step: Step) {
    match step
    case Spawn(p) => p !in s.procs
    case ReadFirst(p, _) => p in s.procs && s.procs[p].FirstRead?
    case Write(p, n) =>
      && p in s.procs && (s.procs[p].SecretTemp? || s.procs[p].PubTemp?) && s.procs[p].ino in s.inodes
      && n <= |Target(c, s.procs[p])| - s.procs[p].written
    case Sync(p) =>
      p in s.procs && (s.procs[p].SecretTemp? || s.procs[p].PubTemp?) && s.procs[p].written == |Target(c, s.procs[p])|
    case Link(p) => p in s.procs && (s.procs[p].SecretLink? || s.procs[p].PubLink?)
    case ReadSecond(p) => p in s.procs && s.procs[p].SecondRead?
    case Check(p, _) => p in s.procs && s.procs[p].PubCheck?
    case Stat(p) => p in s.procs && s.procs[p].PubStat?
    case Compare(p, _) => p in s.procs && s.procs[p].PubCompare?
    case Unlink(p) => p in s.procs && s.procs[p].PubRemove?
    case Return(p) => p in s.procs && s.procs[p].Returning?
    case Fail(p) => p in s.procs && !s.procs[p].Done?
  }

  function Apply(c: Codec, s: State, step: Step): State
    requires Enabled(c, s, step)
  {
    match step
    case Spawn(p) => Move(s, p, FirstRead)
    case ReadFirst(p, generated) => DoReadFirst(c, s, p, generated)
    case Write(p, n) =>
      var proc := s.procs[p];
      var target := Target(c, proc);
      Move(s.(inodes := s.inodes[proc.ino := s.inodes[proc.ino] + target[proc.written..proc.written + n]]), p,
           proc.(written := proc.written + n))
    case Sync(p) =>
      var proc := s.procs[p];
      Move(s, p, if proc.SecretTemp? then SecretLink(proc.key, proc.ino) else PubLink(proc.key, proc.ino, 0))
    case Link(p) => DoLink(s, p, s.procs[p])
    case ReadSecond(p) => Move(s, p, if StoredKey(c, s).Some? then PubCheck(StoredKey(c, s).value) else Failed)
    case Check(p, readable) =>
      var key := s.procs[p].key;
      if ReadsAs(c, s, key, readable) then Move(s, p, Returning(key))
      else NewTemp(s, p, PubTemp(key, s.nextInode, 0))
    case Stat(p) =>
      var proc := s.procs[p];
      Move(s, p, if s.public.None? then Retry(proc.key, proc.ino, proc.tries) else PubCompare(proc.key, proc.ino, proc.tries))
    case Compare(p, readable) =>
      var proc := s.procs[p];
      Move(s, p, if ReadsAs(c, s, proc.key, readable) then Returning(proc.key)
                 else PubRemove(proc.key, proc.ino, proc.tries))
    case Unlink(p) =>
      var proc := s.procs[p];
      Move(s.(public := None), p, Retry(proc.key, proc.ino, proc.tries))
    case Return(p) => Move(s, p, Done(s.procs[p].key))
    case Fail(p) => Move(s, p, Failed)
  }

  ghost predicate Init(s: State) {
    && s.procs == map[]
    && (forall i :: i in s.inodes ==> i < s.nextInode)
    && (s.secret.Some? ==> s.secret.value in s.inodes)
    && (s.public.Some? ==> s.public.value in s.inodes)
  }

  ghost predicate StepAt(c: Codec, run: seq<State>, steps: seq<Step>, i: nat)
    requires |run| == |steps| + 1 && i < |steps|
  {
    Enabled(c, run[i], steps[i]) && run[i + 1] == Apply(c, run[i], steps[i])
  }

  ghost predicate IsRun(c: Codec, run: seq<State>, steps: seq<Step>) {
    && |run| == |steps| + 1
    && Init(run[0])
    && forall i: nat {:trigger StepAt(c, run, steps, i)} :: i < |steps| ==> StepAt(c, run, steps, i)
  }

  // ----- the invariant -----

  /** The inode a process may still write to. */
  ghost predicate Owns(proc: Proc, i: Inode) {
    (proc.SecretTemp? || proc.PubTemp?) && proc.ino == i
  }

  ghost predicate NamesOk(s: State) {
    && (forall i :: i in s.inodes ==> i < s.nextInode)
    && (s.secret.Some? ==> s.secret.value in s.inodes)
    && (s.public.Some? ==> s.public.value in s.inodes)
  }

  /** The process has read the key that is now stored. */
  ghost predicate Agrees(c: Codec, s: State, key: Key) {
    StoredKey(c, s) == Some(key)
  }

  ghost predicate WholePublic(c: Codec, s: State, key: Key, i: Inode) {
    i in s.inodes && s.inodes[i] == c.publicOf(key)
  }

  ghost predicate ProcOk(c: Codec, s: State, proc: Proc) {
    match proc
    case FirstRead => true
    case SecretTemp(key, i, w) => i in s.inodes && w <= |c.encode(key)| && s.inodes[i] == c.encode(key)[..w]
    case SecretLink(key, i) => i in s.inodes && s.inodes[i] == c.encode(key)
    case SecondRead => s.secret.Some?
    case PubCheck(key) => Agrees(c, s, key)
    case PubTemp(key, i, w) =>
      Agrees(c, s, key) && i in s.inodes && w <= |c.publicOf(key)| && s.inodes[i] == c.publicOf(key)[..w]
    case PubLink(key, i, _) => Agrees(c, s, key) && WholePublic(c, s, key, i)
    case PubStat(key, i, _) => Agrees(c, s, key) && WholePublic(c, s, key, i)
    case PubCompare(key, i, _) => Agrees(c, s, key) && WholePublic(c, s, key, i)
    case PubRemove(key, i, _) => Agrees(c, s, key) && WholePublic(c, s, key, i)
    case Returning(key) => Agrees(c, s, key)
    case Done(key) => Agrees(c, s, key)
    case Failed => true
  }

  ghost predicate Private(s: State, p: Pid, i: Inode) {
    && s.secret != Some(i) && s.public != Some(i)
    && forall q: Pid :: q in s.procs && q != p ==> !Refers(s.procs[q], i)
  }

  /** A file still being written is private to its process. */
  ghost predicate OwnersOk(s: State) {
    forall p: Pid, i: Inode :: p in s.procs && Owns(s.procs[p], i) ==> Private(s, p, i)
  }

  ghost predicate Refers(proc: Proc, i: Inode) {
    match proc
    case SecretTemp(_, k, _) => k == i
    case SecretLink(_, k) => k == i
    case PubTemp(_, k, _) => k == i
    case PubLink(_, k, _) => k == i
    case PubStat(_, k, _) => k == i
    case PubCompare(_, k, _) => k == i
    case PubRemove(_, k, _) => k == i
    case _ => false
  }

  ghost predicate Inv(c: Codec, s: State) {
    && NamesOk(s)
    && (forall p :: p in s.procs ==> ProcOk(c, s, s.procs[p]))
    && OwnersOk(s)
  }

  /** A step never takes away or rewrites the secret, once there is one; a new one is
      the whole encoding of some key. */
  ghost predicate SecretKept(c: Codec, s: State, s': State) {
    && (s.secret.Some? ==> s'.secret == s.secret && Contents(s', s'.secret) == Contents(s, s.secret))
    && (s.secret.None? && s'.secret.Some? ==> exists k :: Contents(s', s'.secret) == Some(c.encode(k)))
  }

  // ----- every step keeps it -----

  lemma MoveInv(c: Codec, s: State, p: Pid, proc: Proc)
    requires Inv(c, s) && ProcOk(c, s, proc)
    requires forall i: Inode :: Refers(proc, i) ==> p in s.procs && Refers(s.procs[p], i)
    requires forall i: Inode :: Owns(proc, i) ==> p in s.procs && Owns(s.procs[p], i)
    ensures Inv(c, Move(s, p, proc)) && SecretKept(c, s, Move(s, p, proc))
  {
    var s' := Move(s, p, proc);
    forall q | q in s'.procs ensures ProcOk(c, s', s'.procs[q]) {
      assert ProcOk(c, s, s'.procs[q]);
    }
  }

  lemma NewTempInv(c: Codec, s: State, p: Pid, proc: Proc)
    requires Inv(c, s) && p in s.procs
    requires (proc.SecretTemp? || (proc.PubTemp? && Agrees(c, s, proc.key))) && proc.ino == s.nextInode && proc.written == 0
    ensures Inv(c, NewTemp(s, p, proc)) && SecretKept(c, s, NewTemp(s, p, proc))
  {
    var s' := NewTemp(s, p, proc);
    forall q | q in s'.procs ensures ProcOk(c, s', s'.procs[q]) {
      if q != p {
        assert ProcOk(c, s, s.procs[q]);
      }
    }
    forall q: Pid | q in s.procs ensures !Refers(s.procs[q], s.nextInode) {
      assert ProcOk(c, s, s.procs[q]);
    }
    forall q: Pid, i: Inode | q in s'.procs && Owns(s'.procs[q], i) ensures Private(s', q, i) {
      assert q != p ==> Private(s, q, i);
    }
  }

  lemma WriteInv(c: Codec, s: State, p: Pid, n: nat)
    requires Inv(c, s) && Enabled(c, s, Write(p, n))
    ensures Inv(c, Apply(c, s, Write(p, n))) && SecretKept(c, s, Apply(c, s, Write(p, n)))
  {
    var s', proc := Apply(c, s, Write(p, n)), s.procs[p];
    assert ProcOk(c, s, proc);
    assert Owns(s.procs[p], proc.ino);
    assert Private(s, p, proc.ino);
    var t := Target(c, proc);
    assert t[..proc.written] + t[proc.written..proc.written + n] == t[..proc.written + n];
    forall q | q in s'.procs ensures ProcOk(c, s', s'.procs[q]) {
      assert ProcOk(c, s, s.procs[q]);
      assert q != p ==> !Refers(s.procs[q], proc.ino);
    }
  }

  lemma SecretLinkInv(c: Codec, s: State, p: Pid)
    requires Sound(c) && Inv(c, s) && p in s.procs && s.procs[p].SecretLink? && s.secret.None?
    ensures Inv(c, DoLink(s, p, s.procs[p])) && SecretKept(c, s, DoLink(s, p, s.procs[p]))
  {
    var s', proc := DoLink(s, p, s.procs[p]), s.procs[p];
    assert ProcOk(c, s, proc);
    assert Contents(s', s'.secret) == Some(c.encode(proc.key));
    forall q | q in s'.procs ensures ProcOk(c, s', s'.procs[q]) {
      assert q != p ==> ProcOk(c, s, s.procs[q]);
    }
    assert forall q, i: Inode :: q in s.procs && Owns(s.procs[q], i) && q != p ==> !Refers(proc, i);
  }

  lemma PublicChangeInv(c: Codec, s: State, p: Pid, name: Option<Inode>, proc: Proc)
    requires Inv(c, s) && p in s.procs && (name.Some? ==> Refers(s.procs[p], name.value) && !Owns(s.procs[p], name.value))
    requires ProcOk(c, s, proc) && forall i: Inode :: Refers(proc, i) ==> Refers(s.procs[p], i)
    requires forall i: Inode :: !Owns(proc, i)
    ensures Inv(c, Move(s.(public := name), p, proc)) && SecretKept(c, s, Move(s.(public := name), p, proc))
  {
    var s' := Move(s.(public := name), p, proc);
    assert ProcOk(c, s, s.procs[p]);
    forall q | q in s'.procs ensures ProcOk(c, s', s'.procs[q]) {
      assert q != p ==> ProcOk(c, s, s.procs[q]);
    }
  }

  lemma LinkInv(c: Codec, s: State, p: Pid)
    requires Sound(c) && Inv(c, s) && Enabled(c, s, Link(p))
    ensures Inv(c, DoLink(s, p, s.procs[p])) && SecretKept(c, s, DoLink(s, p, s.procs[p]))
  {
    var proc := s.procs[p];
    assert ProcOk(c, s, proc);
    if proc.SecretLink? {
      if s.secret.None? {
        SecretLinkInv(c, s, p);
      } else {
        MoveInv(c, s, p, SecondRead);
      }
    } else if s.public.None? {
      PublicChangeInv(c, s, p, Some(proc.ino), Returning(proc.key));
    } else {
      MoveInv(c, s, p, PubStat(proc.key, proc.ino, proc.tries));
    }
  }

  lemma ReadInv(c: Codec, s: State, step: Step)
    requires Inv(c, s) && Enabled(c, s, step)
    requires step.Spawn? || step.ReadFirst? || step.ReadSecond? || step.Check?
    ensures Inv(c, Apply(c, s, step)) && SecretKept(c, s, Apply(c, s, step))
  {
    var p, s' := step.p, Apply(c, s, step);
    assert p in s.procs ==> ProcOk(c, s, s.procs[p]);
    if s'.nextInode == s.nextInode {
      MoveInv(c, s, p, s'.procs[p]);
    } else {
      NewTempInv(c, s, p, s'.procs[p]);
    }
  }

  lemma MovesInv(c: Codec, s: State, step: Step)
    requires Inv(c, s) && Enabled(c, s, step)
    requires step.Sync? || step.Stat? || step.Compare? || step.Return? || step.Fail?
    ensures Inv(c, Apply(c, s, step)) && SecretKept(c, s, Apply(c, s, step))
  {
    assert ProcOk(c, s, s.procs[step.p]);
    MoveInv(c, s, step.p, Apply(c, s, step).procs[step.p]);
  }

  lemma StepInv(c: Codec, s: State, step: Step)
    requires Sound(c) && Inv(c, s) && Enabled(c, s, step)
    ensures Inv(c, Apply(c, s, step)) && SecretKept(c, s, Apply(c, s, step))
  {
    if step.Spawn? || step.ReadFirst? || step.ReadSecond? || step.Check? {
      ReadInv(c, s, step);
    } else if step.Write? {
      WriteInv(c, s, step.p, step.n);
    } else if step.Link? {
      LinkInv(c, s, step.p);
    } else if step.Unlink? {
      assert ProcOk(c, s, s.procs[step.p]);
      PublicChangeInv(c, s, step.p, None, Apply(c, s, step).procs[step.p]);
    } else {
      MovesInv(c, s, step);
    }
  }

  lemma {:induction false} RunInv(c: Codec, run: seq<State>, steps: seq<Step>, i: nat)
    requires Sound(c) && IsRun(c, run, steps) && i < |run|
    ensures Inv(c, run[i])
  {
    if i > 0 {
      RunInv(c, run, steps, i - 1);
      assert StepAt(c, run, steps, i - 1);
      StepInv(c, run[i - 1], steps[i - 1]);
    }
  }

  // ----- agreement -----

  lemma {:induction false} SecretOnce(c: Codec, run: seq<State>, steps: seq<Step>, i: nat, j: nat)
    requires Sound(c) && IsRun(c, run, steps) && i <= j < |run|
    ensures SecretKept(c, run[i], run[j])
    decreases j
  {
    if i < j {
      SecretOnce(c, run, steps, i, j - 1);
      RunInv(c, run, steps, j - 1);
      assert StepAt(c, run, steps, j - 1);
      StepInv(c, run[j - 1], steps[j - 1]);
      KeptTwice(c, run[i], run[j - 1], run[j]);
    }
  }

  lemma KeptTwice(c: Codec, s: State, m: State, s': State)
    requires SecretKept(c, s, m) && SecretKept(c, m, s')
    ensures SecretKept(c, s, s')
  {
  }

  /** Whatever the interleaving and the failures: the secret file is written at most
      once and is never partial, and any two processes that succeed, at whatever times,
      return the same key, which is the stored one. */
  lemma KeyAgreement(c: Codec, run: seq<State>, steps: seq<Step>, i: nat, j: nat, p: Pid, q: Pid)
    requires Sound(c) && IsRun(c, run, steps) && i <= j < |run|
    requires p in run[i].procs && run[i].procs[p].Done? && q in run[j].procs && run[j].procs[q].Done?
    ensures run[i].procs[p].key == run[j].procs[q].key
    ensures StoredKey(c, run[j]) == Some(run[j].procs[q].key)
    ensures run[i].secret.Some? && run[j].secret == run[i].secret
    ensures Contents(run[j], run[j].secret) == Contents(run[i], run[i].secret)
    ensures run[0].secret.None? ==> exists k :: Contents(run[j], run[j].secret) == Some(c.encode(k))
  {
    RunInv(c, run, steps, i);
    RunInv(c, run, steps, j);
    assert ProcOk(c, run[i], run[i].procs[p]) && ProcOk(c, run[j], run[j].procs[q]);
    SecretOnce(c, run, steps, i, j);
    SecretOnce(c, run, steps, 0, j);
  }

  // ----- the public file -----

  /** The public name is absent, or its file is the public half of the stored key, or of
      every key that may still be stored, or no key can be read at all. */
  ghost predicate PublicGood(c: Codec, s: State) {
    s.public.Some? ==>
      forall k :: s.secret.None? || StoredKey(c, s) == Some(k) ==> Contents(s, s.public) == Some(c.publicOf(k))
  }

  /** Processes that found the public name taken will find their own key under it. */
  ghost predicate NobodyRemoves(s: State) {
    forall p :: p in s.procs ==>
      && !s.procs[p].PubRemove?
      && (s.procs[p].PubStat? || s.procs[p].PubCompare? || s.procs[p].Returning? || s.procs[p].Done? ==> s.public.Some?)
  }

  /** A process that found the public name taken could not read the file behind it. */
  predicate FailedCompare(step: Step) {
    step.Compare? && !step.readable
  }

  ghost predicate ComparesRead(steps: seq<Step>, i: nat)
    requires i <= |steps|
  {
    forall k :: 0 <= k < i ==> !FailedCompare(steps[k])
  }

  lemma PublicMoves(c: Codec, s: State, step: Step)
    requires Inv(c, s) && Enabled(c, s, step) && PublicGood(c, s) && NobodyRemoves(s) && !FailedCompare(step)
    ensures NobodyRemoves(Apply(c, s, step)) && !step.Unlink?
    ensures s.public.Some? ==> Apply(c, s, step).public == s.public
  {
    if step.p in s.procs {
      assert ProcOk(c, s, s.procs[step.p]);
    }
  }

  lemma PublicStep(c: Codec, s: State, step: Step)
    requires Sound(c) && Inv(c, s) && Enabled(c, s, step) && PublicGood(c, s) && !step.Unlink?
    requires s.public.Some? ==> Apply(c, s, step).public == s.public
    ensures PublicGood(c, Apply(c, s, step))
  {
    StepInv(c, s, step);
    if step.p in s.procs {
      assert ProcOk(c, s, s.procs[step.p]);
    }
    if step.Write? {
      assert Owns(s.procs[step.p], s.procs[step.p].ino);
      assert Private(s, step.p, s.procs[step.p].ino);
    }
  }

  /** From an absent or matching public file, in every run in which comparisons can read
      the file: it is never partial or wrong, never removed once it exists, and present
      with the stored key's public half as soon as some process has succeeded. */
  lemma {:induction false} PublicFile(c: Codec, run: seq<State>, steps: seq<Step>, i: nat)
    requires Sound(c) && IsRun(c, run, steps) && i < |run| && PublicGood(c, run[0]) && ComparesRead(steps, i)
    ensures PublicGood(c, run[i]) && NobodyRemoves(run[i])
    ensures forall p :: p in run[i].procs && run[i].procs[p].Done? ==>
      Contents(run[i], run[i].public) == Some(c.publicOf(run[i].procs[p].key))
    ensures i > 0 && run[i - 1].public.Some? ==> run[i].public == run[i - 1].public
  {
    RunInv(c, run, steps, i);
    if i > 0 {
      PublicFile(c, run, steps, i - 1);
      RunInv(c, run, steps, i - 1);
      assert StepAt(c, run, steps, i - 1);
      PublicMoves(c, run[i - 1], steps[i - 1]);
      PublicStep(c, run[i - 1], steps[i - 1]);
    }
    forall p | p in run[i].procs && run[i].procs[p].Done?
      ensures Contents(run[i], run[i].public) == Some(c.publicOf(run[i].procs[p].key))
    {
      assert ProcOk(c, run[i], run[i].procs[p]);
    }
  }

  /** Whatever the public name pointed to at first, its file is that one, untouched, or
      the whole public half of the stored key. */
  ghost predicate PublicWhole(c: Codec, s0: State, s: State) {
    s.public.Some? ==>
      || (s.public == s0.public && Contents(s, s.public) == Contents(s0, s0.public))
      || (StoredKey(c, s).Some? && Contents(s, s.public) == Some(c.publicOf(StoredKey(c, s).value)))
  }

  lemma WholeStep(c: Codec, s0: State, s: State, step: Step)
    requires Sound(c) && Inv(c, s) && Enabled(c, s, step) && PublicWhole(c, s0, s)
    ensures PublicWhole(c, s0, Apply(c, s, step))
  {
    StepInv(c, s, step);
    if step.p in s.procs {
      assert ProcOk(c, s, s.procs[step.p]);
    }
    if step.Write? {
      assert Owns(s.procs[step.p], s.procs[step.p].ino);
      assert Private(s, step.p, s.procs[step.p].ino);
    }
  }

  /** The public file is never partial, even when a stale one is replaced. */
  lemma {:induction false} PublicNeverPartial(c: Codec, run: seq<State>, steps: seq<Step>, i: nat)
    requires Sound(c) && IsRun(c, run, steps) && i < |run|
    ensures PublicWhole(c, run[0], run[i])
  {
    if i > 0 {
      PublicNeverPartial(c, run, steps, i - 1);
      RunInv(c, run, steps, i - 1);
      assert StepAt(c, run, steps, i - 1);
      WholeStep(c, run[0], run[i - 1], steps[i - 1]);
    }
  }
}
