/**
 First writer wins: the fallback key under any number of concurrent callers
 (filestore/machineid.go:22-129). A caller stages a complete candidate under a private
 name and links it to the key's path; linking fails when the path exists. Every
 primitive may fail, and a caller may stop for good at any point.
*/
module FallbackKey {
  import opened AtomicFile
  import opened Basics

  type Thread = nat

  datatype Name = KeyPath | Temp(n: nat)

  /** `writer` is the only caller that may still write to the file. */
  datatype Node = Node(file: File, writer: Option<Thread>)

  /** A directory; `makers` says which caller may still remove a temporary name. */
  datatype Dir = Dir(names: map<Name, nat>, nodes: map<nat, Node>, next: nat, makers: map<nat, Thread>)

  /** Whether the key is read before or after an attempt to publish one. */
  datatype Round = First | Second

  datatype Pc =
    | Idle
    | Inspecting(round: Round)
    | Opening(round: Round, inode: nat)
    | Reading(inode: nat, got: seq<byte>)
    | SyncingExisting(key: seq<byte>)
    | Generating
    | Creating(key: seq<byte>)
    | Writing(key: seq<byte>, temp: nat, inode: nat, written: nat)
    | Linking(key: seq<byte>, temp: nat, inode: nat)
    | Unstaging(temp: nat, after: AfterCleanup)
    | SyncingPublished(key: seq<byte>)
    | Returned(key: seq<byte>)
    | Failed

  datatype AfterCleanup = GiveUp | ReadTheirs | SyncOurs(key: seq<byte>)

  datatype Action =
    | Call
    | Inspect(fails: bool)
    | Open(fails: bool)
    | Read(fails: bool)
    | Sync(fails: bool)
    | Generate(key: Option<seq<byte>>)
    | Create(n: nat, fails: bool)
    | Write(fails: bool)
    | CloseStaged(fails: bool)
    | Link(fails: bool)
    | Unstage(fails: bool)

  function KeyFile(d: Dir): Option<File> {
    if KeyPath in d.names && d.names[KeyPath] in d.nodes then Some(d.nodes[d.names[KeyPath]].file)
    else None
  }

  predicate LooksLikeKey(f: File) {
    f.Regular? && |f.data| == KEY_LENGTH
  }

  function Do(d: Dir, t: Thread, pc: Pc, act: Action): Option<(Dir, Pc)> {
    match act
    case Call =>
      if pc.Idle? || pc.Returned? || pc.Failed? then Some((d, Inspecting(First))) else None
    case Inspect(fails) =>
      // Lstat and the checks on its result; only "does not exist" leads on to publishing.
      if !pc.Inspecting? then None
      else if fails then Some((d, Failed))
      else
        var found := KeyFile(d);
        if found.None? then Some((d, if pc.round.First? then Generating else Failed))
        else if LooksLikeKey(found.value) then Some((d, Opening(pc.round, d.names[KeyPath])))
        else Some((d, Failed))
    case Open(fails) =>
      // The opened file must be the inspected one, still regular and of the key's size.
      if !pc.Opening? then None
      else if fails || KeyFile(d).None? || d.names[KeyPath] != pc.inode
              || !LooksLikeKey(KeyFile(d).value) then Some((d, Failed))
      else Some((d, Reading(pc.inode, [])))
    case Read(fails) =>
      // One byte at a time into the buffer; then exactly the end of the file.
      if !pc.Reading? || pc.inode !in d.nodes then None
      else
        var f := d.nodes[pc.inode].file;
        if fails || !f.Regular? then Some((d, Failed))
        else if |pc.got| < KEY_LENGTH then
          if |pc.got| < |f.data| then Some((d, Reading(pc.inode, pc.got + [f.data[|pc.got|]])))
          else Some((d, Failed))
        else if |f.data| != KEY_LENGTH then Some((d, Failed))
        else Some((d, SyncingExisting(pc.got)))
    case Sync(fails) =>
      if pc.SyncingExisting? || pc.SyncingPublished? then
        Some((d, if fails then Failed else Returned(pc.key)))
      else None
    case Generate(key) =>
      if !pc.Generating? then None
      else if key.None? then Some((d, Failed))
      else if |key.value| != KEY_LENGTH then None
      else Some((d, Creating(key.value)))
    case Create(n, fails) =>
      if !pc.Creating? || Temp(n) in d.names then None
      else if fails then Some((d, Failed))
      else
        Some((Dir(d.names[Temp(n) := d.next],
                  d.nodes[d.next := Node(Regular([]), Some(t))],
                  d.next + 1,
                  d.makers[n := t]),
              Writing(pc.key, n, d.next, 0)))
    case Write(fails) =>
      if !pc.Writing? || pc.inode !in d.nodes || pc.written >= |pc.key| then None
      else if fails then Some((d, Unstaging(pc.temp, GiveUp)))
      else
        var f := d.nodes[pc.inode].file;
        if !f.Regular? then None
        else
          Some((d.(nodes := d.nodes[pc.inode := Node(Regular(f.data + [pc.key[pc.written]]), Some(t))]),
                pc.(written := pc.written + 1)))
    case CloseStaged(fails) =>
      if !pc.Writing? || pc.written != |pc.key| then None
      else Some((d, if fails then Unstaging(pc.temp, GiveUp) else Linking(pc.key, pc.temp, pc.inode)))
    case Link(fails) =>
      if !pc.Linking? || pc.inode !in d.nodes then None
      else if fails then Some((d, Unstaging(pc.temp, GiveUp)))
      else if KeyPath in d.names then Some((d, Unstaging(pc.temp, ReadTheirs)))
      else
        Some((d.(names := d.names[KeyPath := pc.inode],
                 nodes := d.nodes[pc.inode := d.nodes[pc.inode].(writer := None)]),
              Unstaging(pc.temp, SyncOurs(pc.key))))
    case Unstage(fails) =>
      if !pc.Unstaging? then None
      else if fails then Some((d, Failed))
      else
        Some((d.(names := d.names - {Temp(pc.temp)}, makers := d.makers - {pc.temp}),
              match pc.after
              case GiveUp => Failed
              case ReadTheirs => Inspecting(Second)
              case SyncOurs(key) => SyncingPublished(key)))
  }

  // ----- runs -------------------------------------------------------------------

  datatype System = System(dir: Dir, pcs: map<Thread, Pc>)

  function PcOf(s: System, t: Thread): Pc {
    if t in s.pcs then s.pcs[t] else Idle
  }

  /** Any directory that earlier processes left behind: the path may hold anything. */
  ghost predicate Initial(s: System) {
    && s.pcs == map[] && Shape(s.dir)
    && forall i :: i in s.dir.nodes ==> s.dir.nodes[i].writer.None?
  }

  ghost predicate Next(s: System, s': System) {
    exists t, act :: Step(s, t, act) == Some(s')
  }

  function Step(s: System, t: Thread, act: Action): Option<System> {
    match Do(s.dir, t, PcOf(s, t), act)
    case None => None
    case Some((d, pc)) => Some(System(d, s.pcs[t := pc]))
  }

  ghost predicate IsRun(run: seq<System>) {
    && |run| > 0 && Initial(run[0])
    && forall i :: 0 <= i < |run| - 1 ==> Next(run[i], run[i + 1])
  }

  // ----- invariant --------------------------------------------------------------

  ghost predicate Shape(d: Dir) {
    && (forall n :: n in d.names ==> d.names[n] in d.nodes)
    && (forall i :: i in d.nodes ==> i < d.next)
    && (forall n :: n in d.makers ==> Temp(n) in d.names)
    && (KeyPath in d.names ==> d.nodes[d.names[KeyPath]].writer.None?)
  }

  /** The complete key stands at the path. */
  predicate Published(d: Dir, key: seq<byte>) {
    |key| == KEY_LENGTH && KeyFile(d) == Some(Regular(key))
  }

  ghost predicate Owns(d: Dir, t: Thread, temp: nat) {
    temp in d.makers && d.makers[temp] == t
  }

  ghost predicate Staged(d: Dir, t: Thread, temp: nat, inode: nat, content: seq<byte>) {
    && Owns(d, t, temp)
    && inode in d.nodes && d.nodes[inode] == Node(Regular(content), Some(t))
  }

  ghost predicate Fits(d: Dir, t: Thread, pc: Pc) {
    match pc
    case Opening(_, inode) =>
      KeyPath in d.names && d.names[KeyPath] == inode
    case Reading(inode, got) =>
      && KeyPath in d.names && d.names[KeyPath] == inode
      && KeyFile(d).Some? && LooksLikeKey(KeyFile(d).value)
      && got <= KeyFile(d).value.data
    case SyncingExisting(key) => Published(d, key)
    case Creating(key) => |key| == KEY_LENGTH
    case Writing(key, temp, inode, written) =>
      && |key| == KEY_LENGTH && written <= |key|
      && Staged(d, t, temp, inode, key[..written])
    case Linking(key, temp, inode) => |key| == KEY_LENGTH && Staged(d, t, temp, inode, key)
    case Unstaging(temp, after) =>
      Owns(d, t, temp) && (after.SyncOurs? ==> Published(d, after.key))
    case SyncingPublished(key) => Published(d, key)
    case Returned(key) => Published(d, key)
    case _ => true
  }

  /** The key's path, once taken, shows the same file for ever. */
  ghost predicate Settled(d: Dir, d': Dir) {
    KeyPath in d.names ==>
      && KeyPath in d'.names && d'.names[KeyPath] == d.names[KeyPath]
      && KeyFile(d') == KeyFile(d)
  }

  ghost predicate Rely(t: Thread, d: Dir, d': Dir) {
    && Settled(d, d')
    && (forall i :: i in d.nodes && d.nodes[i].writer == Some(t) ==>
          i in d'.nodes && d'.nodes[i] == d.nodes[i])
    && (forall n :: n in d.makers && d.makers[n] == t ==> n in d'.makers && d'.makers[n] == t)
  }

  lemma StepKeeps(d: Dir, t: Thread, pc: Pc, act: Action, d': Dir, pc': Pc)
    requires Shape(d) && Fits(d, t, pc) && Do(d, t, pc, act) == Some((d', pc'))
    ensures Shape(d') && Fits(d', t, pc')
    ensures Settled(d, d')
    ensures forall u :: u != t ==> Rely(u, d, d')
  {
    hide *;
    StepRely(d, t, pc, act, d', pc');
    StepShape(d, t, pc, act, d', pc');
    match act
    case Create(_, _) => WriterFits(d, t, pc, act, d', pc');
    case Write(_) => WriterFits(d, t, pc, act, d', pc');
    case CloseStaged(_) => WriterFits(d, t, pc, act, d', pc');
    case Link(_) => PublisherFits(d, t, pc, act, d', pc');
    case Unstage(_) => PublisherFits(d, t, pc, act, d', pc');
    case _ => ReaderFits(d, t, pc, act, d', pc');
  }

  lemma WriterFits(d: Dir, t: Thread, pc: Pc, act: Action, d': Dir, pc': Pc)
    requires Fits(d, t, pc) && Do(d, t, pc, act) == Some((d', pc'))
    requires act.Create? || act.Write? || act.CloseStaged?
    ensures Fits(d', t, pc')
  {
    if act.Write? && pc'.Writing? {
      assert pc.key[..pc.written + 1] == pc.key[..pc.written] + [pc.key[pc.written]];
    } else if act.CloseStaged? && pc'.Linking? {
      assert pc.key[..pc.written] == pc.key;
    }
  }

  lemma PublisherFits(d: Dir, t: Thread, pc: Pc, act: Action, d': Dir, pc': Pc)
    requires Fits(d, t, pc) && Do(d, t, pc, act) == Some((d', pc'))
    requires act.Link? || act.Unstage?
    ensures Fits(d', t, pc')
  {}

  lemma ReaderFits(d: Dir, t: Thread, pc: Pc, act: Action, d': Dir, pc': Pc)
    requires Fits(d, t, pc) && Do(d, t, pc, act) == Some((d', pc'))
    requires act.Call? || act.Inspect? || act.Open? || act.Read? || act.Sync? || act.Generate?
    ensures Fits(d', t, pc')
  {
    if act.Read? && pc'.SyncingExisting? {
      assert pc.got == KeyFile(d).value.data[..|pc.got|] == KeyFile(d).value.data;
    }
  }

  lemma StepShape(d: Dir, t: Thread, pc: Pc, act: Action, d': Dir, pc': Pc)
    requires Shape(d) && Fits(d, t, pc) && Do(d, t, pc, act) == Some((d', pc'))
    ensures Shape(d')
  {}

  lemma StepRely(d: Dir, t: Thread, pc: Pc, act: Action, d': Dir, pc': Pc)
    requires Shape(d) && Fits(d, t, pc) && Do(d, t, pc, act) == Some((d', pc'))
    ensures Settled(d, d')
    ensures forall u :: u != t ==> Rely(u, d, d')
  {}

  lemma RelyKeepsFits(t: Thread, pc: Pc, d: Dir, d': Dir)
    requires Shape(d) && Fits(d, t, pc) && Rely(t, d, d')
    ensures Fits(d', t, pc)
  {}

  ghost predicate Inv(s: System) {
    Shape(s.dir) && forall t :: Fits(s.dir, t, PcOf(s, t))
  }

  lemma NextKeepsInv(s: System, s': System)
    requires Inv(s) && Next(s, s')
    ensures Inv(s') && Settled(s.dir, s'.dir)
  {
    var t, act :| Step(s, t, act) == Some(s');
    StepKeeps(s.dir, t, PcOf(s, t), act, s'.dir, PcOf(s', t));
    forall u ensures Fits(s'.dir, u, PcOf(s', u)) {
      if u != t {
        assert PcOf(s', u) == PcOf(s, u);
        RelyKeepsFits(u, PcOf(s, u), s.dir, s'.dir);
      }
    }
  }

  lemma {:induction false} RunInv(run: seq<System>, i: nat)
    requires IsRun(run) && i < |run|
    ensures Inv(run[i])
  {
    if i > 0 {
      RunInv(run, i - 1);
      assert Next(run[i - 1], run[i - 1 + 1]);
      NextKeepsInv(run[i - 1], run[i]);
    }
  }

  // ----- main results -----------------------------------------------------------

  /** The file at the key's path never changes once it is there. */
  lemma {:induction false} KeyNeverChanges(run: seq<System>, i: nat, j: nat)
    requires IsRun(run) && i <= j < |run|
    ensures Settled(run[i].dir, run[j].dir)
    decreases j
  {
    hide Do, Fits, Initial;
    if i < j {
      KeyNeverChanges(run, i, j - 1);
      RunInv(run, j - 1);
      assert Next(run[j - 1], run[j - 1 + 1]);
      NextKeepsInv(run[j - 1], run[j]);
    }
  }

  /** Any two callers that succeed, at any two moments of any interleaving, return the
      same 32-byte key, and it is the content of the file at the path from then on. */
  lemma Agreement(run: seq<System>, i: nat, j: nat, t: Thread, u: Thread)
    requires IsRun(run) && i <= j < |run|
    requires PcOf(run[i], t).Returned? && PcOf(run[j], u).Returned?
    ensures PcOf(run[i], t).key == PcOf(run[j], u).key
    ensures |PcOf(run[i], t).key| == KEY_LENGTH
    ensures KeyFile(run[j].dir) == Some(Regular(PcOf(run[i], t).key))
  {
    RunInv(run, i);
    RunInv(run, j);
    KeyNeverChanges(run, i, j);
    assert Fits(run[i].dir, t, PcOf(run[i], t));
    assert Fits(run[j].dir, u, PcOf(run[j], u));
  }

  /** When no file was there at the start, the path only ever shows a complete key,
      however many writers fail half-way. */
  lemma {:induction false} NeverPartial(run: seq<System>, i: nat)
    requires IsRun(run) && i < |run| && KeyPath !in run[0].dir.names
    ensures KeyFile(run[i].dir).Some? ==> LooksLikeKey(KeyFile(run[i].dir).value)
  {
    hide Do, Shape, Fits, LooksLikeKey, Initial;
    if i > 0 {
      NeverPartial(run, i - 1);
      RunInv(run, i - 1);
      assert Next(run[i - 1], run[i - 1 + 1]);
      var t, act :| Step(run[i - 1], t, act) == Some(run[i]);
      assert Fits(run[i - 1].dir, t, PcOf(run[i - 1], t));
      NextKeepsInv(run[i - 1], run[i]);
      if KeyPath !in run[i - 1].dir.names && KeyPath in run[i].dir.names {
        PublishesComplete(run[i - 1].dir, t, PcOf(run[i - 1], t), act, run[i].dir, PcOf(run[i], t));
      }
    }
  }

  lemma PublishesComplete(d: Dir, t: Thread, pc: Pc, act: Action, d': Dir, pc': Pc)
    requires Shape(d) && Fits(d, t, pc) && Do(d, t, pc, act) == Some((d', pc'))
    requires KeyPath !in d.names && KeyPath in d'.names
    ensures KeyFile(d').Some? && LooksLikeKey(KeyFile(d').value)
  {}
}
