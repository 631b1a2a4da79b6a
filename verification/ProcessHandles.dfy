/** `ProcessHandle` and its construction by `from_pid`, one system call at a time. */
module ProcessHandles {
  import opened Wrappers
  import opened Kernel

  /** The two descriptors are modelled by the instance each of them refers to. */
  datatype Handle = Handle(pid: Pid, parentPid: Pid, executable: Option<string>, procDir: Instance, pidfd: Instance)

  /** The program points of `from_pid`, named after the system call that comes next. */
  datatype Builder =
    | OpenDir(pid: Pid)
    | OpenPidfd(pid: Pid, dir: Instance)
    | ReadStatus(pid: Pid, dir: Instance, fd: Instance)
    | ReadExe(pid: Pid, dir: Instance, fd: Instance, ppid: Pid)
    | Built(pid: Pid, handle: Handle)
    | Failed(pid: Pid)

  const DELETED: string := " (deleted)"

  function StripDeleted(path: string): string {
    if |DELETED| <= |path| && path[|path| - |DELETED|..] == DELETED then path[..|path| - |DELETED|] else path
  }

  function ExecutableName(link: ExeLink): Option<string> {
    if link.Path? then Some(StripDeleted(link.text)) else None
  }

  /** The name is that of the link, less one suffix that the kernel adds for a file that has been deleted; a link that is not UTF-8 gives none. */
  ghost predicate Names(link: ExeLink, executable: Option<string>) {
    match link
    case Unreadable => false
    case NotUtf8 => executable == None
    case Path(text) =>
      && executable.Some?
      && (|| text == executable.value + " (deleted)"
          || (text == executable.value && forall name :: text != name + " (deleted)"))
  }

  lemma ExecutableNamed(link: ExeLink)
    requires !link.Unreadable?
    ensures Names(link, ExecutableName(link))
  {
    if link.Path? {
      var text, name := link.text, StripDeleted(link.text);
      if |DELETED| <= |text| && text[|text| - |DELETED|..] == DELETED {
        assert text == name + DELETED;
      } else {
        forall other ensures text != other + " (deleted)" {
          assert (other + " (deleted)")[|other|..] == DELETED;
        }
      }
    }
  }

  /** Only one name fits. */
  lemma NameUnique(link: ExeLink, a: Option<string>, b: Option<string>)
    requires Names(link, a) && Names(link, b)
    ensures a == b
  {
    if link.Path? && link.text == a.value + " (deleted)" && link.text == b.value + " (deleted)" {
      assert a.value == link.text[..|link.text| - |DELETED|] == b.value;
    }
  }

  /** One system call of `from_pid` against the kernel as it is now; `granted` is false when the call fails for a reason outside the model. */
  function Advance(k: Machine, b: Builder, granted: bool): (b': Builder)
    ensures b'.pid == b.pid
  {
    match b
    case OpenDir(pid) =>
      if granted && k.Holder(pid).Some? then OpenPidfd(pid, k.Holder(pid).value) else Failed(pid)
    case OpenPidfd(pid, dir) =>
      if granted && k.Holder(pid).Some? then ReadStatus(pid, dir, k.Holder(pid).value) else Failed(pid)
    case ReadStatus(pid, dir, fd) =>
      if granted && k.Live(dir) then ReadExe(pid, dir, fd, k.ParentPid(dir)) else Failed(pid)
    case ReadExe(pid, dir, fd, ppid) =>
      if granted && k.Live(dir) && !k.processes[dir].exe.Unreadable? then
        Built(pid, Handle(pid, ppid, ExecutableName(k.processes[dir].exe), dir, fd))
      else Failed(pid)
    case Built(_, _) => b
    case Failed(_) => b
  }

  /** Both descriptors of the handle belong to one instance, and that instance has the handle's pid. */
  predicate Sound(k: Machine, h: Handle) {
    k.HasPid(h.procDir, h.pid) && h.pidfd == h.procDir
  }

  /** Another call is to come. */
  predicate Pending(b: Builder) {
    !b.Built? && !b.Failed?
  }

  /** What is known at each program point, whatever happens outside. */
  predicate BuilderOk(k: Machine, b: Builder) {
    match b
    case OpenDir(_) => true
    case OpenPidfd(pid, dir) => k.HasPid(dir, pid)
    case ReadStatus(pid, dir, fd) => k.HasPid(dir, pid) && k.HasPid(fd, pid) && (k.Live(dir) ==> fd == dir)
    case ReadExe(pid, dir, fd, _) => k.HasPid(dir, pid) && fd == dir
    case Built(pid, h) => Sound(k, h) && h.pid == pid
    case Failed(_) => true
  }

  lemma AdvanceKeepsOk(k: Machine, b: Builder, granted: bool)
    requires k.Valid() && BuilderOk(k, b)
    ensures BuilderOk(k, Advance(k, b, granted))
  {
  }

  /** Successive moments, with anything at all happening in between. */
  ghost predicate History(moments: seq<Machine>) {
    && (moments != [] ==> moments[0].Valid())
    && (forall m | 0 <= m < |moments| - 1 :: Evolves(moments[m], moments[m + 1]))
  }

  lemma {:induction false} HistoryKeeps(moments: seq<Machine>, a: nat, b: nat)
    requires History(moments) && a <= b < |moments|
    ensures moments[b].Valid() && |moments[a].processes| <= |moments[b].processes|
    ensures forall i: Instance, pid :: moments[a].HasPid(i, pid) ==> moments[b].HasPid(i, pid)
    ensures forall i: Instance :: moments[b].Live(i) && i < |moments[a].processes| ==> moments[a].Live(i)
  {
    if a < b {
      HistoryKeeps(moments, a, b - 1);
      assert Evolves(moments[b - 1], moments[b - 1 + 1]);
    } else if b > 0 {
      assert Evolves(moments[b - 1], moments[b - 1 + 1]);
    }
  }

  // ---- the order of the calls

  datatype SystemCall = DirOpen | PidfdOpen | StatusRead | ExeRead

  const SOURCE_ORDER: seq<SystemCall> := [DirOpen, PidfdOpen, StatusRead, ExeRead]

  predicate IsRead(call: SystemCall) {
    call.StatusRead? || call.ExeRead?
  }

  /** Directory and pidfd are opened once each, at `o` and `p`; all other calls read through the open directory. */
  predicate IsOrder(order: seq<SystemCall>, o: nat, p: nat) {
    && o < |order| && p < |order| && order[o] == DirOpen && order[p] == PidfdOpen
    && (forall j | 0 <= j < |order| && j != o && j != p :: IsRead(order[j]) && o < j)
  }

  /** What the call needs in order to succeed, when the two opens give `dir` and `fd`. */
  predicate CanSucceed(k: Machine, call: SystemCall, pid: Pid, dir: Instance, fd: Instance) {
    match call
    case DirOpen => k.Holder(pid) == Some(dir)
    case PidfdOpen => k.Holder(pid) == Some(fd)
    case StatusRead => k.Live(dir)
    case ExeRead => k.Live(dir) && !k.processes[dir].exe.Unreadable?
  }

  ghost predicate AllSucceed(order: seq<SystemCall>, moments: seq<Machine>, pid: Pid, dir: Instance, fd: Instance) {
    |moments| == |order| && forall j | 0 <= j < |order| :: CanSucceed(moments[j], order[j], pid, dir, fd)
  }

  /** Whenever all calls succeed, both descriptors refer to one process. */
  ghost predicate OrderIsSafe(order: seq<SystemCall>, pid: Pid) {
    forall moments, dir, fd | History(moments) && AllSucceed(order, moments, pid, dir, fd) :: fd == dir
  }

  lemma ReadAfterPidfdIsSafe(order: seq<SystemCall>, o: nat, p: nat, j: nat, moments: seq<Machine>, pid: Pid, dir: Instance, fd: Instance)
    requires IsOrder(order, o, p) && o < p < j < |order|
    requires History(moments) && AllSucceed(order, moments, pid, dir, fd)
    ensures fd == dir
  {
    assert CanSucceed(moments[o], order[o], pid, dir, fd) && CanSucceed(moments[p], order[p], pid, dir, fd);
    assert CanSucceed(moments[j], order[j], pid, dir, fd);
    HistoryKeeps(moments, o, p);
    HistoryKeeps(moments, p, j);
    OneHolder(moments[p], dir, fd);
  }

  /** The pid changes hands once, before call number `cut`. */
  function ReusedAt(pid: Pid, n: nat, cut: nat): seq<Machine> {
    var first := Process(pid, true, None, Path("/bin/first"));
    seq(n, m => if m < cut then Machine([first], 0) else Machine([first.(live := false), first], 0))
  }

  lemma ReuseIsAHistory(pid: Pid, n: nat, cut: nat)
    requires 0 < pid
    ensures History(ReusedAt(pid, n, cut))
    ensures forall m | 0 <= m < n :: ReusedAt(pid, n, cut)[m].Holder(pid) == Some(if m < cut then 0 else 1)
  {
    forall m | 0 <= m < n ensures ReusedAt(pid, n, cut)[m].Holder(pid) == Some(if m < cut then 0 else 1) {
      assert ReusedAt(pid, n, cut)[m].Live(if m < cut then 0 else 1);
    }
  }

  /** A history in which everything succeeds and the descriptors differ, for an order in which no read tells whether the pid was reused. */
  lemma OtherOrderIsUnsafe(order: seq<SystemCall>, o: nat, p: nat, pid: Pid)
    requires IsOrder(order, o, p) && 0 < pid
    requires p < o || p == |order| - 1
    ensures !OrderIsSafe(order, pid)
  {
    var cut := if p < o then p + 1 else p;
    var moments := ReusedAt(pid, |order|, cut);
    var dir, fd := if p < o then 1 else 0, if p < o then 0 else 1;
    ReuseIsAHistory(pid, |order|, cut);
    assert AllSucceed(order, moments, pid, dir, fd);
  }

  /**
   Among all orders of opening the directory, opening the pidfd and any number
   of reads through the directory, the safe ones are exactly those in which the
   pidfd is opened after the directory and before the last of the reads.
   */
  lemma OrderIsSafeIff(order: seq<SystemCall>, o: nat, p: nat, pid: Pid)
    requires IsOrder(order, o, p) && 0 < pid
    ensures OrderIsSafe(order, pid) <==> o < p && exists j :: p < j < |order| && IsRead(order[j])
  {
    if o < p < |order| - 1 {
      var j := |order| - 1;
      assert IsRead(order[j]);
      forall moments, dir, fd | History(moments) && AllSucceed(order, moments, pid, dir, fd) ensures fd == dir {
        ReadAfterPidfdIsSafe(order, o, p, j, moments, pid, dir, fd);
      }
    } else {
      OtherOrderIsUnsafe(order, o, p, pid);
    }
  }

  // ---- the whole of `from_pid`

  /** Instance `i` held `pid`, unreaped, at every one of the moments. */
  ghost predicate HeldThroughout(moments: seq<Machine>, i: Instance, pid: Pid) {
    forall m | 0 <= m < |moments| :: moments[m].Live(i) && moments[m].HasPid(i, pid)
  }

  /**
   `from_pid` against four successive states of the machine, one per system
   call, with anything at all happening in between. It succeeds exactly when
   one instance held the pid from the first call to the last, its `exe` link
   could be read and no call was refused; everything in the handle then
   describes that instance.
   */
  method FromPid(pid: Pid, moments: seq<Machine>, granted: seq<bool>) returns (r: Result<Handle>)
    requires |moments| == 4 && History(moments) && |granted| == 4
    ensures r.Ok? ==>
              var h := r.value;
              && h.pid == pid && h.pidfd == h.procDir
              && AllSucceed(SOURCE_ORDER, moments, pid, h.procDir, h.pidfd)
              && HeldThroughout(moments, h.procDir, pid)
              && h.parentPid == moments[2].ParentPid(h.procDir)
              && Names(moments[3].processes[h.procDir].exe, h.executable)
    ensures r.Ok? <==>
            && (forall m | 0 <= m < 4 :: granted[m])
            && (exists i: Instance :: HeldThroughout(moments, i, pid) && i < |moments[3].processes| && !moments[3].processes[i].exe.Unreadable?)
  {
    assert Evolves(moments[0], moments[1]) && Evolves(moments[1], moments[2]) && Evolves(moments[2], moments[3]);
    var b := Advance(moments[0], OpenDir(pid), granted[0]);
    if b.Failed? { return Err; }
    ghost var dir := b.dir;
    b := Advance(moments[1], b, granted[1]);
    if b.Failed? { return Err; }
    b := Advance(moments[2], b, granted[2]);
    if b.Failed? { return Err; }
    // the directory is still alive, so the pid never changed hands between the two opens
    OneHolder(moments[1], dir, b.fd);
    b := Advance(moments[3], b, granted[3]);
    if b.Failed? { return Err; }
    assert HeldThroughout(moments, dir, pid);
    ExecutableNamed(moments[3].processes[dir].exe);
    return Ok(b.handle);
  }
}
