/** When the cached parent links stay free of cycles: the exact step that closes one, and why none does without pid reuse. */
module DaemonAncestry {
  import opened Wrappers
  import opened Kernel
  import opened ProcessHandles
  import opened Ancestry
  import opened Scheduling
  import opened Daemon
  import opened DaemonSafety

  /** Whoever holds or ever held the parent pid was born before the instance itself. */
  ghost predicate LinkOk(k: Machine, parentPid: Pid, child: Instance) {
    forall i | 0 <= i < |k.processes| && k.processes[i].pid == parentPid :: i < child
  }

  ghost predicate CacheLinksOk(k: Machine, cache: ProcessCache) {
    forall pid | Present(cache, pid) :: LinkOk(k, cache[pid].value.parentPid, cache[pid].value.procDir)
  }

  /** The handle that a thread is building for the cache. */
  function BuilderAt(pc: Pc): Option<Builder> {
    match pc
    case AtEvent(EventBuild(_, b)) => Some(b)
    case AtPopulate(PopBuild(_, _, _, b)) => Some(b)
    case _ => None
  }

  ghost predicate BuilderLinkOk(k: Machine, b: Builder) {
    !b.Built? && (b.ReadExe? ==> LinkOk(k, b.ppid, b.dir))
  }

  ghost predicate PointLinkOk(k: Machine, pc: Pc) {
    BuilderAt(pc).Some? ==> BuilderLinkOk(k, BuilderAt(pc).value)
  }

  ghost predicate LinksOk(w: World) {
    && CacheLinksOk(w.shared.kernel, w.shared.cache)
    && (forall t: ThreadId :: PointLinkOk(w.shared.kernel, At(w, t)))
  }

  predicate NamedAt(pc: Pc, pid: Pid) {
    BuilderAt(pc).Some? && BuilderAt(pc).value.ReadExe? && BuilderAt(pc).value.ppid == pid
  }

  /** The pid is named as parent by a cached handle or by one on its way into the cache. */
  ghost predicate Named(w: World, pid: Pid) {
    || (exists q :: Present(w.shared.cache, q) && w.shared.cache[q].value.parentPid == pid)
    || (exists t: ThreadId :: NamedAt(At(w, t), pid))
  }

  /** No process born in this step gets a pid that is named as a parent. */
  ghost predicate NoReuse(w: World, a: Action) {
    a.Outside? && Evolves(w.shared.kernel, a.kernel) ==>
      forall i | |w.shared.kernel.processes| <= i < |a.kernel.processes| :: !Named(w, a.kernel.processes[i].pid)
  }

  ghost predicate NoReuseRun(s: Setup, kernel: Machine, actions: seq<Action>) {
    actions != [] ==>
      var before := actions[..|actions| - 1];
      NoReuseRun(s, kernel, before) && NoReuse(Run(s, kernel, before), actions[|actions| - 1])
  }

  /** The parent that a live process reports was born before it, and so was everyone who had that pid. */
  lemma ReportedParentOk(k: Machine, i: Instance)
    requires k.Valid() && k.Live(i)
    ensures LinkOk(k, k.ParentPid(i), i)
  {
  }

  ghost predicate EffectLinks(k: Machine, e: Effect) {
    CacheLinksOk(k, e.0.cache) && PointLinkOk(k, e.1)
  }

  lemma EventLinksOk(s: Setup, w: Shared, t: ThreadId, p: EventPoint, i: Input)
    requires w.kernel.Valid() && CacheLinksOk(w.kernel, w.cache) && PointLinkOk(w.kernel, AtEvent(p))
    ensures EffectLinks(w.kernel, EventTurn(s, w, t, p, i))
  {
  }

  lemma PopulateLinksOk(w: Shared, t: ThreadId, p: PopulatePoint, i: Input)
    requires w.kernel.Valid() && CacheLinksOk(w.kernel, w.cache) && PointLinkOk(w.kernel, AtPopulate(p))
    ensures EffectLinks(w.kernel, PopulateTurn(w, t, p, i))
  {
  }

  lemma MessageLinksOk(s: Setup, w: Shared, t: ThreadId, p: MessagePoint, i: Input)
    requires CacheLinksOk(w.kernel, w.cache)
    ensures EffectLinks(w.kernel, MessageTurn(s, w, t, p, i))
  {
  }

  lemma OomLinksOk(s: Setup, w: Shared, t: ThreadId, p: OomPoint, i: Input)
    requires CacheLinksOk(w.kernel, w.cache)
    ensures EffectLinks(w.kernel, OomTurn(s, w, t, p, i))
  {
  }

  lemma ExitLinksOk(s: Setup, w: Shared, t: ThreadId, p: ExitPoint, i: Input)
    requires CacheLinksOk(w.kernel, w.cache)
    ensures EffectLinks(w.kernel, ExitTurn(s, w, t, p, i))
  {
  }

  lemma PassLinksOk(s: Setup, w: Shared, t: ThreadId, p: PassPoint, i: Input)
    requires CacheLinksOk(w.kernel, w.cache)
    ensures EffectLinks(w.kernel, PassTurn(s, w, t, p, i))
  {
  }

  lemma EffectLinksOk(s: Setup, w: Shared, t: ThreadId, pc: Pc, i: Input)
    requires w.kernel.Valid() && CacheLinksOk(w.kernel, w.cache) && PointLinkOk(w.kernel, pc)
    ensures EffectLinks(w.kernel, EffectOf(s, w, t, pc, i))
  {
    match pc {
      case AtMessage(p) => MessageLinksOk(s, w, t, p, i);
      case AtExit(p) => ExitLinksOk(s, w, t, p, i);
      case AtEvent(p) => EventLinksOk(s, w, t, p, i);
      case AtPopulate(p) => PopulateLinksOk(w, t, p, i);
      case AtPass(p) => PassLinksOk(s, w, t, p, i);
      case AtOom(p) => OomLinksOk(s, w, t, p, i);
      case Stopped =>
    }
  }

  lemma LinkOkGrows(k: Machine, k': Machine, parentPid: Pid, child: Instance)
    requires LinkOk(k, parentPid, child) && Evolves(k, k')
    requires forall i | |k.processes| <= i < |k'.processes| :: k'.processes[i].pid != parentPid
    ensures LinkOk(k', parentPid, child)
  {
  }

  lemma OutsideLinksOk(w: World, k: Machine, table: Table)
    requires LinksOk(w) && Evolves(w.shared.kernel, k) && NoReuse(w, Outside(k, table))
    ensures LinksOk(Changed(w, k, table))
  {
    var w' := Changed(w, k, table);
    forall pid | Present(w.shared.cache, pid)
      ensures LinkOk(k, w.shared.cache[pid].value.parentPid, w.shared.cache[pid].value.procDir)
    {
      var h := w.shared.cache[pid].value;
      assert Named(w, h.parentPid);
      LinkOkGrows(w.shared.kernel, k, h.parentPid, h.procDir);
    }
    forall t: ThreadId ensures PointLinkOk(k, At(w', t)) {
      assert At(w', t) == At(w, t) && PointLinkOk(w.shared.kernel, At(w, t));
      var b := BuilderAt(At(w, t));
      if b.Some? && b.value.ReadExe? {
        assert NamedAt(At(w, t), b.value.ppid);
        assert Named(w, b.value.ppid);
        LinkOkGrows(w.shared.kernel, k, b.value.ppid, b.value.dir);
      }
    }
  }

  lemma ApplyKeepsLinks(s: Setup, w: World, a: Action)
    requires Invariant(s, w) && LinksOk(w) && NoReuse(w, a)
    ensures LinksOk(Apply(s, w, a))
  {
    match a {
      case Outside(k, table) =>
        if Evolves(w.shared.kernel, k) { OutsideLinksOk(w, k, table); }
      case Turn(t, i) =>
        if !w.shared.exited {
          var w' := TurnOf(s, w, t, i);
          EffectLinksOk(s, w.shared, t, At(w, t), i);
          EffectDisciplined(s, w.shared, t, At(w, t), i);
          forall u: ThreadId ensures PointLinkOk(w'.shared.kernel, At(w', u)) {
            if u != t { assert At(w', u) == At(w, u); }
          }
        }
    }
  }

  lemma {:induction false} LinksHold(s: Setup, kernel: Machine, actions: seq<Action>)
    requires kernel.Valid() && NoReuseRun(s, kernel, actions)
    ensures LinksOk(Run(s, kernel, actions))
  {
    if actions == [] {
    } else {
      var before := actions[..|actions| - 1];
      LinksHold(s, kernel, before);
      InvariantHolds(s, kernel, before);
      ApplyKeepsLinks(s, Run(s, kernel, before), actions[|actions| - 1]);
    }
  }

  /**
   In every run in which no named parent pid is given to a new process, every
   cached parent link leads to an earlier-born instance. So the links form no
   cycle, and every ancestor walk that any thread starts comes to an end.
   */
  lemma NoReuseNoCycle(s: Setup, kernel: Machine, actions: seq<Action>)
    requires kernel.Valid() && NoReuseRun(s, kernel, actions)
    ensures var cache := Run(s, kernel, actions).shared.cache;
            BirthOrdered(cache) && AllWalksEnd(cache) && forall x :: !ReachesCycle(x, cache)
  {
    LinksHold(s, kernel, actions);
    InvariantHolds(s, kernel, actions);
    var w := Run(s, kernel, actions).shared;
    var cache := w.cache;
    forall pid: Pid | Present(cache, pid) && Present(cache, cache[pid].value.parentPid)
      ensures cache[cache[pid].value.parentPid].value.procDir < cache[pid].value.procDir
    {
      var parent := cache[cache[pid].value.parentPid].value;
      assert Sound(w.kernel, parent);
    }
    forall x ensures WalkEnds(x, cache) && !ReachesCycle(x, cache) {
      BirthOrderEndsWalks(x, cache);
    }
  }

  // ---- the step that closes a cycle

  /** The handle that a step files in the cache, and the pid under which it does. */
  function Filed(w: Shared, pc: Pc, i: Input): Option<(Pid, Handle)> {
    match pc
    case AtEvent(EventBuild(_, b)) =>
      var b' := Advance(w.kernel, b, i.granted);
      if b'.Built? then Some((b.pid, b'.handle)) else None
    case AtPopulate(PopBuild(_, _, _, b)) =>
      var b' := Advance(w.kernel, b, i.granted);
      if b'.Built? && b.pid !in w.cache then Some((b.pid, b'.handle)) else None
    case _ => None
  }

  lemma FiledIsInserted(s: Setup, w: Shared, t: ThreadId, pc: Pc, i: Input)
    requires Filed(w, pc, i).Some?
    ensures EffectOf(s, w, t, pc, i).0.cache == w.cache[Filed(w, pc, i).value.0 := Some(Filed(w, pc, i).value.1)]
  {
  }

  lemma EventOnlyRemoves(s: Setup, w: Shared, t: ThreadId, p: EventPoint, i: Input)
    requires Filed(w, AtEvent(p), i).None?
    ensures SubCache(EventTurn(s, w, t, p, i).0.cache, w.cache)
  {
  }

  lemma PopulateOnlyRemoves(s: Setup, w: Shared, t: ThreadId, p: PopulatePoint, i: Input)
    requires Filed(w, AtPopulate(p), i).None?
    ensures SubCache(PopulateTurn(w, t, p, i).0.cache, w.cache)
  {
  }

  lemma ExitOnlyRemoves(s: Setup, w: Shared, t: ThreadId, p: ExitPoint, i: Input)
    ensures SubCache(ExitTurn(s, w, t, p, i).0.cache, w.cache)
  {
  }

  lemma MessageKeepsCache(s: Setup, w: Shared, t: ThreadId, p: MessagePoint, i: Input)
    ensures MessageTurn(s, w, t, p, i).0.cache == w.cache
  {
  }

  lemma PassKeepsCache(s: Setup, w: Shared, t: ThreadId, p: PassPoint, i: Input)
    ensures PassTurn(s, w, t, p, i).0.cache == w.cache
  {
  }

  lemma OomKeepsCache(s: Setup, w: Shared, t: ThreadId, p: OomPoint, i: Input)
    ensures OomTurn(s, w, t, p, i).0.cache == w.cache
  {
  }

  lemma OthersKeepCache(s: Setup, w: Shared, t: ThreadId, pc: Pc, i: Input)
    requires pc.AtMessage? || pc.AtPass? || pc.AtOom? || pc.Stopped?
    ensures EffectOf(s, w, t, pc, i).0.cache == w.cache
  {
    match pc {
      case AtMessage(p) => MessageKeepsCache(s, w, t, p, i);
      case AtPass(p) => PassKeepsCache(s, w, t, p, i);
      case AtOom(p) => OomKeepsCache(s, w, t, p, i);
      case Stopped =>
    }
  }

  /** Without the entry that it is about to replace or add, the walk from the handle asks for the pid under which it is filed. */
  ghost predicate FilesItsOwnAncestor(w: Shared, pc: Pc, i: Input) {
    Filed(w, pc, i).Some? && var (pid, h) := Filed(w, pc, i).value; LooksUp(h, w.cache - {pid}, pid)
  }

  /** The exact condition, decidable before the step, under which a step of any thread makes walks endless. */
  lemma StepClosesCycleIff(s: Setup, w: Shared, t: ThreadId, pc: Pc, i: Input)
    requires AllWalksEnd(w.cache)
    ensures AllWalksEnd(EffectOf(s, w, t, pc, i).0.cache) <==> !FilesItsOwnAncestor(w, pc, i)
  {
    var cache' := EffectOf(s, w, t, pc, i).0.cache;
    if Filed(w, pc, i).Some? {
      var (pid, h) := Filed(w, pc, i).value;
      FiledIsInserted(s, w, t, pc, i);
      InsertKeepsWalksIff(h, w.cache, pid);
    } else {
      match pc {
        case AtEvent(p) => EventOnlyRemoves(s, w, t, p, i);
        case AtPopulate(p) => PopulateOnlyRemoves(s, w, t, p, i);
        case AtExit(p) => ExitOnlyRemoves(s, w, t, p, i);
        case _ => OthersKeepCache(s, w, t, pc, i);
      }
      RemovalKeepsWalks(w.cache, cache');
    }
  }

  ghost predicate ClosesCycle(w: World, a: Action) {
    a.Turn? && !w.shared.exited && FilesItsOwnAncestor(w.shared, At(w, a.thread), a.input)
  }

  /** After the run, and at every moment of it, every walk ends. */
  ghost predicate AcyclicThroughout(s: Setup, kernel: Machine, actions: seq<Action>) {
    && AllWalksEnd(Run(s, kernel, actions).shared.cache)
    && (actions != [] ==> AcyclicThroughout(s, kernel, actions[..|actions| - 1]))
  }

  ghost predicate NoStepCloses(s: Setup, kernel: Machine, actions: seq<Action>) {
    actions != [] ==>
      var before := actions[..|actions| - 1];
      NoStepCloses(s, kernel, before) && !ClosesCycle(Run(s, kernel, before), actions[|actions| - 1])
  }

  lemma ActionClosesIff(s: Setup, w: World, a: Action)
    requires AllWalksEnd(w.shared.cache)
    ensures AllWalksEnd(Apply(s, w, a).shared.cache) <==> !ClosesCycle(w, a)
  {
    if a.Turn? && !w.shared.exited {
      StepClosesCycleIff(s, w.shared, a.thread, At(w, a.thread), a.input);
    }
  }

  /** Every walk ends at every moment of a run if and only if no step of it files a handle below itself. */
  lemma {:induction false} AcyclicThroughoutIff(s: Setup, kernel: Machine, actions: seq<Action>)
    ensures AcyclicThroughout(s, kernel, actions) <==> NoStepCloses(s, kernel, actions)
  {
    if actions == [] {
    } else {
      var before, last := actions[..|actions| - 1], actions[|actions| - 1];
      AcyclicThroughoutIff(s, kernel, before);
      if AcyclicThroughout(s, kernel, before) {
        ActionClosesIff(s, Run(s, kernel, before), last);
      }
    }
  }
}
