/**
 The daemon as a whole: five threads over one process cache and one state, each
 behind its own mutex, running beside a kernel that changes on its own. A
 thread takes one step at a time, from one system call or lock operation to the
 next. Release builds abort on panic, so a panic ends the run for every thread.
 */
module Daemon {
  import opened Wrappers
  import opened Kernel
  import opened ProcessHandles
  import opened Ancestry
  import opened Config
  import opened Scheduling
  import opened Cleanup
  import opened Population
  import opened Oom
  import opened Psi

  datatype ThreadId = Socket | Signal | Procmon | Periodic | OomKiller

  datatype Event = Exec(pid: Pid, tgid: Pid) | Exit(gone: Pid) | OtherEvent

  // ---- program points

  /** `socket_handler` and `process_message`. */
  datatype MessagePoint =
    | MsgTop
    | MsgReceive
    | MsgWantState(message: Message)
    | MsgHandle(message: Message)
    | MsgNext(todo: seq<Pid>)
    | MsgBuild(todo: seq<Pid>, builder: Builder)
    | MsgWantCache(todo: seq<Pid>, handle: Handle)
    | MsgUpdate(todo: seq<Pid>, handle: Handle)

  /**
   The signal thread. `cleanup` lists the pids, builds a handle for each, and then
   goes through the handles in this order; `done` of them are behind it.
   */
  datatype ExitPoint =
    | AwaitSignal
    | ExitWantState
    | ExitHoldState
    | ExitList
    | ExitNext(todo: seq<Pid>, listed: seq<Handle>)
    | ExitBuild(todo: seq<Pid>, listed: seq<Handle>, builder: Builder)
    | ExitReset(listed: seq<Handle>, done: nat)
    | ExitWantCache(listed: seq<Handle>, done: nat)
    | ExitClear(listed: seq<Handle>, done: nat)
    | ExitDropCache(listed: seq<Handle>, done: nat)
    | ExitNow(listed: seq<Handle>, done: nat)

  /** The procmon thread, after it has populated the cache once; `base` is the cache as the event found it. */
  datatype EventPoint =
    | EventTop
    | EventAwait
    | EventWantState(event: Event)
    | EventWantCache(event: Event)
    | EventHandle(event: Event)
    | EventBuild(base: ProcessCache, builder: Builder)
    | EventUpdate(base: ProcessCache, handle: Handle)
    | EventDropCache(event: Event, base: ProcessCache)
    | EventDropState

  /** `populate_process_cache` under its lock, called by two threads; `base` is the cache as the call found it. */
  datatype PopulatePoint =
    | PopWantCache
    | PopList
    | PopNext(base: ProcessCache, listed: seq<Pid>, todo: seq<Pid>)
    | PopBuild(base: ProcessCache, listed: seq<Pid>, todo: seq<Pid>, builder: Builder)
    | PopDropCache(base: ProcessCache, listed: seq<Pid>)

  /** The periodic thread; `base` is the cache that the pass has gone through. */
  datatype PassPoint =
    | PassTop
    | PassWantState
    | PassWantCache
    | PassNext(todo: set<Pid>)
    | PassWalk(todo: set<Pid>, pid: Pid)
    | PassDropState(base: ProcessCache)
    | PassSleep

  /** What speaks for a kill: the two stall totals of the iteration and the memory available. */
  datatype Evidence = Evidence(firstTotal: nat, secondTotal: nat, available: nat)

  /** A selection that has been made: the cache it was made from, everything measured, and the choice. */
  datatype Case = Case(evidence: Evidence, snapshot: ProcessCache, seen: seq<Candidate>, victim: Candidate)

  /** The OOM thread. */
  datatype OomPoint =
    | OomTop
    | OomPoll(first: nat)
    | OomMeminfo(first: nat, second: nat)
    | OomWantCache(evidence: Evidence)
    | OomScan(evidence: Evidence, snapshot: ProcessCache, todo: set<Pid>, seen: seq<Candidate>, best: Option<Candidate>)
    | OomDropCache(made: Case)
    | OomCheck(made: Case)
    | OomKill(made: Case)
    | OomReap(made: Case)
    | OomRepeat(made: Case)

  datatype Pc =
    | AtMessage(message: MessagePoint)
    | AtExit(exit: ExitPoint)
    | AtEvent(event: EventPoint)
    | AtPopulate(populate: PopulatePoint)
    | AtPass(pass: PassPoint)
    | AtOom(oom: OomPoint)
    | Stopped

  /** A SIGKILL or an mrelease that was issued, with what led to it. */
  datatype Strike = Strike(made: Case, target: Instance)

  /** All that the threads share, the kernel included. */
  datatype Shared = Shared(
    kernel: Machine,
    table: Table,
    cache: ProcessCache,
    state: State,
    running: bool,
    exited: bool,
    stateOwner: Option<ThreadId>,
    cacheOwner: Option<ThreadId>,
    strikes: seq<Strike>)

  datatype World = World(shared: Shared, points: map<ThreadId, Pc>)

  function Initial(kernel: Machine): World {
    World(
      Shared(kernel, map[], map[], State(None, None), true, false, None, None, []),
      map[Socket := AtMessage(MsgTop),
          Signal := AtExit(AwaitSignal),
          Procmon := AtPopulate(PopWantCache),
          Periodic := AtPass(PassTop),
          OomKiller := AtOom(OomTop)])
  }

  function At(w: World, t: ThreadId): Pc {
    if t in w.points then w.points[t] else Stopped
  }

  // ---- locks

  predicate HoldsState(pc: Pc) {
    match pc
    case AtMessage(p) => p.MsgHandle? || p.MsgNext? || p.MsgBuild? || p.MsgWantCache? || p.MsgUpdate?
    case AtExit(p) => p.ExitHoldState?
    case AtEvent(p) =>
      p.EventWantCache? || p.EventHandle? || p.EventBuild? || p.EventUpdate? || p.EventDropCache? || p.EventDropState?
    case AtPass(p) => p.PassWantCache? || p.PassNext? || p.PassWalk? || p.PassDropState?
    case _ => false
  }

  predicate HoldsCache(pc: Pc) {
    match pc
    case AtMessage(p) => p.MsgUpdate?
    case AtExit(p) => p.ExitClear? || p.ExitDropCache?
    case AtEvent(p) => p.EventHandle? || p.EventBuild? || p.EventUpdate? || p.EventDropCache?
    case AtPopulate(p) => !p.PopWantCache?
    case AtPass(p) => p.PassNext? || p.PassWalk?
    case AtOom(p) => p.OomScan? || p.OomDropCache?
    case Stopped => false
  }

  predicate WantsState(pc: Pc) {
    || (pc.AtMessage? && pc.message.MsgWantState?) || (pc.AtExit? && pc.exit.ExitWantState?)
    || (pc.AtEvent? && pc.event.EventWantState?) || (pc.AtPass? && pc.pass.PassWantState?)
  }

  predicate WantsCache(pc: Pc) {
    || (pc.AtMessage? && pc.message.MsgWantCache?) || (pc.AtExit? && pc.exit.ExitWantCache?)
    || (pc.AtEvent? && pc.event.EventWantCache?) || (pc.AtPopulate? && pc.populate.PopWantCache?)
    || (pc.AtPass? && pc.pass.PassWantCache?) || (pc.AtOom? && pc.oom.OomWantCache?)
  }

  /** `update_single_process` comes next: the thread owns both mutexes. */
  predicate AtUpdate(pc: Pc) {
    || (pc.AtMessage? && pc.message.MsgUpdate?) || (pc.AtEvent? && pc.event.EventUpdate?)
    || (pc.AtPass? && pc.pass.PassWalk?)
  }

  /** Cleanup changes schedules without owning a mutex. */
  predicate AtReset(pc: Pc) {
    pc.AtExit? && pc.exit.ExitReset?
  }

  /** What a step of one thread makes of the shared part and of its own program point. */
  type Effect = (Shared, Pc)

  function LockState(w: Shared, t: ThreadId, here: Pc, next: Pc): Effect {
    if w.stateOwner.None? then (w.(stateOwner := Some(t)), next) else (w, here)
  }

  function LockCache(w: Shared, t: ThreadId, here: Pc, next: Pc): Effect {
    if w.cacheOwner.None? then (w.(cacheOwner := Some(t)), next) else (w, here)
  }

  function DropState(w: Shared, next: Pc): Effect {
    (w.(stateOwner := None), next)
  }

  function DropCache(w: Shared, next: Pc): Effect {
    (w.(cacheOwner := None), next)
  }

  // ---- steps

  /**
   Everything a step can be told from outside: among others which scheduling
   calls are granted, and whether the kernel lets autogroups be written.
   */
  datatype Input = Input(
    message: Message, event: Event, listing: seq<Pid>, granted: bool, reading: Reading, pid: Pid, available: nat,
    grants: Grants, autogroups: set<Instance>)

  /** The constants of a run: the configuration and `MemTotal`. */
  datatype Setup = Setup(cfg: Config, totalMemory: nat)

  /** `update_single_process` in the state and with the cache as they are. */
  ghost function Updated(cfg: Config, w: Shared, h: Handle, grants: Grants): Table {
    Reclassify(cfg, ClassIn(cfg, w.state, h, w.cache), h, w.table, grants)
  }

  ghost function MessageTurn(s: Setup, w: Shared, t: ThreadId, p: MessagePoint, i: Input): Effect {
    match p
    case MsgTop => (w, if w.running then AtMessage(MsgReceive) else Stopped)
    case MsgReceive => (w, AtMessage(MsgWantState(i.message)))
    case MsgWantState(m) => LockState(w, t, AtMessage(p), AtMessage(MsgHandle(m)))
    case MsgHandle(SetForegroundPid(pid)) =>
      (w.(state := w.state.(foregroundPid := pid)), AtMessage(MsgNext(ForegroundTargets(w.state.foregroundPid, pid))))
    case MsgHandle(SetClientPid(pid)) =>
      (w.(state := w.state.(clientPid := Some(pid))), AtMessage(MsgNext([])))
    case MsgNext(todo) =>
      if todo == [] then DropState(w, AtMessage(MsgTop))
      else (w, AtMessage(MsgBuild(todo[1..], OpenDir(todo[0]))))
    case MsgBuild(todo, b) =>
      var b' := Advance(w.kernel, b, i.granted);
      if b'.Failed? then DropState(w, AtMessage(MsgTop))
      else if b'.Built? then (w, AtMessage(MsgWantCache(todo, b'.handle)))
      else (w, AtMessage(MsgBuild(todo, b')))
    case MsgWantCache(todo, h) => LockCache(w, t, AtMessage(p), AtMessage(MsgUpdate(todo, h)))
    case MsgUpdate(todo, h) =>
      if Decidable(s.cfg, w.state, h, w.cache) then
        DropCache(w.(table := Updated(s.cfg, w, h, i.grants)), AtMessage(MsgNext(todo)))
      else (w, AtMessage(p)) // the walk goes on for ever
  }

  ghost function ExitTurn(s: Setup, w: Shared, t: ThreadId, p: ExitPoint, i: Input): Effect {
    match p
    case AwaitSignal => (w.(running := false), AtExit(ExitWantState))
    case ExitWantState => LockState(w, t, AtExit(p), AtExit(ExitHoldState))
    case ExitHoldState => DropState(w, AtExit(ExitList))
    case ExitList => (w, AtExit(ExitNext(i.listing, [])))
    case ExitNext(todo, listed) =>
      (w, AtExit(if todo == [] then ExitReset(listed, 0) else ExitBuild(todo[1..], listed, OpenDir(todo[0]))))
    case ExitBuild(todo, listed, b) =>
      var b' := Advance(w.kernel, b, i.granted);
      (w, AtExit(if b'.Failed? then ExitNext(todo, listed)
                 else if b'.Built? then ExitNext(todo, listed + [b'.handle])
                 else ExitBuild(todo, listed, b')))
    case ExitReset(listed, done) =>
      if |listed| <= done then (w, AtExit(ExitWantCache(listed, done)))
      else if CleanupDecidable(s.cfg, listed[done], Snapshot(listed)) then
        var (table, ok) := CleanOne(s.cfg, listed[done], Snapshot(listed), w.table, i.autogroups, i.grants);
        (w.(table := table), AtExit(if ok then ExitReset(listed, done + 1) else ExitWantCache(listed, done)))
      else (w, AtExit(p))
    case ExitWantCache(listed, done) => LockCache(w, t, AtExit(p), AtExit(ExitClear(listed, done)))
    case ExitClear(listed, done) => (w.(cache := map[]), AtExit(ExitDropCache(listed, done)))
    case ExitDropCache(listed, done) => DropCache(w, AtExit(ExitNow(listed, done)))
    case ExitNow(_, _) => (w.(exited := true), AtExit(p))
  }

  ghost function EventTurn(s: Setup, w: Shared, t: ThreadId, p: EventPoint, i: Input): Effect {
    match p
    case EventTop => (w, if w.running then AtEvent(EventAwait) else Stopped)
    case EventAwait => (w, AtEvent(EventWantState(i.event)))
    case EventWantState(e) => LockState(w, t, AtEvent(p), AtEvent(EventWantCache(e)))
    case EventWantCache(e) => LockCache(w, t, AtEvent(p), AtEvent(EventHandle(e)))
    case EventHandle(e) =>
      if e.Exec? && e.pid == e.tgid then (w, AtEvent(EventBuild(w.cache, OpenDir(e.pid))))
      else if e.Exit? then (w.(cache := w.cache - {e.gone}), AtEvent(EventDropCache(e, w.cache)))
      else (w, AtEvent(EventDropCache(e, w.cache)))
    case EventBuild(base, b) =>
      var b' := Advance(w.kernel, b, i.granted);
      if b'.Failed? then (w.(cache := w.cache[b.pid := None]), AtEvent(EventDropCache(Exec(b.pid, b.pid), base)))
      else if b'.Built? then (w.(cache := w.cache[b.pid := Some(b'.handle)]), AtEvent(EventUpdate(base, b'.handle)))
      else (w, AtEvent(EventBuild(base, b')))
    case EventUpdate(base, h) =>
      if Decidable(s.cfg, w.state, h, w.cache) then
        (w.(table := Updated(s.cfg, w, h, i.grants)), AtEvent(EventDropCache(Exec(h.pid, h.pid), base)))
      else (w, AtEvent(p)) // the walk goes on for ever
    case EventDropCache(_, _) => DropCache(w, AtEvent(EventDropState))
    case EventDropState => DropState(w, AtEvent(EventTop))
  }

  function PopulateTurn(w: Shared, t: ThreadId, p: PopulatePoint, i: Input): Effect {
    match p
    case PopWantCache => LockCache(w, t, AtPopulate(p), AtPopulate(PopList))
    case PopList => (w, AtPopulate(PopNext(w.cache, i.listing, i.listing)))
    case PopNext(base, listed, todo) =>
      if todo == [] then (w.(cache := Retain(w.cache, AsSet(listed))), AtPopulate(PopDropCache(base, listed)))
      else if todo[0] in w.cache then (w, AtPopulate(PopNext(base, listed, todo[1..])))
      else (w, AtPopulate(PopBuild(base, listed, todo[1..], OpenDir(todo[0]))))
    case PopBuild(base, listed, todo, b) =>
      var b' := Advance(w.kernel, b, i.granted);
      if b'.Failed? then (w.(cache := OrInsert(w.cache, b.pid, None)), AtPopulate(PopNext(base, listed, todo)))
      else if b'.Built? then
        (w.(cache := OrInsert(w.cache, b.pid, Some(b'.handle))), AtPopulate(PopNext(base, listed, todo)))
      else (w, AtPopulate(PopBuild(base, listed, todo, b')))
    case PopDropCache(_, _) => DropCache(w, if t.Procmon? then AtEvent(EventTop) else AtPass(PassWantState))
  }

  /** The map decides which entry comes next: any one that is left. */
  ghost function Pick(todo: set<Pid>, wish: Pid): (pid: Pid)
    requires todo != {}
    ensures pid in todo
  {
    if wish in todo then wish else var pid :| pid in todo; pid
  }

  ghost function PassTurn(s: Setup, w: Shared, t: ThreadId, p: PassPoint, i: Input): Effect {
    match p
    case PassTop => (w, if w.running then AtPopulate(PopWantCache) else Stopped)
    case PassWantState => LockState(w, t, AtPass(p), AtPass(PassWantCache))
    case PassWantCache => LockCache(w, t, AtPass(p), AtPass(PassNext(w.cache.Keys)))
    case PassNext(todo) =>
      if todo == {} then DropCache(w, AtPass(PassDropState(w.cache)))
      else (w, AtPass(PassWalk(todo - {Pick(todo, i.pid)}, Pick(todo, i.pid))))
    case PassWalk(todo, pid) =>
      if !Present(w.cache, pid) then (w, AtPass(PassNext(todo)))
      else if Decidable(s.cfg, w.state, w.cache[pid].value, w.cache) then
        (w.(table := Updated(s.cfg, w, w.cache[pid].value, i.grants)), AtPass(PassNext(todo)))
      else (w, AtPass(p)) // the walk goes on for ever
    case PassDropState(_) => DropState(w, AtPass(PassSleep))
    case PassSleep => (w, AtPass(PassTop))
  }

  /** A dead process has no status to read; a live one can have any, and can die halfway. */
  function ReadingOf(k: Machine, h: Handle, wish: Reading): Reading {
    if k.Live(h.procDir) || !wish.Contents? then wish else NoFile
  }

  ghost function OomTurn(s: Setup, w: Shared, t: ThreadId, p: OomPoint, i: Input): Effect {
    match p
    case OomTop => (w, if w.running then AtOom(OomPoll(w.kernel.stall)) else Stopped)
    case OomPoll(first) =>
      if WrappingSub(w.kernel.stall, first) == 0 then (w, AtOom(OomTop))
      else (w, AtOom(OomMeminfo(first, w.kernel.stall)))
    case OomMeminfo(first, second) => (w, AtOom(OomWantCache(Evidence(first, second, i.available))))
    case OomWantCache(e) => LockCache(w, t, AtOom(p), AtOom(OomScan(e, w.cache, w.cache.Keys, [], None)))
    case OomScan(e, snapshot, todo, seen, best) =>
      if todo == {} then
        if best.None? then (w.(exited := true), AtOom(p))
        else (w, AtOom(OomDropCache(Case(e, snapshot, seen, best.value))))
      else
        var pid := Pick(todo, i.pid);
        if !Eligible(s.cfg, w.cache, pid) then (w, AtOom(OomScan(e, snapshot, todo - {pid}, seen, best)))
        else
          var h := w.cache[pid].value;
          var reading := ReadingOf(w.kernel, h, i.reading);
          var next := Candidate(h, Used(reading));
          if reading.Broken? then (w.(exited := true), AtOom(p))
          else (w, AtOom(OomScan(e, snapshot, todo - {pid}, seen + [next], Some(Better(best, next)))))
    case OomDropCache(made) => DropCache(w, AtOom(OomCheck(made)))
    case OomCheck(made) =>
      (w, AtOom(if made.evidence.available > s.totalMemory / 2 then OomTop else OomKill(made)))
    case OomKill(made) => (Struck(w, made), AtOom(OomReap(made)))
    case OomReap(made) => (Struck(w, made), AtOom(OomRepeat(made)))
    case OomRepeat(made) =>
      var delivered := i.granted && w.kernel.Live(made.victim.handle.pidfd);
      (Struck(w, made), AtOom(if delivered then OomRepeat(made) else OomTop))
  }

  /** The call goes to whatever instance the victim's pidfd refers to. */
  function Struck(w: Shared, made: Case): Shared {
    w.(strikes := w.strikes + [Strike(made, made.victim.handle.pidfd)])
  }

  ghost function EffectOf(s: Setup, w: Shared, t: ThreadId, pc: Pc, i: Input): Effect {
    match pc
    case AtMessage(p) => MessageTurn(s, w, t, p, i)
    case AtExit(p) => ExitTurn(s, w, t, p, i)
    case AtEvent(p) => EventTurn(s, w, t, p, i)
    case AtPopulate(p) => PopulateTurn(w, t, p, i)
    case AtPass(p) => PassTurn(s, w, t, p, i)
    case AtOom(p) => OomTurn(s, w, t, p, i)
    case Stopped => (w, pc)
  }

  ghost function TurnOf(s: Setup, w: World, t: ThreadId, i: Input): World {
    if w.shared.exited then w
    else var (shared, pc) := EffectOf(s, w.shared, t, At(w, t), i); World(shared, w.points[t := pc])
  }

  /** Either the kernel and the schedules of processes change on their own, or one thread is scheduled. */
  datatype Action = Outside(kernel: Machine, table: Table) | Turn(thread: ThreadId, input: Input)

  function Changed(w: World, k: Machine, table: Table): World {
    w.(shared := w.shared.(kernel := k, table := table))
  }

  ghost function Apply(s: Setup, w: World, a: Action): World {
    match a
    case Outside(k, table) => if Evolves(w.shared.kernel, k) then Changed(w, k, table) else w
    case Turn(t, i) => TurnOf(s, w, t, i)
  }

  /** The world after a run: any interleaving of the threads and the outside. */
  ghost function Run(s: Setup, kernel: Machine, actions: seq<Action>): World {
    if actions == [] then Initial(kernel)
    else Apply(s, Run(s, kernel, actions[..|actions| - 1]), actions[|actions| - 1])
  }
}
