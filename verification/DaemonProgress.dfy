/** The mutexes never block everyone: who waits for whom, how owners let go, and the one case in which they do not. */
module DaemonProgress {
  import opened Wrappers
  import opened Kernel
  import opened ProcessHandles
  import opened Ancestry
  import opened Config
  import opened Scheduling
  import opened Oom
  import opened Daemon
  import opened DaemonSafety
  import opened DaemonAncestry

  // ---- who waits for whom

  /** Thread `t` cannot go on until `u` lets go of a mutex. */
  predicate WaitsFor(w: World, t: ThreadId, u: ThreadId) {
    || (WantsState(At(w, t)) && w.shared.stateOwner == Some(u))
    || (WantsCache(At(w, t)) && w.shared.cacheOwner == Some(u))
  }

  /** Owners of the cache lock come last, owners of the state lock alone before them. */
  function Rank(pc: Pc): nat {
    if HoldsCache(pc) then 0 else if HoldsState(pc) then 1 else 2
  }

  /** In every reachable state a thread waits only for threads of lower rank; in particular no owner of the cache lock waits. */
  lemma WaitingDescends(s: Setup, kernel: Machine, actions: seq<Action>, t: ThreadId, u: ThreadId)
    requires kernel.Valid()
    ensures var w := Run(s, kernel, actions);
            && (WaitsFor(w, t, u) ==> Rank(At(w, u)) < Rank(At(w, t)))
            && (w.shared.cacheOwner == Some(t) ==> !WantsState(At(w, t)) && !WantsCache(At(w, t)))
  {
    InvariantHolds(s, kernel, actions);
    OwnersRankLow(Run(s, kernel, actions), t, u);
  }

  lemma OwnersRankLow(w: World, t: ThreadId, u: ThreadId)
    requires LocksOk(w)
    ensures WaitsFor(w, t, u) ==> Rank(At(w, u)) < Rank(At(w, t))
    ensures w.shared.cacheOwner == Some(t) ==> !WantsState(At(w, t)) && !WantsCache(At(w, t))
  {
    assert w.shared.stateOwner == Some(u) <==> HoldsState(At(w, u));
    assert w.shared.cacheOwner == Some(u) <==> HoldsCache(At(w, u));
    assert w.shared.cacheOwner == Some(t) <==> HoldsCache(At(w, t));
  }

  /** Each thread of the chain waits for the next. */
  ghost predicate WaitChain(w: World, chain: seq<ThreadId>) {
    forall i | 0 <= i < |chain| - 1 :: WaitsFor(w, chain[i], chain[i + 1])
  }

  lemma {:induction false} ChainDescends(s: Setup, kernel: Machine, actions: seq<Action>, chain: seq<ThreadId>)
    requires kernel.Valid() && |chain| > 1 && WaitChain(Run(s, kernel, actions), chain)
    ensures var w := Run(s, kernel, actions); Rank(At(w, chain[|chain| - 1])) < Rank(At(w, chain[0]))
    decreases |chain|
  {
    var n := |chain| - 1;
    WaitingDescends(s, kernel, actions, chain[n - 1], chain[n]);
    if n > 1 {
      var shorter := chain[..n];
      assert WaitChain(Run(s, kernel, actions), shorter) by {
        forall i | 0 <= i < n - 1 ensures WaitsFor(Run(s, kernel, actions), shorter[i], shorter[i + 1]) {
          assert shorter[i] == chain[i] && shorter[i + 1] == chain[i + 1];
        }
      }
      ChainDescends(s, kernel, actions, shorter);
    }
  }

  /** The wait-for graph never has a cycle of any length. */
  lemma NoDeadlock(s: Setup, kernel: Machine, actions: seq<Action>, chain: seq<ThreadId>)
    requires kernel.Valid() && |chain| > 1 && WaitChain(Run(s, kernel, actions), chain)
    ensures chain[0] != chain[|chain| - 1]
  {
    ChainDescends(s, kernel, actions, chain);
  }

  // ---- walks that never end

  /** The walk that the thread is about to make while it owns both mutexes does not end. */
  ghost predicate WalksForEver(cfg: Config, w: Shared, pc: Pc) {
    match pc
    case AtMessage(MsgUpdate(_, h)) => !Decidable(cfg, w.state, h, w.cache)
    case AtEvent(EventUpdate(_, h)) => !Decidable(cfg, w.state, h, w.cache)
    case AtPass(PassWalk(_, pid)) => Present(w.cache, pid) && !Decidable(cfg, w.state, w.cache[pid].value, w.cache)
    case _ => false
  }

  /** The pids that a pass has still to go through. */
  function LeftOver(pc: Pc): set<Pid> {
    match pc
    case AtPass(PassNext(todo)) => todo
    case AtPass(PassWalk(todo, _)) => todo
    case _ => {}
  }

  /** It, or one that it has to make before it can let go, does not end. */
  ghost predicate WillWalkForEver(cfg: Config, w: Shared, pc: Pc) {
    || WalksForEver(cfg, w, pc)
    || exists pid | pid in LeftOver(pc) :: Present(w.cache, pid) && !Decidable(cfg, w.state, w.cache[pid].value, w.cache)
  }

  // ---- critical sections are finite

  function BuilderWork(b: Builder): nat {
    match b
    case OpenDir(_) => 4
    case OpenPidfd(_, _) => 3
    case ReadStatus(_, _, _) => 2
    case ReadExe(_, _, _, _) => 1
    case _ => 0
  }

  /** A bound on the steps left until the thread holds no mutex; zero for threads that hold none. */
  ghost function Work(pc: Pc): nat {
    match pc
    case AtMessage(MsgHandle(_)) => 18
    case AtMessage(MsgNext(todo)) => 1 + 8 * |todo|
    case AtMessage(MsgBuild(todo, b)) => 4 + 8 * |todo| + BuilderWork(b)
    case AtMessage(MsgWantCache(todo, _)) => 3 + 8 * |todo|
    case AtMessage(MsgUpdate(todo, _)) => 2 + 8 * |todo|
    case AtExit(ExitHoldState) => 1
    case AtExit(ExitClear(_, _)) => 2
    case AtExit(ExitDropCache(_, _)) => 1
    case AtEvent(EventWantCache(_)) => 10
    case AtEvent(EventHandle(_)) => 9
    case AtEvent(EventBuild(_, b)) => 4 + BuilderWork(b)
    case AtEvent(EventUpdate(_, _)) => 3
    case AtEvent(EventDropCache(_, _)) => 2
    case AtEvent(EventDropState) => 1
    case AtPopulate(PopList) => 1
    case AtPopulate(PopNext(_, _, todo)) => 2 + 6 * |todo|
    case AtPopulate(PopBuild(_, _, todo, b)) => 3 + 6 * |todo| + BuilderWork(b)
    case AtPopulate(PopDropCache(_, _)) => 1
    case AtPass(PassNext(todo)) => 2 + 2 * |todo|
    case AtPass(PassWalk(todo, _)) => 3 + 2 * |todo|
    case AtPass(PassDropState(_)) => 1
    case AtOom(OomScan(_, _, todo, _, _)) => 2 + |todo|
    case AtOom(OomDropCache(_)) => 1
    case _ => 0
  }

  /** Listing `/proc` can find any number of pids, and a pass finds any number of entries, so these steps count for more than all others. */
  function Listings(pc: Pc): nat {
    if pc == AtPopulate(PopList) || pc == AtPass(PassWantCache) then 1 else 0
  }

  predicate Less(a: Pc, b: Pc, workA: nat, workB: nat) {
    Listings(a) < Listings(b) || (Listings(a) == Listings(b) && workA < workB)
  }

  /** The thread holds a mutex, what it needs next is free, and the walk it is about to make, if any, ends. */
  ghost predicate CanWork(s: Setup, w: Shared, pc: Pc) {
    && (HoldsState(pc) || HoldsCache(pc))
    && (WantsCache(pc) ==> w.cacheOwner.None?)
    && !WalksForEver(s.cfg, w, pc)
  }

  lemma MessageWorks(s: Setup, w: Shared, t: ThreadId, p: MessagePoint, i: Input)
    requires CanWork(s, w, AtMessage(p))
    ensures var (w', pc') := MessageTurn(s, w, t, p, i); Less(pc', AtMessage(p), Work(pc'), Work(AtMessage(p)))
  {
  }

  lemma ExitWorks(s: Setup, w: Shared, t: ThreadId, p: ExitPoint, i: Input)
    requires CanWork(s, w, AtExit(p))
    ensures var (w', pc') := ExitTurn(s, w, t, p, i); Less(pc', AtExit(p), Work(pc'), Work(AtExit(p)))
  {
  }

  lemma EventWorks(s: Setup, w: Shared, t: ThreadId, p: EventPoint, i: Input)
    requires CanWork(s, w, AtEvent(p))
    ensures var (w', pc') := EventTurn(s, w, t, p, i); Less(pc', AtEvent(p), Work(pc'), Work(AtEvent(p)))
  {
  }

  lemma PopulateWorks(s: Setup, w: Shared, t: ThreadId, p: PopulatePoint, i: Input)
    requires CanWork(s, w, AtPopulate(p))
    ensures var (w', pc') := PopulateTurn(w, t, p, i); Less(pc', AtPopulate(p), Work(pc'), Work(AtPopulate(p)))
  {
  }

  lemma PassWorks(s: Setup, w: Shared, t: ThreadId, p: PassPoint, i: Input)
    requires CanWork(s, w, AtPass(p))
    ensures var (w', pc') := PassTurn(s, w, t, p, i); Less(pc', AtPass(p), Work(pc'), Work(AtPass(p)))
  {
  }

  lemma OomWorks(s: Setup, w: Shared, t: ThreadId, p: OomPoint, i: Input)
    requires CanWork(s, w, AtOom(p))
    ensures var (w', pc') := OomTurn(s, w, t, p, i); w'.exited || Less(pc', AtOom(p), Work(pc'), Work(AtOom(p)))
  {
  }

  lemma HoldersWork(s: Setup, w: Shared, t: ThreadId, pc: Pc, i: Input)
    requires CanWork(s, w, pc)
    ensures var (w', pc') := EffectOf(s, w, t, pc, i); w'.exited || Less(pc', pc, Work(pc'), Work(pc))
  {
    match pc {
      case AtMessage(p) => MessageWorks(s, w, t, p, i);
      case AtExit(p) => ExitWorks(s, w, t, p, i);
      case AtEvent(p) => EventWorks(s, w, t, p, i);
      case AtPopulate(p) => PopulateWorks(s, w, t, p, i);
      case AtPass(p) => PassWorks(s, w, t, p, i);
      case AtOom(p) => OomWorks(s, w, t, p, i);
      case Stopped =>
    }
  }

  // ---- every waiting thread can be served

  ghost function AllListings(w: World): nat {
    Listings(At(w, Socket)) + Listings(At(w, Signal)) + Listings(At(w, Procmon)) + Listings(At(w, Periodic)) + Listings(At(w, OomKiller))
  }

  ghost function AllWork(w: World): nat {
    Work(At(w, Socket)) + Work(At(w, Signal)) + Work(At(w, Procmon)) + Work(At(w, Periodic)) + Work(At(w, OomKiller))
  }

  /** The mutexes whose release is awaited: the cache lock alone, or both. */
  datatype Awaited = CacheOnly | Both

  predicate Free(w: Shared, what: Awaited) {
    w.cacheOwner.None? && (what.Both? ==> w.stateOwner.None?)
  }

  predicate Holds(pc: Pc, what: Awaited) {
    HoldsCache(pc) || (what.Both? && HoldsState(pc))
  }

  /** The thread at the end of every wait chain. */
  function Holder(w: Shared, what: Awaited): ThreadId
    requires !Free(w, what)
  {
    if w.cacheOwner.Some? then w.cacheOwner.value else w.stateOwner.value
  }

  ghost predicate Fewer(w': World, w: World) {
    || w'.shared.exited
    || AllListings(w') < AllListings(w)
    || (AllListings(w') == AllListings(w) && AllWork(w') < AllWork(w))
  }

  lemma HolderWorks(s: Setup, w: World, what: Awaited, i: Input)
    requires LocksOk(w) && !w.shared.exited && !Free(w.shared, what)
    requires !WalksForEver(s.cfg, w.shared, At(w, Holder(w.shared, what)))
    ensures var t := Holder(w.shared, what);
            var w' := TurnOf(s, w, t, i);
            && Holds(At(w, t), what)
            && (forall u: ThreadId | u != t :: At(w', u) == At(w, u))
            && Fewer(w', w)
  {
    var t := Holder(w.shared, what);
    assert w.shared.stateOwner == Some(t) <==> HoldsState(At(w, t));
    assert w.shared.cacheOwner == Some(t) <==> HoldsCache(At(w, t));
    HoldersWork(s, w.shared, t, At(w, t), i);
    SumsFollow(w, TurnOf(s, w, t, i), t);
  }

  lemma SumsFollow(w: World, w': World, t: ThreadId)
    requires forall u: ThreadId | u != t :: At(w', u) == At(w, u)
    ensures AllListings(w') - AllListings(w) == Listings(At(w', t)) - Listings(At(w, t))
    ensures AllWork(w') - AllWork(w) == Work(At(w', t)) - Work(At(w, t))
  {
  }

  /** The threads that hold none of the awaited mutexes stand still. */
  predicate BystandersStay(w: World, w': World, what: Awaited) {
    forall t: ThreadId | !Holds(At(w, t), what) :: At(w', t) == At(w, t)
  }

  ghost predicate TurnsWith(turns: seq<Action>, inputs: nat -> Input, from: nat) {
    forall j | 0 <= j < |turns| :: turns[j].Turn? && turns[j].input == inputs(from + j)
  }

  /** Each turn is taken by a thread that owns one of the awaited mutexes at that moment. */
  ghost predicate OwnersOnly(s: Setup, kernel: Machine, actions: seq<Action>, what: Awaited, turns: seq<Action>)
    decreases |turns|
  {
    turns != [] ==>
      && turns[0].Turn? && Holds(At(Run(s, kernel, actions), turns[0].thread), what)
      && OwnersOnly(s, kernel, actions + [turns[0]], what, turns[1..])
  }

  ghost predicate Finished(s: Setup, kernel: Machine, actions: seq<Action>, inputs: nat -> Input, what: Awaited, turns: seq<Action>) {
    var w, w' := Run(s, kernel, actions), Run(s, kernel, actions + turns);
    && TurnsWith(turns, inputs, |actions|)
    && OwnersOnly(s, kernel, actions, what, turns)
    && (Free(w'.shared, what) || w'.shared.exited)
    && BystandersStay(w, w', what)
  }

  lemma NoCycleNoStall(cfg: Config, w: Shared, pc: Pc)
    requires forall x :: !ReachesCycle(x, w.cache)
    ensures !WillWalkForEver(cfg, w, pc)
  {
  }

  /** Without pid reuse every walk that a thread can be about to make ends, and scheduling a thread reuses no pid. */
  lemma NoReuseNoStall(s: Setup, kernel: Machine, actions: seq<Action>, pc: Pc, a: Action)
    requires kernel.Valid() && NoReuseRun(s, kernel, actions) && a.Turn?
    ensures !WillWalkForEver(s.cfg, Run(s, kernel, actions).shared, pc)
    ensures NoReuseRun(s, kernel, actions + [a])
  {
    NoReuseNoCycle(s, kernel, actions);
    NoCycleNoStall(s.cfg, Run(s, kernel, actions).shared, pc);
    TurnReusesNothing(s, kernel, actions, a);
  }

  lemma TurnReusesNothing(s: Setup, kernel: Machine, actions: seq<Action>, a: Action)
    requires NoReuseRun(s, kernel, actions) && a.Turn?
    ensures NoReuseRun(s, kernel, actions + [a])
  {
    assert (actions + [a])[..|actions + [a]| - 1] == actions;
  }

  /**
   If no pid has been reused that a cached handle names and only owners are
   scheduled, whatever they are told from outside, then after finitely many steps
   the awaited mutexes are free or the daemon has ended.
   */
  lemma {:induction false} HoldersFinish(s: Setup, kernel: Machine, actions: seq<Action>, inputs: nat -> Input, what: Awaited)
    returns (turns: seq<Action>)
    requires kernel.Valid() && NoReuseRun(s, kernel, actions)
    ensures Finished(s, kernel, actions, inputs, what, turns)
    decreases !Run(s, kernel, actions).shared.exited, AllListings(Run(s, kernel, actions)), AllWork(Run(s, kernel, actions))
  {
    var w := Run(s, kernel, actions);
    if Free(w.shared, what) || w.shared.exited {
      turns := [];
      assert actions + turns == actions;
    } else {
      InvariantHolds(s, kernel, actions);
      var a := Turn(Holder(w.shared, what), inputs(|actions|));
      NoReuseNoStall(s, kernel, actions, At(w, Holder(w.shared, what)), a);
      HolderWorks(s, w, what, inputs(|actions|));
      RunOneMore(s, kernel, actions, a);
      var rest := HoldersFinish(s, kernel, actions + [a], inputs, what);
      turns := [a] + rest;
      FinishedCompose(s, kernel, actions, inputs, what, a, rest);
    }
  }

  lemma FinishedCompose(s: Setup, kernel: Machine, actions: seq<Action>, inputs: nat -> Input, what: Awaited, a: Action, rest: seq<Action>)
    requires a.Turn? && a.input == inputs(|actions|)
    requires Holds(At(Run(s, kernel, actions), a.thread), what)
    requires forall u: ThreadId | u != a.thread :: At(Run(s, kernel, actions + [a]), u) == At(Run(s, kernel, actions), u)
    requires Finished(s, kernel, actions + [a], inputs, what, rest)
    ensures Finished(s, kernel, actions, inputs, what, [a] + rest)
  {
    assert actions + ([a] + rest) == actions + [a] + rest;
    StayComposes(Run(s, kernel, actions), Run(s, kernel, actions + [a]), Run(s, kernel, actions + [a] + rest), what, a.thread);
    OwnersCompose(s, kernel, actions, what, a, rest);
    TurnsCompose(inputs, |actions|, a, rest);
  }

  lemma StayComposes(w: World, next: World, last: World, what: Awaited, mover: ThreadId)
    requires Holds(At(w, mover), what)
    requires forall u: ThreadId | u != mover :: At(next, u) == At(w, u)
    requires BystandersStay(next, last, what)
    ensures BystandersStay(w, last, what)
  {
  }

  lemma OwnersCompose(s: Setup, kernel: Machine, actions: seq<Action>, what: Awaited, a: Action, rest: seq<Action>)
    requires a.Turn? && Holds(At(Run(s, kernel, actions), a.thread), what)
    requires OwnersOnly(s, kernel, actions + [a], what, rest)
    ensures OwnersOnly(s, kernel, actions, what, [a] + rest)
  {
    assert ([a] + rest)[1..] == rest;
  }

  lemma TurnsCompose(inputs: nat -> Input, from: nat, a: Action, rest: seq<Action>)
    requires a.Turn? && a.input == inputs(from)
    requires TurnsWith(rest, inputs, from + 1)
    ensures TurnsWith([a] + rest, inputs, from)
  {
  }

  /** The next step of `t` gets it the mutex it wants, or the daemon has ended. */
  ghost predicate Served(s: Setup, w: World, t: ThreadId, i: Input) {
    || w.shared.exited
    || (WantsState(At(w, t)) && TurnOf(s, w, t, i).shared.stateOwner == Some(t))
    || (WantsCache(At(w, t)) && TurnOf(s, w, t, i).shared.cacheOwner == Some(t))
  }

  lemma FreeLockIsTaken(s: Setup, w: World, t: ThreadId, i: Input)
    requires !w.shared.exited
    requires (WantsState(At(w, t)) && w.shared.stateOwner.None?) || (WantsCache(At(w, t)) && w.shared.cacheOwner.None?)
    ensures Served(s, w, t, i)
  {
  }

  /**
   From every state that is reached without reuse of a named pid, every thread
   that waits for a mutex can be served: there is a continuation in which only
   threads that own a mutex are scheduled and are told anything whatever from
   outside, after which the next step of the waiting thread takes what it wants,
   unless the daemon has ended.
   */
  lemma WaitingThreadIsServed(s: Setup, kernel: Machine, actions: seq<Action>, inputs: nat -> Input, t: ThreadId)
    requires kernel.Valid() && NoReuseRun(s, kernel, actions)
    requires var pc := At(Run(s, kernel, actions), t); WantsState(pc) || WantsCache(pc)
    ensures exists turns: seq<Action>, what: Awaited ::
              && TurnsWith(turns, inputs, |actions|) && OwnersOnly(s, kernel, actions, what, turns)
              && At(Run(s, kernel, actions + turns), t) == At(Run(s, kernel, actions), t)
              && Served(s, Run(s, kernel, actions + turns), t, inputs(|actions| + |turns|))
  {
    var pc := At(Run(s, kernel, actions), t);
    var what := if WantsState(pc) then Both else CacheOnly;
    assert !Holds(pc, what);
    var turns := HoldersFinish(s, kernel, actions, inputs, what);
    var w' := Run(s, kernel, actions + turns);
    assert At(w', t) == pc;
    if !w'.shared.exited {
      FreeLockIsTaken(s, w', t, inputs(|actions| + |turns|));
    }
  }

  // ---- the exact condition for one owner

  /** The world after the thread alone has taken as many turns as there are inputs. */
  ghost function OwnTurns(s: Setup, w: World, t: ThreadId, inputs: seq<Input>): World
    decreases |inputs|
  {
    if inputs == [] then w else OwnTurns(s, TurnOf(s, w, t, inputs[0]), t, inputs[1..])
  }

  /** Told the right things, the thread lets go of the cache lock by its own steps, or ends the daemon. */
  ghost predicate CanLetGo(s: Setup, w: World, t: ThreadId) {
    exists inputs :: OwnTurns(s, w, t, inputs).shared.exited || !HoldsCache(At(OwnTurns(s, w, t, inputs), t))
  }

  /** The thread owns both mutexes, has an endless walk before it, and has changed at most the table. */
  ghost predicate StandsStill(cfg: Config, w: Shared, w': Shared, pc': Pc) {
    && WillWalkForEver(cfg, w', pc') && HoldsCache(pc') && HoldsState(pc')
    && w' == w.(table := w'.table)
  }

  lemma MessageStandsStill(s: Setup, w: Shared, t: ThreadId, p: MessagePoint, i: Input)
    requires WillWalkForEver(s.cfg, w, AtMessage(p))
    ensures var (w', pc') := MessageTurn(s, w, t, p, i); StandsStill(s.cfg, w, w', pc')
  {
  }

  lemma EventStandsStill(s: Setup, w: Shared, t: ThreadId, p: EventPoint, i: Input)
    requires WillWalkForEver(s.cfg, w, AtEvent(p))
    ensures var (w', pc') := EventTurn(s, w, t, p, i); StandsStill(s.cfg, w, w', pc')
  {
  }

  lemma PassStandsStill(s: Setup, w: Shared, t: ThreadId, p: PassPoint, i: Input)
    requires WillWalkForEver(s.cfg, w, AtPass(p))
    ensures var (w', pc') := PassTurn(s, w, t, p, i); StandsStill(s.cfg, w, w', pc')
  {
  }

  /** An endless walk stays endless: nobody else can change the state or the cache. */
  lemma StillWalks(s: Setup, w: Shared, t: ThreadId, pc: Pc, i: Input)
    requires WillWalkForEver(s.cfg, w, pc)
    ensures var (w', pc') := EffectOf(s, w, t, pc, i); StandsStill(s.cfg, w, w', pc')
  {
    match pc {
      case AtMessage(p) => MessageStandsStill(s, w, t, p, i);
      case AtEvent(p) => EventStandsStill(s, w, t, p, i);
      case AtPass(p) => PassStandsStill(s, w, t, p, i);
      case _ => assert false;
    }
  }

  lemma {:induction false} NeverLetsGo(s: Setup, w: World, t: ThreadId, inputs: seq<Input>)
    requires WillWalkForEver(s.cfg, w.shared, At(w, t)) && !w.shared.exited
    ensures !OwnTurns(s, w, t, inputs).shared.exited && HoldsCache(At(OwnTurns(s, w, t, inputs), t))
    decreases |inputs|
  {
    if inputs == [] {
    } else {
      StillWalks(s, w.shared, t, At(w, t), inputs[0]);
      NeverLetsGo(s, TurnOf(s, w, t, inputs[0]), t, inputs[1..]);
    }
  }

  /** Every lookup fails and nothing is listed. */
  predicate Calm(i: Input) {
    !i.granted && i.listing == []
  }

  ghost predicate StaysOpen(cfg: Config, w': Shared, pc': Pc) {
    !HoldsCache(pc') || !WillWalkForEver(cfg, w', pc')
  }

  lemma MessageCalm(s: Setup, w: Shared, t: ThreadId, p: MessagePoint, i: Input)
    requires Knows(s, w, AtMessage(p)) && HoldsCache(AtMessage(p)) && Calm(i) && !WillWalkForEver(s.cfg, w, AtMessage(p))
    ensures var (w', pc') := MessageTurn(s, w, t, p, i); StaysOpen(s.cfg, w', pc')
  {
  }

  lemma ExitCalm(s: Setup, w: Shared, t: ThreadId, p: ExitPoint, i: Input)
    requires Knows(s, w, AtExit(p)) && HoldsCache(AtExit(p)) && Calm(i) && !WillWalkForEver(s.cfg, w, AtExit(p))
    ensures var (w', pc') := ExitTurn(s, w, t, p, i); StaysOpen(s.cfg, w', pc')
  {
  }

  lemma EventCalm(s: Setup, w: Shared, t: ThreadId, p: EventPoint, i: Input)
    requires Knows(s, w, AtEvent(p)) && HoldsCache(AtEvent(p)) && Calm(i) && !WillWalkForEver(s.cfg, w, AtEvent(p))
    ensures var (w', pc') := EventTurn(s, w, t, p, i); StaysOpen(s.cfg, w', pc')
  {
  }

  lemma PopulateCalm(s: Setup, w: Shared, t: ThreadId, p: PopulatePoint, i: Input)
    requires Knows(s, w, AtPopulate(p)) && HoldsCache(AtPopulate(p)) && Calm(i) && !WillWalkForEver(s.cfg, w, AtPopulate(p))
    ensures var (w', pc') := PopulateTurn(w, t, p, i); StaysOpen(s.cfg, w', pc')
  {
  }

  lemma PassCalm(s: Setup, w: Shared, t: ThreadId, p: PassPoint, i: Input)
    requires Knows(s, w, AtPass(p)) && HoldsCache(AtPass(p)) && Calm(i) && !WillWalkForEver(s.cfg, w, AtPass(p))
    ensures var (w', pc') := PassTurn(s, w, t, p, i); StaysOpen(s.cfg, w', pc')
  {
  }

  lemma OomCalm(s: Setup, w: Shared, t: ThreadId, p: OomPoint, i: Input)
    requires Knows(s, w, AtOom(p)) && HoldsCache(AtOom(p)) && Calm(i) && !WillWalkForEver(s.cfg, w, AtOom(p))
    ensures var (w', pc') := OomTurn(s, w, t, p, i); StaysOpen(s.cfg, w', pc')
  {
  }

  lemma CalmStep(s: Setup, w: Shared, t: ThreadId, pc: Pc, i: Input)
    requires Knows(s, w, pc) && HoldsCache(pc) && Calm(i) && !WillWalkForEver(s.cfg, w, pc)
    ensures var (w', pc') := EffectOf(s, w, t, pc, i); StaysOpen(s.cfg, w', pc')
  {
    match pc {
      case AtMessage(p) => MessageCalm(s, w, t, p, i);
      case AtExit(p) => ExitCalm(s, w, t, p, i);
      case AtEvent(p) => EventCalm(s, w, t, p, i);
      case AtPopulate(p) => PopulateCalm(s, w, t, p, i);
      case AtPass(p) => PassCalm(s, w, t, p, i);
      case AtOom(p) => OomCalm(s, w, t, p, i);
    }
  }

  lemma {:induction false} LetsGo(s: Setup, w: World, t: ThreadId, i: Input)
    requires Invariant(s, w) && !WillWalkForEver(s.cfg, w.shared, At(w, t)) && Calm(i)
    ensures CanLetGo(s, w, t)
    decreases Listings(At(w, t)), Work(At(w, t))
  {
    if w.shared.exited || !HoldsCache(At(w, t)) {
      assert OwnTurns(s, w, t, []) == w;
    } else {
      var w' := TurnOf(s, w, t, i);
      HoldersWork(s, w.shared, t, At(w, t), i);
      CalmStep(s, w.shared, t, At(w, t), i);
      ApplyKeepsInvariant(s, w, Turn(t, i));
      if w'.shared.exited {
        assert OwnTurns(s, w', t, []) == w';
      } else if HoldsCache(At(w', t)) {
        LetsGo(s, w', t, i);
      } else {
        assert OwnTurns(s, w', t, []) == w';
      }
      var rest :| OwnTurns(s, w', t, rest).shared.exited || !HoldsCache(At(OwnTurns(s, w', t, rest), t));
      assert ([i] + rest)[1..] == rest;
      assert OwnTurns(s, w, t, [i] + rest) == OwnTurns(s, w', t, rest);
    }
  }

  /** In every reachable state the owner of the cache lock can ever let go of it if and only if the walks it has to make before that end. */
  lemma OwnerCanLetGoIff(s: Setup, kernel: Machine, actions: seq<Action>, t: ThreadId)
    requires kernel.Valid()
    requires var w := Run(s, kernel, actions).shared; !w.exited && w.cacheOwner == Some(t)
    ensures var w := Run(s, kernel, actions);
            CanLetGo(s, w, t) <==> !WillWalkForEver(s.cfg, w.shared, At(w, t))
  {
    InvariantHolds(s, kernel, actions);
    var w := Run(s, kernel, actions);
    if WillWalkForEver(s.cfg, w.shared, At(w, t)) {
      forall inputs ensures !OwnTurns(s, w, t, inputs).shared.exited && HoldsCache(At(OwnTurns(s, w, t, inputs), t)) {
        NeverLetsGo(s, w, t, inputs);
      }
    } else {
      LetsGo(s, w, t, Input(SetClientPid(0), OtherEvent, [], false, NoFile, 0, 0, _ => 0, {}));
    }
  }

  /** The thread owns both mutexes and walks for ever. */
  ghost predicate Hung(s: Setup, w: World, t: ThreadId) {
    && WillWalkForEver(s.cfg, w.shared, At(w, t))
    && w.shared.stateOwner == Some(t) && w.shared.cacheOwner == Some(t)
  }

  lemma HungOneMore(s: Setup, w: World, a: Action, t: ThreadId)
    requires Invariant(s, w) && Hung(s, w, t)
    ensures Hung(s, Apply(s, w, a), t)
  {
    if a.Turn? && a.thread == t {
      StillWalks(s, w.shared, t, At(w, t), a.input);
    } else {
      ChangesNeedTheLock(s, w, a, t);
    }
  }

  lemma HungStep(s: Setup, kernel: Machine, actions: seq<Action>, a: Action, t: ThreadId)
    requires kernel.Valid() && Hung(s, Run(s, kernel, actions), t)
    ensures Hung(s, Run(s, kernel, actions + [a]), t)
  {
    RunOneMore(s, kernel, actions, a);
    InvariantHolds(s, kernel, actions);
    HungOneMore(s, Run(s, kernel, actions), a, t);
  }

  lemma WalkerOwnsBoth(s: Setup, kernel: Machine, actions: seq<Action>, t: ThreadId)
    requires kernel.Valid()
    requires var w := Run(s, kernel, actions); WillWalkForEver(s.cfg, w.shared, At(w, t))
    ensures Hung(s, Run(s, kernel, actions), t)
  {
    InvariantHolds(s, kernel, actions);
  }

  ghost function HungAfter(s: Setup, kernel: Machine, t: ThreadId): seq<Action> -> bool {
    (actions: seq<Action>) => Hung(s, Run(s, kernel, actions), t)
  }

  /** Once an owner walks for ever, both mutexes stay with it, whatever the other threads and the outside do. */
  lemma BothLockedForGood(s: Setup, kernel: Machine, actions: seq<Action>, rest: seq<Action>, t: ThreadId)
    requires kernel.Valid()
    requires var w := Run(s, kernel, actions); WillWalkForEver(s.cfg, w.shared, At(w, t))
    ensures Hung(s, Run(s, kernel, actions + rest), t)
  {
    var hung := HungAfter(s, kernel, t);
    WalkerOwnsBoth(s, kernel, actions, t);
    forall k | 0 <= k < |rest| ensures KeptByOne(hung, actions + rest[..k], rest[k]) {
      if hung(actions + rest[..k]) { HungStep(s, kernel, actions + rest[..k], rest[k], t); }
    }
    KeptAlong(hung, actions, rest);
  }
}
