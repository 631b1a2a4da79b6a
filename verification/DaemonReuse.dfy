/** A run with pid reuse: the links close a cycle, and the daemon hangs with both mutexes locked. */
module DaemonReuse {
  import opened Wrappers
  import opened Kernel
  import opened ProcessHandles
  import opened Ancestry
  import opened Config
  import opened Scheduling
  import opened Oom
  import opened Daemon
  import opened DaemonProgress
  import opened DaemonRuns

  /** What all processes of the run execute, other than lemond and what is on its lists. */
  function Program(s: Setup): ExeLink {
    Path(FreshName(s.cfg.critical))
  }

  function ParentOf(s: Setup): Pid {
    s.cfg.lemondPid + 10
  }

  function ChildOf(s: Setup): Pid {
    s.cfg.lemondPid + 20
  }

  /** Init, a parent and its child. */
  function ParentAlive(s: Setup): Machine {
    Machine([Process(s.cfg.lemondPid + 1, true, None, Program(s)),
             Process(ParentOf(s), true, Some(0), Program(s)),
             Process(ChildOf(s), true, Some(1), Program(s))], 0)
  }

  /** The parent is gone, init has adopted the child, and a process below the child has got the parent's pid. */
  function PidReused(s: Setup): Machine {
    Machine([Process(s.cfg.lemondPid + 1, true, None, Program(s)),
             Process(ParentOf(s), false, Some(0), Program(s)),
             Process(ChildOf(s), true, Some(0), Program(s)),
             Process(ParentOf(s), true, Some(2), Program(s))], 0)
  }

  lemma ParentAliveValid(s: Setup)
    ensures ParentAlive(s).Valid()
  {
  }

  lemma PidReusedValid(s: Setup)
    ensures PidReused(s).Valid()
  {
  }

  lemma ReuseScenario(s: Setup)
    ensures ParentAlive(s).Valid() && Evolves(ParentAlive(s), PidReused(s))
    ensures ParentAlive(s).Live(2) && ParentAlive(s).HasPid(2, ChildOf(s)) && ParentAlive(s).ParentPid(2) == ParentOf(s)
    ensures PidReused(s).Live(3) && PidReused(s).HasPid(3, ParentOf(s)) && PidReused(s).ParentPid(3) == ChildOf(s)
  {
    ParentAliveValid(s);
    PidReusedValid(s);
  }

  lemma TwoHandleCycle(a: Handle, b: Handle, cache: ProcessCache)
    requires Present(cache, a.parentPid) && cache[a.parentPid].value == b
    requires Present(cache, b.parentPid) && cache[b.parentPid].value == a
    ensures ReachesCycle(a, cache)
  {
    var c := [b, a, b];
    assert Collected(a, cache, c) && Link(a, c, 0) == Link(a, c, 2);
  }

  /** The handles that the child and later the newcomer get. */
  function Child(s: Setup): Handle {
    Handle(ChildOf(s), ParentOf(s), ExecutableName(Program(s)), 2, 2)
  }

  function Newcomer(s: Setup): Handle {
    Handle(ParentOf(s), ChildOf(s), ExecutableName(Program(s)), 3, 3)
  }

  function ChildCached(s: Setup): ProcessCache {
    map[ChildOf(s) := Some(Child(s))]
  }

  /** The world in which the newcomer's exec event has been taken in and its class is about to be decided. */
  function BeforeTheWalk(s: Setup): Shared {
    Initial(PidReused(s)).shared.(
      cache := ChildCached(s)[ParentOf(s) := Some(Newcomer(s))], stateOwner := Some(Procmon), cacheOwner := Some(Procmon))
  }

  /**
   A child is cached while its parent lives; the parent exits, the child is
   adopted, and a new process below the child gets the old parent's pid and calls
   exec. Under every configuration the daemon can come to this point.
   */
  lemma ReuseIsReachable(s: Setup)
    ensures ParentAlive(s).Valid()
    ensures Reachable(s, ParentAlive(s), BeforeTheWalk(s), AtEvent(EventUpdate(ChildCached(s), Newcomer(s))), AtExit(AwaitSignal))
  {
    var i := Input(SetClientPid(1), Exec(ParentOf(s), ParentOf(s)), [ChildOf(s)], true, NoFile, 0, 0, _ => 4, {});
    ReuseScenario(s);
    PopulateOne(s, ParentAlive(s), ChildOf(s), 2, i);
    var w := Initial(ParentAlive(s)).shared.(cache := ChildCached(s));
    OutsideStep(s, ParentAlive(s), w, AtEvent(EventAwait), AtExit(AwaitSignal), PidReused(s), map[]);
    ExecOne(s, ParentAlive(s), w.(kernel := PidReused(s)), ParentOf(s), 3, AtExit(AwaitSignal), i);
  }

  lemma NewcomerIsNotCritical(s: Setup)
    ensures Newcomer(s).executable == Some(FreshName(s.cfg.critical))
    ensures !IsCritical(s.cfg, Newcomer(s), Some(State(None, None)))
  {
    var exe := FreshName(s.cfg.critical);
    assert exe[|exe| - 1] == 'x' && DELETED[|DELETED| - 1] == ')';
    if |DELETED| <= |exe| {
      assert exe[|exe| - |DELETED|..][|DELETED| - 1] == 'x';
    }
  }

  /** There the links form a cycle, and the class of the newcomer is never decided. */
  lemma NewcomerWalksForEver(s: Setup)
    ensures ReachesCycle(Newcomer(s), BeforeTheWalk(s).cache)
    ensures WalksForEver(s.cfg, BeforeTheWalk(s), AtEvent(EventUpdate(ChildCached(s), Newcomer(s))))
  {
    TwoHandleCycle(Newcomer(s), Child(s), BeforeTheWalk(s).cache);
    NewcomerIsNotCritical(s);
  }

  predicate BothLockedBy(w: Shared, t: ThreadId) {
    w.stateOwner == Some(t) && w.cacheOwner == Some(t)
  }

  /** Whatever happens from now on, both mutexes stay with the thread. */
  ghost predicate HungFrom(s: Setup, kernel: Machine, actions: seq<Action>, t: ThreadId) {
    forall rest: seq<Action> :: BothLockedBy(Run(s, kernel, actions + rest).shared, t)
  }

  /**
   So without the hypothesis that no named pid is reused, walks need not end and
   nobody need be served: whatever the configuration, there is a run after which
   both mutexes belong to the procmon thread for good, whatever anybody does.
   */
  lemma ReuseHangsTheDaemon(s: Setup)
    ensures exists kernel: Machine, actions: seq<Action> ::
              && kernel.Valid() && !AllWalksEnd(Run(s, kernel, actions).shared.cache)
              && HungFrom(s, kernel, actions, Procmon)
  {
    ReuseIsReachable(s);
    NewcomerWalksForEver(s);
    var kernel, pc := ParentAlive(s), AtEvent(EventUpdate(ChildCached(s), Newcomer(s)));
    var actions :| LeadsTo(s, kernel, actions, BeforeTheWalk(s), pc, AtExit(AwaitSignal));
    forall rest ensures BothLockedBy(Run(s, kernel, actions + rest).shared, Procmon) {
      BothLockedForGood(s, kernel, actions, rest, Procmon);
    }
    var cache := BeforeTheWalk(s).cache;
    WalkEndsIff(Newcomer(s), cache);
    assert Present(cache, ParentOf(s)) && !WalkEnds(cache[ParentOf(s)].value, cache);
    assert HungFrom(s, kernel, actions, Procmon);
  }
}
