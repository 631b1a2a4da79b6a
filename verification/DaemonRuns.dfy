/** Building blocks for runs of the daemon: what the procmon and the signal thread do when everything goes well. */
module DaemonRuns {
  import opened Wrappers
  import opened Kernel
  import opened ProcessHandles
  import opened Ancestry
  import opened Scheduling
  import opened Population
  import opened Cleanup
  import opened Daemon
  import opened DaemonSafety
  import opened DaemonSchedules
  import opened DaemonCleanup

  /** Four calls build the handle of a live process whose link can be read. */
  function BuiltHandle(k: Machine, pid: Pid, inst: Instance): Handle
    requires inst < |k.processes|
  {
    Handle(pid, k.ParentPid(inst), ExecutableName(k.processes[inst].exe), inst, inst)
  }

  lemma FourCallsBuild(k: Machine, pid: Pid, inst: Instance)
    requires k.Valid() && k.Live(inst) && k.HasPid(inst, pid) && !k.processes[inst].exe.Unreadable?
    ensures Advance(k, OpenDir(pid), true) == OpenPidfd(pid, inst)
    ensures Advance(k, OpenPidfd(pid, inst), true) == ReadStatus(pid, inst, inst)
    ensures Advance(k, ReadStatus(pid, inst, inst), true) == ReadExe(pid, inst, inst, k.ParentPid(inst))
    ensures Advance(k, ReadExe(pid, inst, inst, k.ParentPid(inst)), true) == Built(pid, BuiltHandle(k, pid, inst))
  {
  }

  /** No scheduling call is refused, and no pid is listed twice. */
  ghost predicate Obliging(i: Input) {
    AllGranted(i.grants) && NoDuplicates(i.listing)
  }

  /** A run leads there in which no scheduling call is refused and nobody else changes schedules. */
  ghost predicate Reachable(s: Setup, kernel: Machine, shared: Shared, procmon: Pc, signal: Pc) {
    exists actions :: LeadsTo(s, kernel, actions, shared, procmon, signal)
  }

  ghost predicate LeadsTo(s: Setup, kernel: Machine, actions: seq<Action>, shared: Shared, procmon: Pc, signal: Pc) {
    && QuietRun(s, kernel, actions) && Granting(actions) && ListsOnce(actions)
    && var w := Run(s, kernel, actions);
       w.shared == shared && At(w, Procmon) == procmon && At(w, Signal) == signal
  }

  lemma OneMore(s: Setup, kernel: Machine, actions: seq<Action>, a: Action)
    requires QuietRun(s, kernel, actions) && Granting(actions) && ListsOnce(actions) && Quiet(Run(s, kernel, actions), a)
    requires a.Turn? ==> Obliging(a.input)
    ensures QuietRun(s, kernel, actions + [a]) && Granting(actions + [a]) && ListsOnce(actions + [a])
    ensures Run(s, kernel, actions + [a]) == Apply(s, Run(s, kernel, actions), a)
  {
    assert (actions + [a])[..|actions + [a]| - 1] == actions;
    RunOneMore(s, kernel, actions, a);
  }

  /** A step of the procmon thread leads from one point to the next. */
  lemma ProcmonTo(s: Setup, kernel: Machine, signal: Pc, i: Input, w: Shared, pc: Pc, w': Shared, pc': Pc)
    requires Reachable(s, kernel, w, pc, signal) && !w.exited && Obliging(i)
    requires EffectOf(s, w, Procmon, pc, i) == (w', pc')
    ensures Reachable(s, kernel, w', pc', signal)
  {
    var actions :| LeadsTo(s, kernel, actions, w, pc, signal);
    OneMore(s, kernel, actions, Turn(Procmon, i));
    assert LeadsTo(s, kernel, actions + [Turn(Procmon, i)], w', pc', signal);
  }

  lemma SignalTo(s: Setup, kernel: Machine, procmon: Pc, i: Input, w: Shared, pc: Pc, w': Shared, pc': Pc)
    requires Reachable(s, kernel, w, procmon, pc) && !w.exited && Obliging(i)
    requires EffectOf(s, w, Signal, pc, i) == (w', pc')
    ensures Reachable(s, kernel, w', procmon, pc')
  {
    var actions :| LeadsTo(s, kernel, actions, w, procmon, pc);
    OneMore(s, kernel, actions, Turn(Signal, i));
    assert LeadsTo(s, kernel, actions + [Turn(Signal, i)], w', procmon, pc');
  }

  lemma OutsideStep(s: Setup, kernel: Machine, w: Shared, procmon: Pc, signal: Pc, k: Machine, table: Table)
    requires Reachable(s, kernel, w, procmon, signal) && Evolves(w.kernel, k)
    requires forall i | i in table && i < |w.kernel.processes| :: i in w.table && table[i] == w.table[i]
    ensures Reachable(s, kernel, w.(kernel := k, table := table), procmon, signal)
  {
    var actions :| LeadsTo(s, kernel, actions, w, procmon, signal);
    OneMore(s, kernel, actions, Outside(k, table));
    assert LeadsTo(s, kernel, actions + [Outside(k, table)], w.(kernel := k, table := table), procmon, signal);
  }

  // ---- the procmon thread

  lemma PopulateStarts(s: Setup, kernel: Machine, pid: Pid, i: Input)
    requires i.listing == [pid] && Obliging(i)
    ensures Reachable(s, kernel, Initial(kernel).shared.(cacheOwner := Some(Procmon)),
                      AtPopulate(PopBuild(map[], [pid], [], OpenDir(pid))), AtExit(AwaitSignal))
  {
    var w, signal := Initial(kernel).shared, AtExit(AwaitSignal);
    var locked, next := w.(cacheOwner := Some(Procmon)), AtPopulate(PopNext(w.cache, [pid], [pid]));
    assert LeadsTo(s, kernel, [], w, AtPopulate(PopWantCache), signal);
    ProcmonTo(s, kernel, signal, i, w, AtPopulate(PopWantCache), locked, AtPopulate(PopList));
    ProcmonTo(s, kernel, signal, i, locked, AtPopulate(PopList), locked, next);
    assert [pid][1..] == [];
    ProcmonTo(s, kernel, signal, i, locked, next, locked, AtPopulate(PopBuild(w.cache, [pid], [], OpenDir(pid))));
  }

  /** A live process whose link can be read. */
  predicate CanBeBuilt(k: Machine, pid: Pid, inst: Instance) {
    k.Live(inst) && k.HasPid(inst, pid) && !k.processes[inst].exe.Unreadable?
  }

  lemma PopulateBuilds(s: Setup, kernel: Machine, w: Shared, pid: Pid, inst: Instance, signal: Pc, i: Input)
    requires Reachable(s, kernel, w, AtPopulate(PopBuild(w.cache, [pid], [], OpenDir(pid))), signal) && !w.exited
    requires w.kernel.Valid() && CanBeBuilt(w.kernel, pid, inst)
    requires i.granted && pid !in w.cache && Obliging(i)
    ensures Reachable(s, kernel, w.(cache := w.cache[pid := Some(BuiltHandle(w.kernel, pid, inst))]),
                      AtPopulate(PopNext(w.cache, [pid], [])), signal)
  {
    var k := w.kernel;
    var a, b := AtPopulate(PopBuild(w.cache, [pid], [], OpenDir(pid))), AtPopulate(PopBuild(w.cache, [pid], [], OpenPidfd(pid, inst)));
    var c, d := AtPopulate(PopBuild(w.cache, [pid], [], ReadStatus(pid, inst, inst))), AtPopulate(PopBuild(w.cache, [pid], [], ReadExe(pid, inst, inst, k.ParentPid(inst))));
    FourCallsBuild(k, pid, inst);
    ProcmonTo(s, kernel, signal, i, w, a, w, b);
    ProcmonTo(s, kernel, signal, i, w, b, w, c);
    ProcmonTo(s, kernel, signal, i, w, c, w, d);
    ProcmonTo(s, kernel, signal, i, w, d, w.(cache := w.cache[pid := Some(BuiltHandle(k, pid, inst))]), AtPopulate(PopNext(w.cache, [pid], [])));
  }

  lemma PopulateEnds(s: Setup, kernel: Machine, w: Shared, pid: Pid, signal: Pc, i: Input)
    requires Reachable(s, kernel, w, AtPopulate(PopNext(map[], [pid], [])), signal) && Obliging(i)
    requires !w.exited && w.running && w.cache.Keys == {pid} && w.cache[pid].Some?
    ensures Reachable(s, kernel, w.(cacheOwner := None), AtEvent(EventAwait), signal)
  {
    assert Retain(w.cache, AsSet([pid])) == w.cache;
    ProcmonTo(s, kernel, signal, i, w, AtPopulate(PopNext(map[], [pid], [])), w, AtPopulate(PopDropCache(map[], [pid])));
    ProcmonTo(s, kernel, signal, i, w, AtPopulate(PopDropCache(map[], [pid])), w.(cacheOwner := None), AtEvent(EventTop));
    ProcmonTo(s, kernel, signal, i, w.(cacheOwner := None), AtEvent(EventTop), w.(cacheOwner := None), AtEvent(EventAwait));
  }

  /** The populate call can cache one live process and nothing else; then the thread waits for an event. */
  lemma PopulateOne(s: Setup, kernel: Machine, pid: Pid, inst: Instance, i: Input)
    requires kernel.Valid() && CanBeBuilt(kernel, pid, inst)
    requires i.granted && i.listing == [pid] && Obliging(i)
    ensures Reachable(s, kernel, Initial(kernel).shared.(cache := map[pid := Some(BuiltHandle(kernel, pid, inst))]),
                      AtEvent(EventAwait), AtExit(AwaitSignal))
  {
    var locked := Initial(kernel).shared.(cacheOwner := Some(Procmon));
    PopulateStarts(s, kernel, pid, i);
    PopulateBuilds(s, kernel, locked, pid, inst, AtExit(AwaitSignal), i);
    var filled := locked.(cache := locked.cache[pid := Some(BuiltHandle(kernel, pid, inst))]);
    assert filled.cache == map[pid := Some(BuiltHandle(kernel, pid, inst))];
    PopulateEnds(s, kernel, filled, pid, AtExit(AwaitSignal), i);
  }

  lemma ExecWaits(s: Setup, kernel: Machine, w: Shared, e: Event, signal: Pc, i: Input)
    requires Reachable(s, kernel, w, AtEvent(EventAwait), signal) && !w.exited && w.stateOwner.None?
    requires i.event == e && Obliging(i)
    ensures Reachable(s, kernel, w.(stateOwner := Some(Procmon)), AtEvent(EventWantCache(e)), signal)
  {
    ProcmonTo(s, kernel, signal, i, w, AtEvent(EventAwait), w, AtEvent(EventWantState(e)));
    ProcmonTo(s, kernel, signal, i, w, AtEvent(EventWantState(e)), w.(stateOwner := Some(Procmon)), AtEvent(EventWantCache(e)));
  }

  /** The thread gets both mutexes for an exec event. */
  lemma ExecStarts(s: Setup, kernel: Machine, w: Shared, pid: Pid, signal: Pc, i: Input)
    requires Reachable(s, kernel, w, AtEvent(EventAwait), signal)
    requires !w.exited && w.stateOwner.None? && w.cacheOwner.None?
    requires i.event == Exec(pid, pid) && Obliging(i)
    ensures Reachable(s, kernel, w.(stateOwner := Some(Procmon), cacheOwner := Some(Procmon)), AtEvent(EventBuild(w.cache, OpenDir(pid))), signal)
  {
    var both := w.(stateOwner := Some(Procmon), cacheOwner := Some(Procmon));
    var half := w.(stateOwner := Some(Procmon));
    ExecWaits(s, kernel, w, Exec(pid, pid), signal, i);
    ProcmonTo(s, kernel, signal, i, half, AtEvent(EventWantCache(Exec(pid, pid))), both, AtEvent(EventHandle(Exec(pid, pid))));
    ProcmonTo(s, kernel, signal, i, both, AtEvent(EventHandle(Exec(pid, pid))), both, AtEvent(EventBuild(w.cache, OpenDir(pid))));
  }

  lemma ExecBuilds(s: Setup, kernel: Machine, w: Shared, pid: Pid, inst: Instance, signal: Pc, i: Input)
    requires Reachable(s, kernel, w, AtEvent(EventBuild(w.cache, OpenDir(pid))), signal) && !w.exited
    requires w.kernel.Valid() && CanBeBuilt(w.kernel, pid, inst) && i.granted && Obliging(i)
    ensures var h := BuiltHandle(w.kernel, pid, inst);
            Reachable(s, kernel, w.(cache := w.cache[pid := Some(h)]), AtEvent(EventUpdate(w.cache, h)), signal)
  {
    var h := BuiltHandle(w.kernel, pid, inst);
    var k := w.kernel;
    var a, b := AtEvent(EventBuild(w.cache, OpenDir(pid))), AtEvent(EventBuild(w.cache, OpenPidfd(pid, inst)));
    var c, d := AtEvent(EventBuild(w.cache, ReadStatus(pid, inst, inst))), AtEvent(EventBuild(w.cache, ReadExe(pid, inst, inst, k.ParentPid(inst))));
    FourCallsBuild(k, pid, inst);
    ProcmonTo(s, kernel, signal, i, w, a, w, b);
    ProcmonTo(s, kernel, signal, i, w, b, w, c);
    ProcmonTo(s, kernel, signal, i, w, c, w, d);
    ProcmonTo(s, kernel, signal, i, w, d, w.(cache := w.cache[pid := Some(h)]), AtEvent(EventUpdate(w.cache, h)));
  }

  /** An exec event can add one live process to the cache; then its class is to be decided. */
  lemma ExecOne(s: Setup, kernel: Machine, w: Shared, pid: Pid, inst: Instance, signal: Pc, i: Input)
    requires Reachable(s, kernel, w, AtEvent(EventAwait), signal)
    requires w.kernel.Valid() && !w.exited && w.stateOwner.None? && w.cacheOwner.None?
    requires CanBeBuilt(w.kernel, pid, inst)
    requires i.granted && i.event == Exec(pid, pid) && Obliging(i)
    ensures var h := BuiltHandle(w.kernel, pid, inst);
            Reachable(s, kernel, w.(stateOwner := Some(Procmon), cacheOwner := Some(Procmon), cache := w.cache[pid := Some(h)]),
                      AtEvent(EventUpdate(w.cache, h)), signal)
  {
    ExecStarts(s, kernel, w, pid, signal, i);
    ExecBuilds(s, kernel, w.(stateOwner := Some(Procmon), cacheOwner := Some(Procmon)), pid, inst, signal, i);
  }

  lemma ExecDropsCache(s: Setup, kernel: Machine, w: Shared, e: Event, base: ProcessCache, signal: Pc, i: Input)
    requires Reachable(s, kernel, w, AtEvent(EventDropCache(e, base)), signal) && !w.exited && Obliging(i)
    ensures Reachable(s, kernel, w.(cacheOwner := None), AtEvent(EventDropState), signal)
  {
    ProcmonTo(s, kernel, signal, i, w, AtEvent(EventDropCache(e, base)), w.(cacheOwner := None), AtEvent(EventDropState));
  }

  lemma ExecDropsState(s: Setup, kernel: Machine, w: Shared, signal: Pc, i: Input)
    requires Reachable(s, kernel, w, AtEvent(EventDropState), signal) && !w.exited && Obliging(i)
    ensures Reachable(s, kernel, w.(stateOwner := None), AtEvent(EventTop), signal)
  {
    ProcmonTo(s, kernel, signal, i, w, AtEvent(EventDropState), w.(stateOwner := None), AtEvent(EventTop));
  }

  /** Once the class is decided the thread lets both mutexes go. */
  lemma ExecEnds(s: Setup, kernel: Machine, w: Shared, base: ProcessCache, h: Handle, signal: Pc, i: Input)
    requires Reachable(s, kernel, w, AtEvent(EventUpdate(base, h)), signal) && !w.exited
    requires Decidable(s.cfg, w.state, h, w.cache) && Obliging(i)
    ensures Reachable(s, kernel, w.(table := Updated(s.cfg, w, h, i.grants), stateOwner := None, cacheOwner := None),
                      AtEvent(EventTop), signal)
  {
    var updated := w.(table := Updated(s.cfg, w, h, i.grants));
    ProcmonTo(s, kernel, signal, i, w, AtEvent(EventUpdate(base, h)), updated, AtEvent(EventDropCache(Exec(h.pid, h.pid), base)));
    ExecDropsCache(s, kernel, updated, Exec(h.pid, h.pid), base, signal, i);
    ExecDropsState(s, kernel, updated.(cacheOwner := None), signal, i);
  }

  // ---- the signal thread

  lemma SignalPasses(s: Setup, kernel: Machine, w: Shared, procmon: Pc, i: Input)
    requires Reachable(s, kernel, w, procmon, AtExit(AwaitSignal))
    requires !w.exited && w.stateOwner.None? && Obliging(i)
    ensures Reachable(s, kernel, w.(running := false), procmon, AtExit(ExitList))
  {
    var ending := w.(running := false);
    SignalTo(s, kernel, procmon, i, w, AtExit(AwaitSignal), ending, AtExit(ExitWantState));
    SignalTo(s, kernel, procmon, i, ending, AtExit(ExitWantState), ending.(stateOwner := Some(Signal)), AtExit(ExitHoldState));
    SignalTo(s, kernel, procmon, i, ending.(stateOwner := Some(Signal)), AtExit(ExitHoldState), ending, AtExit(ExitList));
  }

  lemma SignalBuilds(s: Setup, kernel: Machine, w: Shared, procmon: Pc, pid: Pid, inst: Instance, i: Input)
    requires Reachable(s, kernel, w, procmon, AtExit(ExitBuild([], [], OpenDir(pid)))) && !w.exited
    requires w.kernel.Valid() && CanBeBuilt(w.kernel, pid, inst) && i.granted && Obliging(i)
    ensures Reachable(s, kernel, w, procmon, AtExit(ExitNext([], [BuiltHandle(w.kernel, pid, inst)])))
  {
    var h := BuiltHandle(w.kernel, pid, inst);
    var k := w.kernel;
    var a, b := AtExit(ExitBuild([], [], OpenDir(pid))), AtExit(ExitBuild([], [], OpenPidfd(pid, inst)));
    var c, d := AtExit(ExitBuild([], [], ReadStatus(pid, inst, inst))), AtExit(ExitBuild([], [], ReadExe(pid, inst, inst, k.ParentPid(inst))));
    FourCallsBuild(k, pid, inst);
    SignalTo(s, kernel, procmon, i, w, a, w, b);
    SignalTo(s, kernel, procmon, i, w, b, w, c);
    SignalTo(s, kernel, procmon, i, w, c, w, d);
    assert [] + [h] == [h];
    SignalTo(s, kernel, procmon, i, w, d, w, AtExit(ExitNext([], [h])));
  }

  /** It can come to clean up one live process and nothing else. */
  lemma SignalLists(s: Setup, kernel: Machine, w: Shared, procmon: Pc, pid: Pid, inst: Instance, i: Input)
    requires Reachable(s, kernel, w, procmon, AtExit(ExitList)) && !w.exited
    requires w.kernel.Valid() && CanBeBuilt(w.kernel, pid, inst) && i.granted && i.listing == [pid] && Obliging(i)
    ensures Reachable(s, kernel, w, procmon, AtExit(ExitReset([BuiltHandle(w.kernel, pid, inst)], 0)))
  {
    SignalTo(s, kernel, procmon, i, w, AtExit(ExitList), w, AtExit(ExitNext([pid], [])));
    assert [pid][1..] == [];
    SignalTo(s, kernel, procmon, i, w, AtExit(ExitNext([pid], [])), w, AtExit(ExitBuild([], [], OpenDir(pid))));
    SignalBuilds(s, kernel, w, procmon, pid, inst, i);
    SignalTo(s, kernel, procmon, i, w, AtExit(ExitNext([], [BuiltHandle(w.kernel, pid, inst)])), w, AtExit(ExitReset([BuiltHandle(w.kernel, pid, inst)], 0)));
  }

  /** It cleans up that one process, if that goes well. */
  lemma SignalCleans(s: Setup, kernel: Machine, w: Shared, procmon: Pc, h: Handle, i: Input)
    requires Reachable(s, kernel, w, procmon, AtExit(ExitReset([h], 0))) && !w.exited
    requires CleanupDecidable(s.cfg, h, Snapshot([h])) && Obliging(i)
    requires CleanOne(s.cfg, h, Snapshot([h]), w.table, i.autogroups, i.grants).1
    ensures Reachable(s, kernel, w.(table := CleanOne(s.cfg, h, Snapshot([h]), w.table, i.autogroups, i.grants).0),
                      procmon, AtExit(ExitWantCache([h], 1)))
  {
    var cleaned := w.(table := CleanOne(s.cfg, h, Snapshot([h]), w.table, i.autogroups, i.grants).0);
    SignalTo(s, kernel, procmon, i, w, AtExit(ExitReset([h], 0)), cleaned, AtExit(ExitReset([h], 1)));
    SignalTo(s, kernel, procmon, i, cleaned, AtExit(ExitReset([h], 1)), cleaned, AtExit(ExitWantCache([h], 1)));
  }

  lemma SignalClears(s: Setup, kernel: Machine, w: Shared, procmon: Pc, listed: seq<Handle>, done: nat, i: Input)
    requires Reachable(s, kernel, w, procmon, AtExit(ExitWantCache(listed, done)))
    requires !w.exited && w.cacheOwner.None? && Obliging(i)
    ensures Reachable(s, kernel, w.(cacheOwner := Some(Signal), cache := map[]), procmon, AtExit(ExitDropCache(listed, done)))
  {
    SignalTo(s, kernel, procmon, i, w, AtExit(ExitWantCache(listed, done)), w.(cacheOwner := Some(Signal)), AtExit(ExitClear(listed, done)));
    SignalTo(s, kernel, procmon, i, w.(cacheOwner := Some(Signal)), AtExit(ExitClear(listed, done)), w.(cacheOwner := Some(Signal), cache := map[]), AtExit(ExitDropCache(listed, done)));
  }

  lemma SignalFrees(s: Setup, kernel: Machine, w: Shared, procmon: Pc, listed: seq<Handle>, done: nat, i: Input)
    requires Reachable(s, kernel, w, procmon, AtExit(ExitDropCache(listed, done))) && !w.exited && Obliging(i)
    ensures Reachable(s, kernel, w.(cacheOwner := None), procmon, AtExit(ExitNow(listed, done)))
  {
    SignalTo(s, kernel, procmon, i, w, AtExit(ExitDropCache(listed, done)), w.(cacheOwner := None), AtExit(ExitNow(listed, done)));
  }

  lemma SignalExits(s: Setup, kernel: Machine, w: Shared, procmon: Pc, listed: seq<Handle>, done: nat, i: Input)
    requires Reachable(s, kernel, w, procmon, AtExit(ExitNow(listed, done))) && !w.exited && Obliging(i)
    ensures Reachable(s, kernel, w.(exited := true), procmon, AtExit(ExitNow(listed, done)))
  {
    SignalTo(s, kernel, procmon, i, w, AtExit(ExitNow(listed, done)), w.(exited := true), AtExit(ExitNow(listed, done)));
  }

  /** It empties the cache and ends the daemon. */
  lemma SignalEnds(s: Setup, kernel: Machine, w: Shared, procmon: Pc, listed: seq<Handle>, done: nat, i: Input)
    requires Reachable(s, kernel, w, procmon, AtExit(ExitWantCache(listed, done)))
    requires !w.exited && w.cacheOwner.None? && Obliging(i)
    ensures Reachable(s, kernel, w.(cacheOwner := None, cache := map[], exited := true), procmon, AtExit(ExitNow(listed, done)))
  {
    SignalClears(s, kernel, w, procmon, listed, done, i);
    SignalFrees(s, kernel, w.(cacheOwner := Some(Signal), cache := map[]), procmon, listed, done, i);
    SignalExits(s, kernel, w.(cacheOwner := None, cache := map[]), procmon, listed, done, i);
  }
}
