/** A run in which an update comes after cleanup: the daemon ends and leaves a process with realtime priority. */
module DaemonExit {
  import opened Wrappers
  import opened Kernel
  import opened ProcessHandles
  import opened Config
  import opened Scheduling
  import opened Cleanup
  import opened Oom
  import opened Daemon
  import opened DaemonSchedules
  import opened DaemonCleanup
  import opened DaemonRuns

  /** A critical executable that is not excluded from realtime. */
  predicate RealtimeProgram(cfg: Config, exe: string) {
    exe in cfg.critical && exe !in cfg.excludeRealtime && StripDeleted(exe) == exe
  }

  lemma ShippedHasOne(lemondPid: Pid)
    ensures RealtimeProgram(Shipped(lemondPid), "/usr/bin/pipewire")
  {
    assert Shipped(lemondPid).critical[0] in Shipped(lemondPid).critical;
  }

  function OneProcess(s: Setup, exe: string): Machine {
    Machine([Process(s.cfg.lemondPid + 1, true, None, Path(exe))], 0)
  }

  function TwoProcesses(s: Setup, exe: string): Machine {
    Machine(OneProcess(s, exe).processes + [Process(s.cfg.lemondPid + 2, true, None, Path(exe))], 0)
  }

  /** The second process has the normal scheduler when it is born. */
  const BORN: Table := map[1 := ProcessSched([ThreadSched(1, Other, 0, 0, false)], 0)]

  function Second(s: Setup, exe: string): Handle {
    Handle(s.cfg.lemondPid + 2, 0, Some(exe), 1, 1)
  }

  /** What the threads are told throughout: everything is granted, and `pid` is listed and calls exec. */
  function Told(pid: Pid): Input {
    Input(SetClientPid(0), Exec(pid, pid), [pid], true, NoFile, 0, 0, _ => 4, {1})
  }

  lemma ProcessesValid(s: Setup, exe: string)
    ensures OneProcess(s, exe).Valid() && TwoProcesses(s, exe).Valid() && Evolves(OneProcess(s, exe), TwoProcesses(s, exe))
    ensures CanBeBuilt(OneProcess(s, exe), s.cfg.lemondPid + 1, 0) && CanBeBuilt(TwoProcesses(s, exe), s.cfg.lemondPid + 2, 1)
    ensures StripDeleted(exe) == exe ==> BuiltHandle(TwoProcesses(s, exe), s.cfg.lemondPid + 2, 1) == Second(s, exe)
  {
  }

  /** The procmon thread waits for an event, and a second process has been born. */
  function Waiting(s: Setup, exe: string): Shared {
    Initial(OneProcess(s, exe)).shared.(
      cache := map[s.cfg.lemondPid + 1 := Some(BuiltHandle(OneProcess(s, exe), s.cfg.lemondPid + 1, 0))],
      kernel := TwoProcesses(s, exe), table := BORN)
  }

  lemma WaitingIsReachable(s: Setup, exe: string)
    ensures Reachable(s, OneProcess(s, exe), Waiting(s, exe), AtEvent(EventAwait), AtExit(AwaitSignal))
  {
    var k, pid := OneProcess(s, exe), s.cfg.lemondPid + 1;
    ProcessesValid(s, exe);
    PopulateOne(s, k, pid, 0, Told(pid));
    var w := Initial(k).shared.(cache := map[pid := Some(BuiltHandle(k, pid, 0))]);
    OutsideStep(s, k, w, AtEvent(EventAwait), AtExit(AwaitSignal), TwoProcesses(s, exe), BORN);
    assert w.(kernel := TwoProcesses(s, exe), table := BORN) == Waiting(s, exe);
  }

  ghost function CleanedTable(s: Setup, exe: string): Table {
    var h := Second(s, exe);
    CleanOne(s.cfg, h, Snapshot([h]), BORN, {1}, _ => 4).0
  }

  lemma CleanupSucceeds(s: Setup, exe: string)
    requires RealtimeProgram(s.cfg, exe)
    ensures var h := Second(s, exe);
            && IsCritical(s.cfg, h, None) && Picked(s.cfg, h, Snapshot([h]))
            && CleanOne(s.cfg, h, Snapshot([h]), BORN, {1}, _ => 4) == (CleanedTable(s, exe), true)
            && 1 in CleanedTable(s, exe) && |CleanedTable(s, exe)[1].threads| == 1
  {
    var h := Second(s, exe);
    var grants: Grants := _ => 4;
    assert AllGranted(grants);
    SetAllMeetsDictate(s.cfg, Normal, h, BORN[1], grants);
    assert CleanupGranted(s.cfg, h, BORN, {1}, grants);
    CleanOneOutcome(s.cfg, h, Snapshot([h]), BORN, {1}, grants);
  }

  /** Cleanup has dealt with the second process while the procmon thread was waiting. */
  ghost function Cleaned(s: Setup, exe: string): Shared {
    Waiting(s, exe).(running := false, table := CleanedTable(s, exe))
  }

  lemma CleanedIsReachable(s: Setup, exe: string)
    requires RealtimeProgram(s.cfg, exe)
    ensures Reachable(s, OneProcess(s, exe), Cleaned(s, exe), AtEvent(EventAwait), AtExit(ExitWantCache([Second(s, exe)], 1)))
  {
    var k, w, pid, h := OneProcess(s, exe), Waiting(s, exe), s.cfg.lemondPid + 2, Second(s, exe);
    WaitingIsReachable(s, exe);
    ProcessesValid(s, exe);
    CleanupSucceeds(s, exe);
    SignalPasses(s, k, w, AtEvent(EventAwait), Told(pid));
    SignalLists(s, k, w.(running := false), AtEvent(EventAwait), pid, 1, Told(pid));
    SignalCleans(s, k, w.(running := false), AtEvent(EventAwait), h, Told(pid));
  }

  lemma UpdateIsRealtime(s: Setup, exe: string, w: Shared)
    requires RealtimeProgram(s.cfg, exe) && w.state == State(None, None) && 1 in w.table && |w.table[1].threads| == 1
    ensures var h := Second(s, exe);
            && Decidable(s.cfg, w.state, h, w.cache)
            && 1 in Updated(s.cfg, w, h, _ => 4) && !CleanRow(s.cfg, h, Updated(s.cfg, w, h, _ => 4)[1])
  {
    var h := Second(s, exe);
    var grants: Grants := _ => 4;
    assert IsCritical(s.cfg, h, Some(w.state));
    assert ClassIn(s.cfg, w.state, h, w.cache) == Realtime;
    assert AllGranted(grants);
    SetAllMeetsDictate(s.cfg, Realtime, h, w.table[1], grants);
    assert Updated(s.cfg, w, h, grants)[1].threads[0].policy == Fifo;
  }

  /** The daemon has ended; cleanup had everything behind it, and yet the process does not have what cleanup gave it. */
  ghost predicate EndsUnclean(s: Setup, w: World, h: Handle) {
    && w.shared.exited && Behind(At(w, Signal), [h], 1)
    && Picked(s.cfg, h, Snapshot([h])) && h.procDir in w.shared.table
    && !CleanRow(s.cfg, h, w.shared.table[h.procDir])
  }

  lemma LateRun(s: Setup, exe: string)
    requires RealtimeProgram(s.cfg, exe)
    ensures exists w: Shared, procmon :: Reachable(s, OneProcess(s, exe), w, procmon, AtExit(ExitNow([Second(s, exe)], 1)))
              && w.exited && 1 in w.table && !CleanRow(s.cfg, Second(s, exe), w.table[1])
  {
    var k, c, pid, h := OneProcess(s, exe), Cleaned(s, exe), s.cfg.lemondPid + 2, Second(s, exe);
    var signal := AtExit(ExitWantCache([h], 1));
    CleanedIsReachable(s, exe);
    ProcessesValid(s, exe);
    CleanupSucceeds(s, exe);
    ExecOne(s, k, c, pid, 1, signal, Told(pid));
    var w := c.(stateOwner := Some(Procmon), cacheOwner := Some(Procmon), cache := c.cache[pid := Some(h)]);
    UpdateIsRealtime(s, exe, w);
    ExecEnds(s, k, w, c.cache, h, signal, Told(pid));
    var late := w.(table := Updated(s.cfg, w, h, Told(pid).grants), stateOwner := None, cacheOwner := None);
    SignalEnds(s, k, late, AtEvent(EventTop), [h], 1, Told(pid));
  }

  /**
   Under every configuration with a critical executable that is not excluded from
   realtime, there is a run in which every call is granted and nobody else
   changes schedules, and after which the daemon has ended, its cleanup has
   succeeded, and a process it cleaned up has realtime priority all the same.
   */
  lemma LateUpdateUndoesCleanup(s: Setup, exe: string)
    requires RealtimeProgram(s.cfg, exe)
    ensures exists kernel: Machine, actions: seq<Action>, h ::
              && kernel.Valid() && QuietRun(s, kernel, actions) && Granting(actions) && ListsOnce(actions)
              && EndsUnclean(s, Run(s, kernel, actions), h)
  {
    var k, h := OneProcess(s, exe), Second(s, exe);
    LateRun(s, exe);
    var w, procmon :| Reachable(s, k, w, procmon, AtExit(ExitNow([h], 1))) && w.exited && 1 in w.table && !CleanRow(s.cfg, h, w.table[1]);
    var actions :| LeadsTo(s, k, actions, w, procmon, AtExit(ExitNow([h], 1)));
    ProcessesValid(s, exe);
    CleanupSucceeds(s, exe);
    assert EndsUnclean(s, Run(s, k, actions), h);
  }
}
