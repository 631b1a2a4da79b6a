/** What cleanup leaves, over whole runs: exactly which later updates spoil it. */
module DaemonCleanup {
  import opened Kernel
  import opened ProcessHandles
  import opened Config
  import opened Scheduling
  import opened Cleanup
  import opened Daemon
  import opened DaemonSafety
  import opened DaemonSchedules

  /** The first `done` of the handles are behind cleanup. */
  predicate Behind(pc: Pc, listed: seq<Handle>, done: nat) {
    && pc.AtExit? && done <= |listed|
    && match pc.exit
       case ExitReset(l, d) => l == listed && d == done
       case ExitWantCache(l, d) => l == listed && d == done
       case ExitClear(l, d) => l == listed && d == done
       case ExitDropCache(l, d) => l == listed && d == done
       case ExitNow(l, d) => l == listed && d == done
       case _ => false
  }

  /** The schedule that cleanup leaves a process with. */
  ghost predicate CleanRow(cfg: Config, p: Handle, row: ProcessSched) {
    && row.autogroup == 0
    && forall i | 0 <= i < |row.threads| ::
         if Excluded(cfg, p) then row.threads[i].nice == REALTIME_NICE
         else row.threads[i] == ThreadSched(row.threads[i].tid, Other, 0, 0, false)
  }

  ghost predicate CleanAt(cfg: Config, listed: seq<Handle>, i: nat, table: Table)
    requires i < |listed|
  {
    Picked(cfg, listed[i], Snapshot(listed)) && listed[i].procDir in table ==> CleanRow(cfg, listed[i], table[listed[i].procDir])
  }

  // ---- the handles that cleanup has built are of different processes

  predicate NoDuplicates(pids: seq<Pid>) {
    forall i, j | 0 <= i < j < |pids| :: pids[i] != pids[j]
  }

  /** A listing of `/proc` names no pid twice. */
  ghost predicate ListsOnce(actions: seq<Action>) {
    forall a | a in actions && a.Turn? :: NoDuplicates(a.input.listing)
  }

  function Pids(listed: seq<Handle>): seq<Pid> {
    seq(|listed|, i requires 0 <= i < |listed| => listed[i].pid)
  }

  /** The pids of the handles built, being built and to be built. */
  function PidsOfInterest(pc: Pc): seq<Pid> {
    match pc
    case AtExit(ExitNext(todo, listed)) => Pids(listed) + todo
    case AtExit(ExitBuild(todo, listed, b)) => Pids(listed) + ([b.pid] + todo)
    case AtExit(ExitReset(listed, _)) => Pids(listed)
    case AtExit(ExitWantCache(listed, _)) => Pids(listed)
    case AtExit(ExitClear(listed, _)) => Pids(listed)
    case AtExit(ExitDropCache(listed, _)) => Pids(listed)
    case AtExit(ExitNow(listed, _)) => Pids(listed)
    case _ => []
  }

  lemma DropOne(a: seq<Pid>, pid: Pid, b: seq<Pid>)
    requires NoDuplicates(a + ([pid] + b))
    ensures NoDuplicates(a + b)
  {
    var all := a + ([pid] + b);
    assert forall k | 0 <= k < |a + b| :: (a + b)[k] == all[if k < |a| then k else k + 1];
  }

  lemma BuildKeepsApart(s: Setup, w: Shared, t: ThreadId, p: ExitPoint, i: Input)
    requires Knows(s, w, AtExit(p)) && p.ExitBuild? && NoDuplicates(PidsOfInterest(AtExit(p)))
    ensures NoDuplicates(PidsOfInterest(ExitTurn(s, w, t, p, i).1))
  {
    var b' := Advance(w.kernel, p.builder, i.granted);
    if b'.Failed? {
      DropOne(Pids(p.listed), p.builder.pid, p.todo);
    } else if b'.Built? {
      assert Pids(p.listed + [b'.handle]) == Pids(p.listed) + [p.builder.pid];
      assert Pids(p.listed) + [p.builder.pid] + p.todo == Pids(p.listed) + ([p.builder.pid] + p.todo);
    }
  }

  lemma ExitKeepsApart(s: Setup, w: Shared, t: ThreadId, p: ExitPoint, i: Input)
    requires Knows(s, w, AtExit(p)) && NoDuplicates(PidsOfInterest(AtExit(p))) && NoDuplicates(i.listing)
    ensures NoDuplicates(PidsOfInterest(ExitTurn(s, w, t, p, i).1))
  {
    if p.ExitBuild? {
      BuildKeepsApart(s, w, t, p, i);
    } else if p.ExitNext? && p.todo != [] {
      assert [p.todo[0]] + p.todo[1..] == p.todo;
    } else if p.ExitNext? {
      assert Pids(p.listed) + p.todo == Pids(p.listed);
    } else {
      assert Pids([]) + i.listing == i.listing;
    }
  }

  lemma {:induction false} PidsApart(s: Setup, kernel: Machine, actions: seq<Action>, t: ThreadId)
    requires kernel.Valid() && ListsOnce(actions)
    ensures NoDuplicates(PidsOfInterest(At(Run(s, kernel, actions), t)))
  {
    if actions == [] {
    } else {
      var before, a := actions[..|actions| - 1], actions[|actions| - 1];
      var w := Run(s, kernel, before);
      PidsApart(s, kernel, before, t);
      InvariantHolds(s, kernel, before);
      assert a in actions;
      if a.Turn? && a.thread == t && !w.shared.exited {
        EffectKeeps(s, w.shared, t, At(w, t), a.input);
        if At(w, t).AtExit? {
          assert PointOk(s, w.shared.kernel, w.shared.cache, At(w, t));
          ExitKeepsApart(s, w.shared, t, At(w, t).exit, a.input);
        }
      } else {
        assert At(Run(s, kernel, actions), t) == At(w, t);
      }
    }
  }

  predicate Distinct(listed: seq<Handle>) {
    forall i, j | 0 <= i < j < |listed| :: listed[i].procDir != listed[j].procDir
  }

  /** Whatever is behind cleanup has been built for different processes. */
  ghost predicate ListingsOk(w: World) {
    forall t: ThreadId, listed: seq<Handle>, done: nat | Behind(At(w, t), listed, done) :: Distinct(listed)
  }

  lemma ListingsHold(s: Setup, kernel: Machine, actions: seq<Action>)
    requires kernel.Valid() && ListsOnce(actions)
    ensures ListingsOk(Run(s, kernel, actions))
  {
    var w := Run(s, kernel, actions);
    InvariantHolds(s, kernel, actions);
    forall t: ThreadId, listed: seq<Handle>, done: nat | Behind(At(w, t), listed, done) ensures Distinct(listed) {
      PidsApart(s, kernel, actions, t);
      assert PointOk(s, w.shared.kernel, w.shared.cache, At(w, t)) && ListedOk(w.shared.kernel, listed);
      forall i, j | 0 <= i < j < |listed| ensures listed[i].procDir != listed[j].procDir {
        assert Sound(w.shared.kernel, listed[i]) && Sound(w.shared.kernel, listed[j]);
        assert Pids(listed)[i] != Pids(listed)[j];
      }
    }
  }

  // ---- cleanup cleans

  lemma CleanedIsClean(cfg: Config, p: Handle, before: ProcessSched, after: ProcessSched)
    requires CleanedUp(cfg, p, before, after)
    ensures CleanRow(cfg, p, after)
  {
    forall i | 0 <= i < |after.threads|
      ensures if Excluded(cfg, p) then after.threads[i].nice == REALTIME_NICE
              else after.threads[i] == ThreadSched(after.threads[i].tid, Other, 0, 0, false)
    {
      assert after.threads[i].tid == before.threads[i].tid;
    }
  }

  /** One round keeps clean what is behind it, and on success adds one more. */
  lemma CleanOneCleans(cfg: Config, listed: seq<Handle>, done: nat, table: Table, autogroups: set<Instance>, grants: Grants, i: nat)
    requires done < |listed| && Distinct(listed) && i <= done
    requires i < done ==> CleanAt(cfg, listed, i, table)
    ensures var (table', ok) := CleanOne(cfg, listed[done], Snapshot(listed), table, autogroups, grants);
            i < done || ok ==> CleanAt(cfg, listed, i, table')
  {
    var p := listed[done];
    var (table', ok) := CleanOne(cfg, p, Snapshot(listed), table, autogroups, grants);
    CleanOneOutcome(cfg, p, Snapshot(listed), table, autogroups, grants);
    if i == done && ok && Picked(cfg, p, Snapshot(listed)) && p.procDir in table {
      CleanedIsClean(cfg, p, table[p.procDir], table'[p.procDir]);
    }
  }

  lemma ResetCleans(s: Setup, w: Shared, t: ThreadId, p: ExitPoint, i: Input, listed: seq<Handle>, done: nat, k: nat)
    requires Behind(ExitTurn(s, w, t, p, i).1, listed, done) && Distinct(listed) && k < done
    requires forall d: nat | Behind(AtExit(p), listed, d) && k < d :: CleanAt(s.cfg, listed, k, w.table)
    ensures CleanAt(s.cfg, listed, k, ExitTurn(s, w, t, p, i).0.table)
  {
    var before := if p.ExitReset? then p.done else done;
    if Behind(AtExit(p), listed, before) && p.ExitReset? && before < |listed| {
      CleanOneCleans(s.cfg, listed, before, w.table, i.autogroups, i.grants, k);
    }
  }

  // ---- cleanup comes to the end of its list, or to a refusal

  /** The round for handle number `done` broke off cleanup. */
  ghost predicate BrokeOff(s: Setup, kernel: Machine, actions: seq<Action>, k: nat, listed: seq<Handle>, done: nat)
    requires k < |actions|
  {
    var w := Run(s, kernel, actions[..k]);
    && done < |listed| && actions[k].Turn? && actions[k].thread == Signal && At(w, Signal) == AtExit(ExitReset(listed, done))
    && !CleanOne(s.cfg, listed[done], Snapshot(listed), w.shared.table, actions[k].input.autogroups, actions[k].input.grants).1
  }

  /** Whatever is past the rounds has gone through the whole list, or was broken off. */
  ghost predicate WentThrough(s: Setup, kernel: Machine, actions: seq<Action>, listed: seq<Handle>, done: nat) {
    var pc := At(Run(s, kernel, actions), Signal);
    Behind(pc, listed, done) && !pc.exit.ExitReset? ==> done == |listed| || exists k | 0 <= k < |actions| :: BrokeOff(s, kernel, actions, k, listed, done)
  }

  lemma BrokeOffStays(s: Setup, kernel: Machine, actions: seq<Action>, a: Action, k: nat, listed: seq<Handle>, done: nat)
    requires k < |actions| && BrokeOff(s, kernel, actions, k, listed, done)
    ensures BrokeOff(s, kernel, actions + [a], k, listed, done)
  {
    assert (actions + [a])[..k] == actions[..k];
  }

  /** The step that leaves the rounds. */
  lemma RoundsEnd(s: Setup, w: Shared, t: ThreadId, p: ExitPoint, i: Input, listed: seq<Handle>, done: nat)
    requires var pc := ExitTurn(s, w, t, p, i).1; Behind(pc, listed, done) && !pc.exit.ExitReset?
    ensures || (Behind(AtExit(p), listed, done) && !p.ExitReset?)
            || (p == ExitReset(listed, done)
                && (done < |listed| ==> !CleanOne(s.cfg, listed[done], Snapshot(listed), w.table, i.autogroups, i.grants).1))
  {
  }

  lemma PastTheRounds(s: Setup, w: World, a: Action, listed: seq<Handle>, done: nat)
    requires var pc := At(Apply(s, w, a), Signal); Behind(pc, listed, done) && !pc.exit.ExitReset?
    ensures || (Behind(At(w, Signal), listed, done) && !At(w, Signal).exit.ExitReset?)
            || (At(w, Signal) == AtExit(ExitReset(listed, done)) && a.Turn? && a.thread == Signal
                && (done < |listed| ==>
                      !CleanOne(s.cfg, listed[done], Snapshot(listed), w.shared.table, a.input.autogroups, a.input.grants).1))
  {
    if a.Turn? && a.thread == Signal && !w.shared.exited {
      EffectKeeps(s, w.shared, Signal, At(w, Signal), a.input);
      RoundsEnd(s, w.shared, Signal, At(w, Signal).exit, a.input, listed, done);
    } else {
      assert At(Apply(s, w, a), Signal) == At(w, Signal);
    }
  }

  lemma OneMoreGoesThrough(s: Setup, kernel: Machine, before: seq<Action>, a: Action, listed: seq<Handle>, done: nat)
    requires WentThrough(s, kernel, before, listed, done)
    ensures WentThrough(s, kernel, before + [a], listed, done)
  {
    var w, pc' := Run(s, kernel, before), At(Run(s, kernel, before + [a]), Signal);
    RunOneMore(s, kernel, before, a);
    if Behind(pc', listed, done) && !pc'.exit.ExitReset? && done < |listed| {
      PastTheRounds(s, w, a, listed, done);
      if At(w, Signal).exit.ExitReset? {
        assert (before + [a])[..|before|] == before;
        assert BrokeOff(s, kernel, before + [a], |before|, listed, done);
      } else {
        var k :| 0 <= k < |before| && BrokeOff(s, kernel, before, k, listed, done);
        BrokeOffStays(s, kernel, before, a, k, listed, done);
      }
    }
  }

  /** Nothing but a call that fails, or a process that is gone, keeps cleanup from the rest of its list. */
  lemma {:induction false} CleanupGoesThrough(s: Setup, kernel: Machine, actions: seq<Action>, listed: seq<Handle>, done: nat)
    ensures WentThrough(s, kernel, actions, listed, done)
  {
    if actions != [] {
      var n := |actions| - 1;
      CleanupGoesThrough(s, kernel, actions[..n], listed, done);
      OneMoreGoesThrough(s, kernel, actions[..n], actions[n], listed, done);
      assert actions == actions[..n] + [actions[n]];
    }
  }

  /** Only one thread runs the program of the signal thread. */
  ghost predicate OneSignal(w: World) {
    forall t: ThreadId :: At(w, t).AtExit? ==> t == Signal
  }

  lemma {:induction false} OneSignalHolds(s: Setup, kernel: Machine, actions: seq<Action>)
    ensures OneSignal(Run(s, kernel, actions))
  {
    if actions == [] {
    } else {
      var w, a := Run(s, kernel, actions[..|actions| - 1]), actions[|actions| - 1];
      OneSignalHolds(s, kernel, actions[..|actions| - 1]);
      forall u: ThreadId ensures At(Run(s, kernel, actions), u).AtExit? ==> u == Signal {
        if a.Turn? && a.thread == u && !w.shared.exited {
          EffectKeeps(s, w.shared, u, At(w, u), a.input);
        } else {
          assert At(Run(s, kernel, actions), u) == At(w, u);
        }
      }
    }
  }

  /** Everything behind cleanup is clean. */
  ghost predicate CleanOk(cfg: Config, w: World) {
    forall t: ThreadId, listed: seq<Handle>, done: nat, i: nat | Behind(At(w, t), listed, done) && i < done :: CleanAt(cfg, listed, i, w.shared.table)
  }

  lemma OutsideKeepsClean(s: Setup, w: World, a: Action)
    requires Invariant(s, w) && CleanOk(s.cfg, w) && a.Outside? && Quiet(w, a)
    ensures CleanOk(s.cfg, Apply(s, w, a))
  {
    var w' := Apply(s, w, a);
    forall t: ThreadId, listed: seq<Handle>, done: nat, i: nat | Behind(At(w', t), listed, done) && i < done
      ensures CleanAt(s.cfg, listed, i, w'.shared.table)
    {
      assert At(w', t) == At(w, t) && PointOk(s, w.shared.kernel, w.shared.cache, At(w, t));
      assert CleanAt(s.cfg, listed, i, w.shared.table);
      assert listed[i] in listed && Sound(w.shared.kernel, listed[i]);
    }
  }

  // ---- which updates spoil it

  /** The class asks for nothing that cleanup has not given. */
  predicate Harmless(cfg: Config, class_: Class, h: Handle, p: Handle, row: ProcessSched) {
    row.threads == [] || class_ == Untouched || (class_ == Normal && Excluded(cfg, p) == Excluded(cfg, h))
  }

  /** A clean row stays clean under an update exactly if the update is harmless. */
  lemma RowStaysCleanIff(cfg: Config, class_: Class, h: Handle, p: Handle, row: ProcessSched, grants: Grants)
    requires AllGranted(grants) && CleanRow(cfg, p, row)
    ensures CleanRow(cfg, p, SetAllFrom(row, Calls(cfg, class_, h), grants, 0).0) <==> Harmless(cfg, class_, h, p, row)
  {
    var row' := SetAllFrom(row, Calls(cfg, class_, h), grants, 0).0;
    SetAllMeetsDictate(cfg, class_, h, row, grants);
    if row.threads != [] {
      assert row'.threads[0] == Dictated(cfg, class_, h, row.threads[0]);
    }
  }

  /** The step updates a process that cleanup has behind it and asks for something else than cleanup gave. */
  ghost predicate Spoils(s: Setup, w: World, a: Action) {
    && a.Turn? && !w.shared.exited && UpdateHandle(w.shared, At(w, a.thread)).Some?
    && SpoilsThrough(s, w, UpdateHandle(w.shared, At(w, a.thread)).value)
  }

  ghost predicate SpoilsThrough(s: Setup, w: World, h: Handle) {
    && Decidable(s.cfg, w.shared.state, h, w.shared.cache)
    && exists t: ThreadId, listed: seq<Handle>, done: nat, i: nat :: Behind(At(w, t), listed, done) && i < done && SpoilsAt(s, w.shared, h, listed, i)
  }

  ghost predicate SpoilsAt(s: Setup, w: Shared, h: Handle, listed: seq<Handle>, i: nat)
    requires i < |listed|
  {
    && listed[i].procDir == h.procDir && h.procDir in w.table && Picked(s.cfg, listed[i], Snapshot(listed))
    && !Harmless(s.cfg, ClassIn(s.cfg, w.state, h, w.cache), h, listed[i], w.table[h.procDir])
  }

  /** What becomes of one entry behind cleanup in a step of another thread. */
  lemma EntryStaysCleanIff(s: Setup, w: Shared, t: ThreadId, pc: Pc, i: Input, listed: seq<Handle>, k: nat)
    requires !AtReset(pc) && k < |listed| && CleanAt(s.cfg, listed, k, w.table) && AllGranted(i.grants)
    ensures CleanAt(s.cfg, listed, k, EffectOf(s, w, t, pc, i).0.table) <==>
            !(&& UpdateHandle(w, pc).Some? && Decidable(s.cfg, w.state, UpdateHandle(w, pc).value, w.cache)
              && SpoilsAt(s, w, UpdateHandle(w, pc).value, listed, k))
  {
    UpdateEffect(s, w, t, pc, i);
    var handle := UpdateHandle(w, pc);
    if handle.Some? && handle.value.procDir == listed[k].procDir && listed[k].procDir in w.table
       && Picked(s.cfg, listed[k], Snapshot(listed))
    {
      var h := handle.value;
      RowStaysCleanIff(s.cfg, ClassIn(s.cfg, w.state, h, w.cache), h, listed[k], w.table[h.procDir], i.grants);
    }
  }

  lemma SignalKeepsClean(s: Setup, w: World, t: ThreadId, i: Input)
    requires CleanOk(s.cfg, w) && OneSignal(w) && !w.shared.exited && At(w, t).AtExit?
    requires ListingsOk(TurnOf(s, w, t, i))
    ensures CleanOk(s.cfg, TurnOf(s, w, t, i))
  {
    var w' := TurnOf(s, w, t, i);
    forall u: ThreadId, listed: seq<Handle>, done: nat, k: nat | Behind(At(w', u), listed, done) && k < done
      ensures CleanAt(s.cfg, listed, k, w'.shared.table)
    {
      assert u != t ==> At(w', u) == At(w, u);
      ResetCleans(s, w.shared, t, At(w, t).exit, i, listed, done, k);
    }
  }

  lemma OtherKeepsCleanIff(s: Setup, w: World, t: ThreadId, i: Input)
    requires CleanOk(s.cfg, w) && OneSignal(w) && !w.shared.exited && !At(w, t).AtExit? && AllGranted(i.grants)
    ensures CleanOk(s.cfg, TurnOf(s, w, t, i)) <==> !Spoils(s, w, Turn(t, i))
  {
    var w', a := TurnOf(s, w, t, i), Turn(t, i);
    EffectKeeps(s, w.shared, t, At(w, t), i);
    if Spoils(s, w, a) {
      var h := UpdateHandle(w.shared, At(w, t)).value;
      var u: ThreadId, listed: seq<Handle>, done: nat, k: nat :|
        Behind(At(w, u), listed, done) && k < done && SpoilsAt(s, w.shared, h, listed, k);
      EntryStaysCleanIff(s, w.shared, t, At(w, t), i, listed, k);
      assert Behind(At(w', u), listed, done);
    } else {
      forall u: ThreadId, listed: seq<Handle>, done: nat, k: nat | Behind(At(w', u), listed, done) && k < done
        ensures CleanAt(s.cfg, listed, k, w'.shared.table)
      {
        assert Behind(At(w, u), listed, done) && CleanAt(s.cfg, listed, k, w.shared.table);
        EntryStaysCleanIff(s, w.shared, t, At(w, t), i, listed, k);
      }
    }
  }

  /**
   The exact condition, decidable before the step, under which a step of any
   thread or of the outside spoils what cleanup has behind it.
   */
  lemma StepKeepsCleanIff(s: Setup, w: World, a: Action)
    requires Invariant(s, w) && CleanOk(s.cfg, w) && OneSignal(w) && ListingsOk(Apply(s, w, a))
    requires Quiet(w, a) && (a.Turn? ==> AllGranted(a.input.grants))
    ensures CleanOk(s.cfg, Apply(s, w, a)) <==> !Spoils(s, w, a)
  {
    if a.Outside? {
      OutsideKeepsClean(s, w, a);
    } else if !w.shared.exited {
      if At(w, a.thread).AtExit? {
        SignalKeepsClean(s, w, a.thread, a.input);
      } else {
        OtherKeepsCleanIff(s, w, a.thread, a.input);
      }
    }
  }

  // ---- whole runs

  /** After the run, and at every moment of it, everything behind cleanup is clean. */
  ghost predicate CleanThroughout(s: Setup, kernel: Machine, actions: seq<Action>) {
    && CleanOk(s.cfg, Run(s, kernel, actions))
    && (actions != [] ==> CleanThroughout(s, kernel, actions[..|actions| - 1]))
  }

  ghost predicate NothingSpoils(s: Setup, kernel: Machine, actions: seq<Action>) {
    actions != [] ==>
      var before := actions[..|actions| - 1];
      NothingSpoils(s, kernel, before) && !Spoils(s, Run(s, kernel, before), actions[|actions| - 1])
  }

  lemma ActionKeepsCleanIff(s: Setup, kernel: Machine, before: seq<Action>, a: Action)
    requires kernel.Valid() && ListsOnce(before + [a]) && CleanOk(s.cfg, Run(s, kernel, before))
    requires Quiet(Run(s, kernel, before), a) && (a.Turn? ==> AllGranted(a.input.grants))
    ensures CleanOk(s.cfg, Run(s, kernel, before + [a])) <==> !Spoils(s, Run(s, kernel, before), a)
  {
    InvariantHolds(s, kernel, before);
    OneSignalHolds(s, kernel, before);
    ListingsHold(s, kernel, before + [a]);
    RunOneMore(s, kernel, before, a);
    StepKeepsCleanIff(s, Run(s, kernel, before), a);
  }

  /**
   In every run in which no scheduling call is refused and nobody else changes
   schedules: everything that cleanup has behind it is clean at every moment, to
   the end of the daemon, if and only if no update asks for something else than
   cleanup gave.
   */
  lemma {:induction false} CleanThroughoutIff(s: Setup, kernel: Machine, actions: seq<Action>)
    requires kernel.Valid() && QuietRun(s, kernel, actions) && Granting(actions) && ListsOnce(actions)
    ensures CleanThroughout(s, kernel, actions) <==> NothingSpoils(s, kernel, actions)
  {
    if actions == [] {
    } else {
      var before, a := actions[..|actions| - 1], actions[|actions| - 1];
      assert actions == before + [a] && a in actions;
      CleanThroughoutIff(s, kernel, before);
      if CleanThroughout(s, kernel, before) {
        ActionKeepsCleanIff(s, kernel, before, a);
      }
    }
  }

  // ---- runs in which calls are refused

  /** The step updates a process that cleanup has behind it. */
  ghost predicate ComesLate(w: World, a: Action) {
    && a.Turn? && UpdateHandle(w.shared, At(w, a.thread)).Some?
    && exists t: ThreadId, listed: seq<Handle>, done: nat, i: nat ::
         Behind(At(w, t), listed, done) && i < done && listed[i].procDir == UpdateHandle(w.shared, At(w, a.thread)).value.procDir
  }

  ghost predicate NothingLate(s: Setup, kernel: Machine, actions: seq<Action>) {
    actions != [] ==>
      var before := actions[..|actions| - 1];
      NothingLate(s, kernel, before) && !ComesLate(Run(s, kernel, before), actions[|actions| - 1])
  }

  lemma OtherKeepsClean(s: Setup, w: World, t: ThreadId, i: Input)
    requires CleanOk(s.cfg, w) && OneSignal(w) && !w.shared.exited && !At(w, t).AtExit? && !ComesLate(w, Turn(t, i))
    ensures CleanOk(s.cfg, TurnOf(s, w, t, i))
  {
    var w' := TurnOf(s, w, t, i);
    EffectKeeps(s, w.shared, t, At(w, t), i);
    UpdateEffect(s, w.shared, t, At(w, t), i);
    forall u: ThreadId, listed: seq<Handle>, done: nat, k: nat | Behind(At(w', u), listed, done) && k < done
      ensures CleanAt(s.cfg, listed, k, w'.shared.table)
    {
      assert Behind(At(w, u), listed, done) && CleanAt(s.cfg, listed, k, w.shared.table);
    }
  }

  lemma {:induction false} CleanHolds(s: Setup, kernel: Machine, actions: seq<Action>)
    requires kernel.Valid() && QuietRun(s, kernel, actions) && ListsOnce(actions) && NothingLate(s, kernel, actions)
    ensures CleanOk(s.cfg, Run(s, kernel, actions))
  {
    if actions == [] {
    } else {
      var before, a := actions[..|actions| - 1], actions[|actions| - 1];
      var w := Run(s, kernel, before);
      CleanHolds(s, kernel, before);
      InvariantHolds(s, kernel, before);
      OneSignalHolds(s, kernel, before);
      ListingsHold(s, kernel, actions);
      if a.Outside? {
        OutsideKeepsClean(s, w, a);
      } else if !w.shared.exited {
        if At(w, a.thread).AtExit? {
          SignalKeepsClean(s, w, a.thread, a.input);
        } else {
          OtherKeepsClean(s, w, a.thread, a.input);
        }
      }
    }
  }

  /**
   Even in runs in which calls are refused: if nobody else changes schedules and
   no other thread updates a process that cleanup has behind it, all of these
   keep what cleanup gave them, to the end of the daemon.
   */
  lemma CleanupHolds(s: Setup, kernel: Machine, actions: seq<Action>, listed: seq<Handle>, done: nat, i: nat)
    requires kernel.Valid() && QuietRun(s, kernel, actions) && ListsOnce(actions) && NothingLate(s, kernel, actions)
    requires Behind(At(Run(s, kernel, actions), Signal), listed, done) && i < done
    ensures var table := Run(s, kernel, actions).shared.table;
            Picked(s.cfg, listed[i], Snapshot(listed)) && listed[i].procDir in table ==>
              CleanRow(s.cfg, listed[i], table[listed[i].procDir])
  {
    CleanHolds(s, kernel, actions);
    assert CleanAt(s.cfg, listed, i, Run(s, kernel, actions).shared.table);
  }
}
