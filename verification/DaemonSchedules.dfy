/** What the threads make of the scheduling table over whole runs: a pass settles it. */
module DaemonSchedules {
  import opened Wrappers
  import opened Kernel
  import opened ProcessHandles
  import opened Ancestry
  import opened Config
  import opened Scheduling
  import opened FullPass
  import opened Daemon
  import opened DaemonSafety

  /** Nobody but the daemon changes the schedule of a process that exists; processes come with any schedule, and go. */
  ghost predicate Quiet(w: World, a: Action) {
    a.Outside? && Evolves(w.shared.kernel, a.kernel) ==>
      forall i | i in a.table && i < |w.shared.kernel.processes| :: i in w.shared.table && a.table[i] == w.shared.table[i]
  }

  ghost predicate QuietRun(s: Setup, kernel: Machine, actions: seq<Action>) {
    actions != [] ==>
      var before := actions[..|actions| - 1];
      QuietRun(s, kernel, before) && Quiet(Run(s, kernel, before), actions[|actions| - 1])
  }

  /** The kernel refuses no scheduling call. */
  ghost predicate Granting(actions: seq<Action>) {
    forall a | a in actions && a.Turn? :: AllGranted(a.input.grants)
  }

  /** The handle through which the thread is about to update a process. */
  function UpdateHandle(w: Shared, pc: Pc): Option<Handle> {
    match pc
    case AtMessage(MsgUpdate(_, h)) => Some(h)
    case AtEvent(EventUpdate(_, h)) => Some(h)
    case AtPass(PassWalk(_, pid)) => if Present(w.cache, pid) then Some(w.cache[pid].value) else None
    case _ => None
  }

  lemma UpdateEffect(s: Setup, w: Shared, t: ThreadId, pc: Pc, i: Input)
    requires !AtReset(pc)
    ensures EffectOf(s, w, t, pc, i).0.table ==
            if UpdateHandle(w, pc).Some? && Decidable(s.cfg, w.state, UpdateHandle(w, pc).value, w.cache)
            then Updated(s.cfg, w, UpdateHandle(w, pc).value, i.grants)
            else w.table
  {
    if !AtUpdate(pc) { EffectChanges(s, w, t, pc, i); }
  }

  // ---- once the signal thread has been told to end the daemon

  predicate SignalSeen(pc: Pc) {
    pc.AtExit? && !pc.exit.AwaitSignal?
  }

  ghost predicate EndingOk(w: World) {
    forall t: ThreadId :: SignalSeen(At(w, t)) ==> !w.shared.running
  }

  lemma {:induction false} EndingHolds(s: Setup, kernel: Machine, actions: seq<Action>)
    ensures EndingOk(Run(s, kernel, actions))
  {
    if actions == [] {
    } else {
      var w, a := Run(s, kernel, actions[..|actions| - 1]), actions[|actions| - 1];
      EndingHolds(s, kernel, actions[..|actions| - 1]);
      if a.Turn? && !w.shared.exited {
        EffectKeeps(s, w.shared, a.thread, At(w, a.thread), a.input);
        forall u: ThreadId ensures SignalSeen(At(TurnOf(s, w, a.thread, a.input), u)) ==> !TurnOf(s, w, a.thread, a.input).shared.running {
          assert SignalSeen(At(w, u)) ==> !w.shared.running;
        }
      } else {
        assert forall u: ThreadId :: At(Run(s, kernel, actions), u) == At(w, u);
      }
    }
  }

  // ---- a pass settles the table

  /** All present entries outside `todo` are as a full pass would leave them. */
  ghost predicate SettledBut(cfg: Config, w: Shared, cache: ProcessCache, todo: set<Pid>) {
    forall pid | Present(cache, pid) && pid !in todo :: SettledAt(cfg, w.state, cache, w.table, pid)
  }

  ghost predicate PassKnows(s: Setup, w: Shared, pc: Pc) {
    match pc
    case AtPass(PassNext(todo)) => w.running ==> SettledBut(s.cfg, w, w.cache, todo)
    case AtPass(PassWalk(todo, pid)) => w.running ==> SettledBut(s.cfg, w, w.cache, todo + {pid})
    case AtPass(PassDropState(base)) => CacheOk(w.kernel, base) && (w.running ==> SettledBut(s.cfg, w, base, {}))
    case _ => true
  }

  /** One update settles its process and leaves the others alone. */
  lemma UpdateSettles(cfg: Config, w: Shared, h: Handle, grants: Grants, todo: set<Pid>)
    requires WellKeyed(w.cache) && AllGranted(grants) && Present(w.cache, h.pid) && w.cache[h.pid].value == h
    requires SettledBut(cfg, w, w.cache, todo + {h.pid})
    ensures SettledBut(cfg, w.(table := Updated(cfg, w, h, grants)), w.cache, todo)
  {
    forall pid | Present(w.cache, pid) && pid !in todo ensures SettledAt(cfg, w.state, w.cache, Updated(cfg, w, h, grants), pid) {
      UpdateEachSettles(cfg, w.state, w.cache, [h], w.table, grants, pid);
      assert UpdateEach(cfg, w.state, w.cache, [h], w.table, grants) == Updated(cfg, w, h, grants);
      assert h.pid == pid ==> h in [h];
    }
  }

  lemma PassTurnSettles(s: Setup, w: Shared, t: ThreadId, p: PassPoint, i: Input)
    requires SharedOk(s, w) && PassKnows(s, w, AtPass(p)) && AllGranted(i.grants)
    ensures var (w', pc') := PassTurn(s, w, t, p, i); PassKnows(s, w', pc')
  {
    match p {
      case PassWalk(todo, pid) =>
        if w.running && Present(w.cache, pid) && Decidable(s.cfg, w.state, w.cache[pid].value, w.cache) {
          UpdateSettles(s.cfg, w, w.cache[pid].value, i.grants, todo);
        }
      case PassNext(todo) =>
        if todo != {} {
          assert todo == todo - {Pick(todo, i.pid)} + {Pick(todo, i.pid)};
        }
      case _ =>
    }
  }

  /** While the thread owns the state lock nobody else writes the table, unless the daemon is ending. */
  lemma OthersKeepPass(s: Setup, w: World, t: ThreadId, i: Input, u: ThreadId)
    requires Invariant(s, w) && EndingOk(w) && u != t && PassKnows(s, w.shared, At(w, u))
    ensures PassKnows(s, TurnOf(s, w, t, i).shared, At(w, u))
  {
    var w' := TurnOf(s, w, t, i);
    ChangesNeedTheLock(s, w, Turn(t, i), u);
    if !w.shared.exited {
      EffectChanges(s, w.shared, t, At(w, t), i);
      EffectKeeps(s, w.shared, t, At(w, t), i);
      assert w.shared.stateOwner == Some(t) <==> HoldsState(At(w, t));
      assert w.shared.stateOwner == Some(u) <==> HoldsState(At(w, u));
      assert w.shared.cacheOwner == Some(u) <==> HoldsCache(At(w, u));
      assert AtReset(At(w, t)) ==> SignalSeen(At(w, t));
    }
  }

  ghost predicate PassesOk(s: Setup, w: World) {
    forall t: ThreadId :: PassKnows(s, w.shared, At(w, t))
  }

  lemma TurnKeepsPasses(s: Setup, w: World, t: ThreadId, i: Input)
    requires Invariant(s, w) && EndingOk(w) && PassesOk(s, w) && AllGranted(i.grants)
    ensures PassesOk(s, TurnOf(s, w, t, i))
  {
    var w' := TurnOf(s, w, t, i);
    forall u: ThreadId ensures PassKnows(s, w'.shared, At(w', u)) {
      if u != t {
        OthersKeepPass(s, w, t, i, u);
      } else if At(w, t).AtPass? && !w.shared.exited {
        PassTurnSettles(s, w.shared, t, At(w, t).pass, i);
      } else if !w.shared.exited {
        EffectKeepsPass(s, w.shared, t, At(w, t), i);
      }
    }
  }

  /** No other program leads into the middle of a pass. */
  lemma EffectKeepsPass(s: Setup, w: Shared, t: ThreadId, pc: Pc, i: Input)
    requires !pc.AtPass?
    ensures var (w', pc') := EffectOf(s, w, t, pc, i); PassKnows(s, w', pc')
  {
    EffectKeeps(s, w, t, pc, i);
  }

  lemma OutsideKeepsPasses(s: Setup, w: World, a: Action)
    requires Invariant(s, w) && PassesOk(s, w) && a.Outside? && Quiet(w, a)
    ensures PassesOk(s, Apply(s, w, a))
  {
    var w' := Apply(s, w, a);
    forall u: ThreadId ensures PassKnows(s, w'.shared, At(w', u)) {
      assert At(w', u) == At(w, u) && PassKnows(s, w.shared, At(w, u));
    }
  }

  lemma {:induction false} PassesHold(s: Setup, kernel: Machine, actions: seq<Action>)
    requires kernel.Valid() && QuietRun(s, kernel, actions) && Granting(actions)
    ensures PassesOk(s, Run(s, kernel, actions))
  {
    if actions == [] {
    } else {
      var before, a := actions[..|actions| - 1], actions[|actions| - 1];
      PassesHold(s, kernel, before);
      InvariantHolds(s, kernel, before);
      EndingHolds(s, kernel, before);
      if a.Turn? {
        assert a in actions;
        TurnKeepsPasses(s, Run(s, kernel, before), a.thread, a.input);
      } else {
        OutsideKeepsPasses(s, Run(s, kernel, before), a);
      }
    }
  }

  /**
   In every run in which no scheduling call is refused and nobody else changes
   schedules: when a pass has gone through the cache, one process at a time and
   in any order, then until it lets go of the state lock the table agrees with a
   full pass over that cache, whatever the other threads do, unless the daemon is
   ending.
   */
  lemma PassLeavesSettled(s: Setup, kernel: Machine, actions: seq<Action>, t: ThreadId)
    requires kernel.Valid() && QuietRun(s, kernel, actions) && Granting(actions)
    requires At(Run(s, kernel, actions), t).AtPass? && At(Run(s, kernel, actions), t).pass.PassDropState?
    requires Run(s, kernel, actions).shared.running
    ensures var w := Run(s, kernel, actions); Settled(s.cfg, w.shared.state, At(w, t).pass.base, w.shared.table)
  {
    PassesHold(s, kernel, actions);
    assert PassKnows(s, Run(s, kernel, actions).shared, At(Run(s, kernel, actions), t));
  }
}
