/** Which entries of the cache can be out of date with the scheduling table, at any moment of a run. */
module DaemonStaleness {
  import opened Wrappers
  import opened Kernel
  import opened ProcessHandles
  import opened Ancestry
  import opened Scheduling
  import opened FullPass
  import opened Cleanup
  import opened Daemon
  import opened DaemonSafety
  import opened DaemonAncestry
  import opened DaemonSchedules

  /** A full pass at this moment would change the process of this entry. */
  ghost predicate StaleAt(s: Setup, w: Shared, pid: Pid) {
    Present(w.cache, pid) && !SettledAt(s.cfg, w.state, w.cache, w.table, pid)
  }

  ghost predicate StaleAfter(s: Setup, kernel: Machine, actions: seq<Action>, pid: Pid) {
    StaleAt(s, Run(s, kernel, actions).shared, pid)
  }

  // ---- what can make an entry stale

  /** The process is subject to the foreground and moves into or out of its subtree. */
  ghost predicate ForegroundMoves(s: Setup, w: Shared, state': State, pid: Pid) {
    && Present(w.cache, pid)
    && var h := w.cache[pid].value;
       && InScope(s.cfg, w.state, h, w.cache)
       && Under(h, Ancestors(h, w.cache), w.state.foregroundPid) != Under(h, Ancestors(h, w.cache), state'.foregroundPid)
  }

  /** The process or one of its ancestors becomes critical or ceases to be. */
  ghost predicate VerdictMoves(s: Setup, w: Shared, state': State, pid: Pid) {
    && Present(w.cache, pid)
    && var h := w.cache[pid].value;
       exists x | x in [h] + Ancestors(h, w.cache) :: IsCritical(s.cfg, x, Some(state')) != IsCritical(s.cfg, x, Some(w.state))
  }

  /** The process is updated through a handle that differs from the cached one. */
  ghost predicate ForeignUpdate(s: Setup, w: Shared, pc: Pc, pid: Pid) {
    && UpdateHandle(w, pc).Some? && Present(w.cache, pid)
    && var h := UpdateHandle(w, pc).value;
       h.procDir == w.cache[pid].value.procDir && h != w.cache[pid].value
  }

  /** Cleanup sets the process back. */
  ghost predicate SetBack(s: Setup, w: Shared, pc: Pc, pid: Pid) {
    && AtReset(pc) && pc.exit.done < |pc.exit.listed| && Present(w.cache, pid)
    && var p := pc.exit.listed[pc.exit.done];
       p.procDir == w.cache[pid].value.procDir && Picked(s.cfg, p, Snapshot(pc.exit.listed))
  }

  ghost predicate Unsettles(s: Setup, w: World, a: Action, pid: Pid) {
    && a.Turn? && !w.shared.exited
    && var pc, w' := At(w, a.thread), TurnOf(s, w, a.thread, a.input).shared;
       || ForegroundMoves(s, w.shared, w'.state, pid)
       || VerdictMoves(s, w.shared, w'.state, pid)
       || EntryMoves(w.shared.cache, w'.cache, pid)
       || ForeignUpdate(s, w.shared, pc, pid)
       || SetBack(s, w.shared, pc, pid)
  }

  // ---- nothing else can

  lemma ClassStays(s: Setup, w: Shared, state': State, cache': ProcessCache, pid: Pid)
    requires Present(w.cache, pid) && WalkEnds(w.cache[pid].value, w.cache)
    requires !ForegroundMoves(s, w, state', pid) && !VerdictMoves(s, w, state', pid) && !EntryMoves(w.cache, cache', pid)
    ensures Present(cache', pid) && cache'[pid] == w.cache[pid]
    ensures ClassIn(s.cfg, state', w.cache[pid].value, cache') == ClassIn(s.cfg, w.state, w.cache[pid].value, w.cache)
  {
    var h := w.cache[pid].value;
    UnmovedKeepsClass(s.cfg, state', w.cache, cache', pid);
    var chain := [h] + Ancestors(h, w.cache);
    assert chain[0] == h && forall x | x in Ancestors(h, w.cache) :: x in chain;
    assert IsCritical(s.cfg, h, Some(state')) == IsCritical(s.cfg, h, Some(w.state));
    assert HasCritical(s.cfg, Some(state'), Ancestors(h, w.cache)) == HasCritical(s.cfg, Some(w.state), Ancestors(h, w.cache));
  }

  /** The row of the process changes only by an update through its own handle, unless cleanup or another handle reaches it. */
  lemma RowStays(s: Setup, w: Shared, t: ThreadId, pc: Pc, i: Input, pid: Pid)
    requires Present(w.cache, pid) && !ForeignUpdate(s, w, pc, pid) && !SetBack(s, w, pc, pid)
    requires w.cache[pid].value.procDir in EffectOf(s, w, t, pc, i).0.table
    ensures var h, table' := w.cache[pid].value, EffectOf(s, w, t, pc, i).0.table;
            && h.procDir in w.table
            && (|| table'[h.procDir] == w.table[h.procDir]
                || (UpdateHandle(w, pc) == Some(h) && table' == Updated(s.cfg, w, h, i.grants)))
  {
    if AtReset(pc) {
      var listed, done := pc.exit.listed, pc.exit.done;
      if done < |listed| {
        CleanOneOutcome(s.cfg, listed[done], Snapshot(listed), w.table, i.autogroups, i.grants);
      }
    } else {
      UpdateEffect(s, w, t, pc, i);
    }
  }

  lemma TurnKeepsSettled(s: Setup, w: World, t: ThreadId, i: Input, pid: Pid)
    requires AllWalksEnd(w.shared.cache) && AllGranted(i.grants) && !w.shared.exited
    requires !StaleAt(s, w.shared, pid) && !Unsettles(s, w, Turn(t, i), pid)
    ensures !StaleAt(s, TurnOf(s, w, t, i).shared, pid)
  {
    var w' := TurnOf(s, w, t, i).shared;
    if Present(w'.cache, pid) {
      assert !EntryDiffers(w.shared.cache, w'.cache, pid);
      var h := w.shared.cache[pid].value;
      ClassStays(s, w.shared, w'.state, w'.cache, pid);
      if h.procDir in w'.table {
        RowStays(s, w.shared, t, At(w, t), i, pid);
        var class_ := ClassIn(s.cfg, w.shared.state, h, w.shared.cache);
        SetAllMeetsDictate(s.cfg, class_, h, w.shared.table[h.procDir], i.grants);
        DictateIdempotent(s.cfg, class_, h, w.shared.table[h.procDir],
                          SetAllFrom(w.shared.table[h.procDir], Calls(s.cfg, class_, h), i.grants, 0).0);
      }
    }
  }

  lemma OutsideKeepsSettled(s: Setup, w: World, a: Action, pid: Pid)
    requires Invariant(s, w) && a.Outside? && Quiet(w, a) && !StaleAt(s, w.shared, pid)
    ensures !StaleAt(s, Apply(s, w, a).shared, pid)
  {
    if Present(w.shared.cache, pid) {
      assert Sound(w.shared.kernel, w.shared.cache[pid].value);
    }
  }

  lemma ActionKeepsSettled(s: Setup, kernel: Machine, before: seq<Action>, a: Action, pid: Pid)
    requires kernel.Valid() && AllWalksEnd(Run(s, kernel, before).shared.cache)
    requires Quiet(Run(s, kernel, before), a) && (a.Turn? ==> AllGranted(a.input.grants))
    requires !StaleAfter(s, kernel, before, pid) && !Unsettles(s, Run(s, kernel, before), a, pid)
    ensures !StaleAfter(s, kernel, before + [a], pid)
  {
    RunOneMore(s, kernel, before, a);
    InvariantHolds(s, kernel, before);
    if a.Outside? {
      OutsideKeepsSettled(s, Run(s, kernel, before), a, pid);
    } else if !Run(s, kernel, before).shared.exited {
      TurnKeepsSettled(s, Run(s, kernel, before), a.thread, a.input, pid);
    }
  }

  // ---- whole runs

  /** Walks end, no scheduling call is refused, and nobody else changes schedules. */
  ghost predicate Orderly(s: Setup, kernel: Machine, actions: seq<Action>) {
    QuietRun(s, kernel, actions) && Granting(actions) && AcyclicThroughout(s, kernel, actions)
  }

  /** One of the actions from number `n` on can have made the entry stale. */
  ghost predicate UnsettledSince(s: Setup, kernel: Machine, actions: seq<Action>, n: nat, pid: Pid) {
    exists m :: n <= m < |actions| && Unsettles(s, Run(s, kernel, actions[..m]), actions[m], pid)
  }

  lemma OrderlyBefore(s: Setup, kernel: Machine, actions: seq<Action>)
    requires Orderly(s, kernel, actions) && actions != []
    ensures Orderly(s, kernel, actions[..|actions| - 1])
  {
  }

  lemma OrderlyNow(s: Setup, kernel: Machine, actions: seq<Action>)
    requires Orderly(s, kernel, actions)
    ensures AllWalksEnd(Run(s, kernel, actions).shared.cache)
  {
  }

  lemma OrderlyNext(s: Setup, kernel: Machine, before: seq<Action>, a: Action)
    requires Orderly(s, kernel, before + [a])
    ensures Quiet(Run(s, kernel, before), a) && (a.Turn? ==> AllGranted(a.input.grants))
  {
    assert (before + [a])[..|before + [a]| - 1] == before;
    assert a in before + [a];
  }

  lemma LastHasCause(s: Setup, kernel: Machine, before: seq<Action>, a: Action, pid: Pid)
    requires kernel.Valid() && Orderly(s, kernel, before) && Orderly(s, kernel, before + [a])
    requires !StaleAfter(s, kernel, before, pid) && StaleAfter(s, kernel, before + [a], pid)
    ensures Unsettles(s, Run(s, kernel, before), a, pid)
  {
    OrderlyNow(s, kernel, before);
    OrderlyNext(s, kernel, before, a);
    if !Unsettles(s, Run(s, kernel, before), a, pid) {
      ActionKeepsSettled(s, kernel, before, a, pid);
    }
  }

  /** If the action turns `bad` on, it is a cause. */
  ghost predicate CausedBy(bad: seq<Action> -> bool, cause: (seq<Action>, Action) -> bool, before: seq<Action>, a: Action) {
    !bad(before) && bad(before + [a]) ==> cause(before, a)
  }

  /** What was not so after `n` actions and is so now has come about by one of the actions since. */
  lemma {:induction false} CauseExists(bad: seq<Action> -> bool, cause: (seq<Action>, Action) -> bool, actions: seq<Action>, n: nat)
    requires n <= |actions| && !bad(actions[..n]) && bad(actions)
    requires forall m | 0 <= m < |actions| :: CausedBy(bad, cause, actions[..m], actions[m])
    ensures exists m :: n <= m < |actions| && cause(actions[..m], actions[m])
  {
    assert actions[..|actions|] == actions;
    var last := |actions| - 1;
    var before := actions[..last];
    if bad(before) {
      assert forall m | 0 <= m <= last :: before[..m] == actions[..m];
      CauseExists(bad, cause, before, n);
    } else {
      assert before + [actions[last]] == actions;
      assert CausedBy(bad, cause, actions[..last], actions[last]);
    }
  }

  ghost function Stale(s: Setup, kernel: Machine, pid: Pid): seq<Action> -> bool {
    (actions: seq<Action>) => StaleAfter(s, kernel, actions, pid)
  }

  ghost function Cause(s: Setup, kernel: Machine, pid: Pid): (seq<Action>, Action) -> bool {
    (before: seq<Action>, a: Action) => Unsettles(s, Run(s, kernel, before), a, pid)
  }

  lemma {:induction false} OrderlySoFar(s: Setup, kernel: Machine, actions: seq<Action>, n: nat)
    requires Orderly(s, kernel, actions) && n <= |actions|
    ensures Orderly(s, kernel, actions[..n])
  {
    if n == |actions| {
      assert actions[..n] == actions;
    } else {
      OrderlyBefore(s, kernel, actions);
      OrderlySoFar(s, kernel, actions[..|actions| - 1], n);
      assert actions[..|actions| - 1][..n] == actions[..n];
    }
  }

  lemma StaleIsCausedBy(s: Setup, kernel: Machine, actions: seq<Action>, m: nat, pid: Pid)
    requires kernel.Valid() && Orderly(s, kernel, actions) && m < |actions|
    ensures CausedBy(Stale(s, kernel, pid), Cause(s, kernel, pid), actions[..m], actions[m])
  {
    OrderlySoFar(s, kernel, actions, m);
    OrderlySoFar(s, kernel, actions, m + 1);
    assert actions[..m + 1] == actions[..m] + [actions[m]];
    if !StaleAfter(s, kernel, actions[..m], pid) && StaleAfter(s, kernel, actions[..m] + [actions[m]], pid) {
      LastHasCause(s, kernel, actions[..m], actions[m], pid);
    }
  }

  /**
   In every run in which walks end, no call is refused and nobody else changes
   schedules: an entry that was not stale at some moment and is stale now has been
   made so since by a step that moved it with respect to the foreground, changed
   the verdict on it or on an ancestor, changed it or an entry its walk looks up,
   updated it through another handle, or set it back.
   */
  lemma StaleHasCause(s: Setup, kernel: Machine, actions: seq<Action>, n: nat, pid: Pid)
    requires kernel.Valid() && Orderly(s, kernel, actions)
    requires n <= |actions| && !StaleAfter(s, kernel, actions[..n], pid) && StaleAfter(s, kernel, actions, pid)
    ensures UnsettledSince(s, kernel, actions, n, pid)
  {
    var stale, cause := Stale(s, kernel, pid), Cause(s, kernel, pid);
    forall m | 0 <= m < |actions| ensures CausedBy(stale, cause, actions[..m], actions[m]) {
      StaleIsCausedBy(s, kernel, actions, m, pid);
    }
    CauseExists(stale, cause, actions, n);
    var m :| n <= m < |actions| && cause(actions[..m], actions[m]);
    assert Unsettles(s, Run(s, kernel, actions[..m]), actions[m], pid);
  }

  /**
   So at any moment after a pass has gone through the cache, and before or after
   the next one, only entries with such a cause since then can be stale.
   */
  lemma StaleSinceLastPass(s: Setup, kernel: Machine, actions: seq<Action>, n: nat, t: ThreadId, pid: Pid)
    requires kernel.Valid() && Orderly(s, kernel, actions)
    requires n <= |actions| && At(Run(s, kernel, actions[..n]), t) == AtPass(PassNext({}))
    requires Run(s, kernel, actions[..n]).shared.running
    requires StaleAfter(s, kernel, actions, pid)
    ensures UnsettledSince(s, kernel, actions, n, pid)
  {
    OrderlySoFar(s, kernel, actions, n);
    PassesHold(s, kernel, actions[..n]);
    var w := Run(s, kernel, actions[..n]);
    assert PassKnows(s, w.shared, At(w, t));
    StaleHasCause(s, kernel, actions, n, pid);
  }
}
