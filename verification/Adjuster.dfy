/** The operations that change the scheduling table: single updates, the full pass, messages and cleanup. */
module Adjuster {
  import opened Wrappers
  import opened Kernel
  import opened ProcessHandles
  import opened Ancestry
  import opened Config
  import opened Scheduling
  import opened FullPass
  import opened Cleanup

  // ---- messages

  /** The previous foreground process and the new one, as far as handles could be built: first the new one. */
  function NewTarget(prev: Option<Pid>, pid: Option<Pid>, lookups: map<Pid, Handle>): seq<Handle> {
    if pid != prev && pid.Some? && pid.value in lookups then [lookups[pid.value]] else []
  }

  /** The previous process is reached only if building the new one's handle did not fail. */
  function PrevTarget(prev: Option<Pid>, pid: Option<Pid>, lookups: map<Pid, Handle>): seq<Handle> {
    if pid != prev && (pid.Some? ==> pid.value in lookups) && prev.Some? && prev.value in lookups then [lookups[prev.value]] else []
  }

  predicate MessageSucceeds(prev: Option<Pid>, pid: Option<Pid>, lookups: map<Pid, Handle>) {
    pid == prev || ((pid.Some? ==> pid.value in lookups) && (prev.Some? ==> prev.value in lookups))
  }

  /** The handles were built for the pids they are filed under. */
  predicate LookupsOk(lookups: map<Pid, Handle>) {
    forall pid | pid in lookups :: lookups[pid].pid == pid
  }

  /** What a message that goes through makes of the table; the cache may have changed between its two updates. */
  ghost function MessageOutcome(cfg: Config, state: State, pid: Option<Pid>, lookups: map<Pid, Handle>, first: ProcessCache,
                                second: ProcessCache, table: Table, grants: Grants): Table {
    var state' := state.(foregroundPid := pid);
    UpdateEach(cfg, state', second, PrevTarget(state.foregroundPid, pid, lookups),
               UpdateEach(cfg, state', first, NewTarget(state.foregroundPid, pid, lookups), table, grants), grants)
  }

  /** One of the two updates, or none, reaches `q`: what it makes of the entry. */
  lemma MessageUpdates(cfg: Config, state: State, pid: Option<Pid>, lookups: map<Pid, Handle>, first: ProcessCache,
                       second: ProcessCache, table: Table, grants: Grants, q: Pid)
    requires WellKeyed(first) && WellKeyed(second) && AllGranted(grants) && LookupsOk(lookups)
    requires forall h | h in NewTarget(state.foregroundPid, pid, lookups) :: MatchesCache(h, first)
    requires forall h | h in PrevTarget(state.foregroundPid, pid, lookups) :: MatchesCache(h, second)
    requires Settled(cfg, state, first, table) && Present(first, q) && WalkEnds(first[q].value, first)
    requires !EntryMoves(first, second, q)
    ensures var h := first[q].value;
            var state' := state.(foregroundPid := pid);
            || SettledAt(cfg, state', second, MessageOutcome(cfg, state, pid, lookups, first, second, table, grants), q)
            || (&& !(exists x | x in NewTarget(state.foregroundPid, pid, lookups) + PrevTarget(state.foregroundPid, pid, lookups) :: x.pid == q)
                && Under(h, Ancestors(h, first), state.foregroundPid) != Under(h, Ancestors(h, first), pid))
  {
    var prev, state', h := state.foregroundPid, state.(foregroundPid := pid), first[q].value;
    var news, prevs := NewTarget(prev, pid, lookups), PrevTarget(prev, pid, lookups);
    var mid := UpdateEach(cfg, state', first, news, table, grants);
    UnmovedKeepsClass(cfg, state', first, second, q);
    UpdateEachSettles(cfg, state', first, news, table, grants, q);
    UpdateEachSettles(cfg, state', second, prevs, mid, grants, q);
    if h.procDir in table && table[h.procDir].threads != [] {
      ForegroundGap(cfg, state, pid, first, news, table, grants, q);
    }
    assert SettledAt(cfg, state', first, mid, q) <==> SettledAt(cfg, state', second, mid, q);
    assert forall x | x in news + prevs :: x in news || x in prevs;
  }

  /**
   A foreground message that succeeds leaves stale only entries strictly below
   the old or the new foreground process, and such as have changed, themselves or
   on their walk, while the cache was unlocked between the two updates. The next
   full pass over the same cache settles them all.
   */
  lemma MessageGap(cfg: Config, state: State, pid: Option<Pid>, lookups: map<Pid, Handle>, first: ProcessCache,
                   second: ProcessCache, table: Table, grants: Grants, q: Pid)
    requires WellKeyed(first) && WellKeyed(second) && AllWalksEnd(first) && AllGranted(grants) && LookupsOk(lookups)
    requires forall h | h in NewTarget(state.foregroundPid, pid, lookups) :: MatchesCache(h, first)
    requires forall h | h in PrevTarget(state.foregroundPid, pid, lookups) :: MatchesCache(h, second)
    requires Settled(cfg, state, first, table)
    requires pid != state.foregroundPid && MessageSucceeds(state.foregroundPid, pid, lookups)
    requires Present(second, q)
    ensures var state' := state.(foregroundPid := pid);
            var table' := MessageOutcome(cfg, state, pid, lookups, first, second, table, grants);
            && (|| SettledAt(cfg, state', second, table', q)
                || EntryMoves(first, second, q)
                || (&& pid != Some(q) && state.foregroundPid != Some(q)
                    && (HasAncestor(second[q].value, second, pid) || HasAncestor(second[q].value, second, state.foregroundPid))))
            && forall passed | PassOutcome(cfg, state', second, table', passed) :: SettledAt(cfg, state', second, passed, q)
  {
    var prev, state' := state.foregroundPid, state.(foregroundPid := pid);
    var table' := MessageOutcome(cfg, state, pid, lookups, first, second, table, grants);
    if !EntryMoves(first, second, q) {
      assert !EntryDiffers(first, second, q);
      MessageUpdates(cfg, state, pid, lookups, first, second, table, grants, q);
      UnmovedKeepsClass(cfg, state', first, second, q);
      var targets := NewTarget(prev, pid, lookups) + PrevTarget(prev, pid, lookups);
      if pid.Some? { assert lookups[pid.value] in targets; }
      if prev.Some? { assert lookups[prev.value] in targets; }
    }
    forall passed | PassOutcome(cfg, state', second, table', passed) ensures SettledAt(cfg, state', second, passed, q) {
      var h := second[q].value;
      if h.procDir in passed {
        DictateIdempotent(cfg, ClassIn(cfg, state', h, second), h, table'[h.procDir], passed[h.procDir]);
      }
    }
  }

  /** After an early return the previous foreground process itself keeps the boost it should have lost. */
  lemma EarlyReturnLeavesBoost(cfg: Config, state: State, pid: Option<Pid>, cache: ProcessCache, lookups: map<Pid, Handle>,
                               table: Table, grants: Grants, prev: Pid)
    requires WellKeyed(cache) && AllGranted(grants) && LookupsOk(lookups)
    requires forall p | p in lookups :: MatchesCache(lookups[p], cache)
    requires Settled(cfg, state, cache, table)
    requires state.foregroundPid == Some(prev) && pid != Some(prev) && !MessageSucceeds(Some(prev), pid, lookups)
    requires Present(cache, prev) && cache[prev].value.procDir in table && table[cache[prev].value.procDir].threads != []
    requires InScope(cfg, state, cache[prev].value, cache) && !HasAncestor(cache[prev].value, cache, pid)
    ensures var state' := state.(foregroundPid := pid);
            var handles := NewTarget(Some(prev), pid, lookups) + PrevTarget(Some(prev), pid, lookups);
            !SettledAt(cfg, state', cache, UpdateEach(cfg, state', cache, handles, table, grants), prev)
  {
    var handles := NewTarget(Some(prev), pid, lookups) + PrevTarget(Some(prev), pid, lookups);
    ForegroundGap(cfg, state, pid, cache, handles, table, grants, prev);
    assert !Under(cache[prev].value, Ancestors(cache[prev].value, cache), pid);
  }

  /** The table agreed with a full pass, the message returned early, and its previous foreground process is stale. */
  ghost predicate BoostLeft(cfg: Config, state: State, pid: Option<Pid>, cache: ProcessCache, lookups: map<Pid, Handle>,
                            table: Table, grants: Grants, prev: Pid) {
    && state.foregroundPid == Some(prev) && !MessageSucceeds(Some(prev), pid, lookups) && Settled(cfg, state, cache, table)
    && Present(cache, prev)
    && !SettledAt(cfg, state.(foregroundPid := pid), cache,
                  UpdateEach(cfg, state.(foregroundPid := pid), cache, NewTarget(Some(prev), pid, lookups) + PrevTarget(Some(prev), pid, lookups),
                             table, grants), prev)
  }

  /** It happens to any boosted application whose parent is critical, when the new foreground process is gone at once. */
  lemma BoostIsLeft(cfg: Config, parent: Handle, child: Handle, row: ProcessSched, pid: Pid, grants: Grants)
    requires IsCritical(cfg, parent, None) && child.executable.Some? && !IsCritical(cfg, child, None)
    requires parent.pid == child.parentPid != child.pid && parent.procDir != child.procDir
    requires parent.parentPid !in {parent.pid, child.pid} && pid !in {parent.pid, child.pid}
    requires row.threads != [] && Obeys(cfg, Boosted, child, row, row) && AllGranted(grants)
    ensures BoostLeft(cfg, State(Some(child.pid), None), Some(pid), map[parent.pid := Some(parent), child.pid := Some(child)], map[],
                      map[child.procDir := row], grants, child.pid)
  {
    var cache: ProcessCache := map[parent.pid := Some(parent), child.pid := Some(child)];
    var state := State(Some(child.pid), None);
    assert Maximal(child, cache, [parent]);
    MaximalUnique(child, cache, [parent], Ancestors(child, cache));
    assert parent in [parent] && IsCritical(cfg, parent, Some(state));
    assert ClassIn(cfg, state, child, cache) == Boosted;
    assert InScope(cfg, state, child, cache) && !HasAncestor(child, cache, Some(pid));
    EarlyReturnLeavesBoost(cfg, state, Some(pid), cache, map[], map[child.procDir := row], grants, child.pid);
  }

  lemma EarlyReturnHappens()
    returns (cfg: Config, state: State, pid: Option<Pid>, cache: ProcessCache, lookups: map<Pid, Handle>, table: Table, grants: Grants, prev: Pid)
    ensures BoostLeft(cfg, state, pid, cache, lookups, table, grants, prev)
  {
    var parent, child := Handle(1, 0, Some("critical"), 0, 0), Handle(2, 1, Some("application"), 1, 1);
    var row := ProcessSched([ThreadSched(2, Other, 0, BOOST_NICE, false)], 0);
    cfg, state, pid := Config(9, ["critical"], [], [], false), State(Some(2), None), Some(3);
    cache, lookups, table := map[1 := Some(parent), 2 := Some(child)], map[], map[1 := row];
    grants, prev := _ => 4, 2;
    assert cfg.critical[0] == "critical" && |"critical"| != |"application"|;
    BoostIsLeft(cfg, parent, child, row, 3, grants);
  }

  /** The two targets are, in this order, the pids that the thread model of the message handler works through. */
  lemma TargetsInOrder(prev: Option<Pid>, pid: Option<Pid>, lookups: map<Pid, Handle>)
    requires LookupsOk(lookups) && MessageSucceeds(prev, pid, lookups)
    ensures var targets := NewTarget(prev, pid, lookups) + PrevTarget(prev, pid, lookups);
            && |targets| == |ForegroundTargets(prev, pid)|
            && forall i | 0 <= i < |targets| :: targets[i].pid == ForegroundTargets(prev, pid)[i]
  {
  }

  /** The daemon's view of the scheduler, with the client and foreground pids it was told. */
  class Adjuster {
    var state: State
    var table: Table

    constructor (table: Table)
      ensures this.table == table && state == State(None, None)
    {
      this.table := table;
      state := State(None, None);
    }

    /** `set_all`: stops at the first refused call; a process that is gone has no threads to set. */
    method SetAll(cfg: Config, class_: Class, p: Handle, grants: Grants) returns (ok: bool)
      modifies this`table
      ensures table == Reclassify(cfg, class_, p, old(table), grants)
      ensures ok <==> p.procDir in old(table) ==> SetAllFrom(old(table)[p.procDir], Calls(cfg, class_, p), grants, 0).1
      ensures table.Keys == old(table).Keys && forall x | x in old(table) && x != p.procDir :: table[x] == old(table)[x]
      ensures p.procDir !in old(table) ==> ok
      ensures p.procDir in old(table) ==>
                var before, after := old(table)[p.procDir], table[p.procDir];
                && (ok <==> forall i | 0 <= i < |before.threads| :: CallCount(cfg, class_, p) <= grants(before.threads[i].tid))
                && (ok ==> Obeys(cfg, class_, p, before, after))
                && (!ok ==> exists k :: FirstRefused(cfg, class_, p, before, grants, 0, k)
                                        && BrokenOffAt(cfg, class_, p, before, grants, 0, k, after))
    {
      if p.procDir !in table { return true; }
      SetAllMeetsDictate(cfg, class_, p, table[p.procDir], grants);
      SetAllBreaksOffFrom(cfg, class_, p, table[p.procDir], grants, 0);
      var calls := Calls(cfg, class_, p);
      var ps := table[p.procDir];
      ghost var goal := SetAllFrom(ps, calls, grants, 0);
      var i := 0;
      while i < |ps.threads|
        invariant i <= |ps.threads|
        invariant SetAllFrom(ps, calls, grants, i) == goal
      {
        var n := grants(ps.threads[i].tid);
        var (t, g) := Perform(ps.threads[i], ps.autogroup, calls, n);
        ps := ProcessSched(ps.threads[i := t], g);
        if n < |calls| {
          table := table[p.procDir := ps];
          return false;
        }
        i := i + 1;
      }
      table := table[p.procDir := ps];
      return true;
    }

    /** `update_single_process`; the result of `try_set_all` is dropped. */
    method UpdateSingle(cfg: Config, p: Handle, cache: ProcessCache, grants: Grants)
      requires Decidable(cfg, state, p, cache)
      modifies this`table
      ensures table == Reclassify(cfg, ClassIn(cfg, state, p, cache), p, old(table), grants)
      ensures AllGranted(grants) && p.procDir in old(table) ==>
                ProcessGets(cfg, state, p, Ancestors(p, cache), old(table)[p.procDir], table[p.procDir])
    {
      if AllGranted(grants) && p.procDir in table { UpdateGives(cfg, state, p, cache, table[p.procDir], grants); }
      var class_ := Untouched;
      if p.executable.Some? {
        if IsCritical(cfg, p, Some(state)) {
          class_ := Realtime;
        } else {
          var ancestors := Parents(p, cache);
          class_ := ClassOf(cfg, state, p, ancestors);
        }
      }
      var _ := SetAll(cfg, class_, p, grants);
    }

    /** `update_all_processes_once`: one update per present entry, in whatever order the map yields them. */
    method UpdateAll(cfg: Config, cache: ProcessCache, grants: Grants)
      requires WellKeyed(cache)
      requires forall pid | Present(cache, pid) :: Decidable(cfg, state, cache[pid].value, cache)
      modifies this`table
      ensures table.Keys == old(table).Keys
      ensures forall pid | Present(cache, pid) && cache[pid].value.procDir in old(table) ::
                var h := cache[pid].value;
                table[h.procDir] ==
                SetAllFrom(old(table)[h.procDir], Calls(cfg, ClassIn(cfg, state, h, cache), h), grants, 0).0
      ensures AllGranted(grants) ==> PassOutcome(cfg, state, cache, old(table), table)
    {
      var todo: set<Pid> := set pid | pid in cache && cache[pid].Some?;
      while todo != {}
        invariant forall pid | pid in todo :: Present(cache, pid)
        invariant table.Keys == old(table).Keys
        invariant forall pid | Present(cache, pid) && cache[pid].value.procDir in old(table) ::
                    var h := cache[pid].value;
                    table[h.procDir] ==
                    if pid in todo then old(table)[h.procDir]
                    else SetAllFrom(old(table)[h.procDir], Calls(cfg, ClassIn(cfg, state, h, cache), h), grants, 0).0
        invariant forall i | i in old(table) && (forall pid | Present(cache, pid) :: cache[pid].value.procDir != i) ::
                    table[i] == old(table)[i]
        decreases |todo|
      {
        var pid :| pid in todo;
        UpdateSingle(cfg, cache[pid].value, cache, grants);
        todo := todo - {pid};
      }
      if AllGranted(grants) {
        forall pid | Present(cache, pid) && cache[pid].value.procDir in old(table)
          ensures var h := cache[pid].value;
                  Obeys(cfg, ClassIn(cfg, state, h, cache), h, old(table)[h.procDir], table[h.procDir])
        {
          var h := cache[pid].value;
          SetAllMeetsDictate(cfg, ClassIn(cfg, state, h, cache), h, old(table)[h.procDir], grants);
        }
      }
    }

    /**
     `process_message`. `lookups` holds the handles that can be built now;
     the cache is locked separately for the two updates, so it may differ.
     */
    method ProcessMessage(cfg: Config, message: Message, lookups: map<Pid, Handle>, first: ProcessCache, second: ProcessCache,
                          grants: Grants)
      returns (r: Result<bool>)
      requires message.SetForegroundPid? ==>
                 && (forall p | p in NewTarget(state.foregroundPid, message.pid, lookups) :: Decidable(cfg, state, p, first))
                 && (forall p | p in PrevTarget(state.foregroundPid, message.pid, lookups) :: Decidable(cfg, state, p, second))
      modifies this
      ensures message.SetClientPid? ==>
                && state == old(state).(clientPid := Some(message.client))
                && table == old(table) && r == Ok(state != old(state))
      ensures message.SetForegroundPid? ==>
                var prev, pid := old(state).foregroundPid, message.pid;
                && state == old(state).(foregroundPid := pid)
                && table == UpdateEach(cfg, state, second, PrevTarget(prev, pid, lookups),
                                       UpdateEach(cfg, state, first, NewTarget(prev, pid, lookups), old(table), grants), grants)
                && r == if MessageSucceeds(prev, pid, lookups) then Ok(state != old(state)) else Err
    {
      var prevState := state;
      match message {
        case SetForegroundPid(pid) =>
          var prevPid := state.foregroundPid;
          state := state.(foregroundPid := pid);
          if pid != prevPid {
            if pid.Some? {
              if pid.value !in lookups { return Err; }
              assert lookups[pid.value] in NewTarget(prevPid, pid, lookups);
              UpdateSingle(cfg, lookups[pid.value], first, grants);
            }
            if prevPid.Some? {
              if prevPid.value !in lookups { return Err; }
              assert lookups[prevPid.value] in PrevTarget(prevPid, pid, lookups);
              UpdateSingle(cfg, lookups[prevPid.value], second, grants);
            }
          }
        case SetClientPid(pid) =>
          state := state.(clientPid := Some(pid));
      }
      return Ok(state != prevState);
    }

    /** The loop body of `cleanup`. */
    method CleanupOne(cfg: Config, p: Handle, cache: ProcessCache, autogroups: set<Instance>, grants: Grants) returns (ok: bool)
      requires CleanupDecidable(cfg, p, cache)
      modifies this`table
      ensures (table, ok) == CleanOne(cfg, p, cache, old(table), autogroups, grants)
    {
      var selected := false;
      if p.executable.Some? {
        selected := IsCritical(cfg, p, None);
        if !selected {
          var ancestors := Parents(p, cache);
          selected := HasCritical(cfg, None, ancestors);
        }
      }
      assert selected == Picked(cfg, p, cache);
      if selected {
        var done := SetAll(cfg, Normal, p, grants);
        if !done || p.procDir !in table || p.procDir !in autogroups { return false; }
        table := table[p.procDir := table[p.procDir].(autogroup := 0)];
      }
      return true;
    }

    /**
     `cleanup` over the pids listed in `/proc`; `listed` holds the handles that
     could be built, in listing order. The first refused call ends the whole
     cleanup, and so does a selected process that is gone: later processes are
     left as they are.
     */
    method Cleanup(cfg: Config, listed: seq<Handle>, autogroups: set<Instance>, grants: Grants) returns (ok: bool, done: nat)
      requires forall i, j | 0 <= i < j < |listed| :: listed[i].procDir != listed[j].procDir
      requires forall p | p in listed :: CleanupDecidable(cfg, p, Snapshot(listed))
      modifies this`table
      ensures table.Keys == old(table).Keys
      ensures done <= |listed| && (ok <==> done == |listed|)
      ensures ok <==> forall i | 0 <= i < |listed| && Picked(cfg, listed[i], Snapshot(listed)) ::
                CleanupGranted(cfg, listed[i], old(table), autogroups, grants)
      ensures forall i | 0 <= i < done :: HandledBy(cfg, listed[i], Snapshot(listed), old(table), table)
      ensures !ok ==>
                var p := listed[done];
                && Picked(cfg, p, Snapshot(listed))
                && (p.procDir in old(table) ==>
                      table[p.procDir] == SetAllFrom(old(table)[p.procDir], Calls(cfg, Normal, p), grants, 0).0)
      ensures forall i | done < i < |listed| && listed[i].procDir in old(table) ::
                table[listed[i].procDir] == old(table)[listed[i].procDir]
      ensures forall x | x in old(table) && (forall p | p in listed :: p.procDir != x) :: table[x] == old(table)[x]
      ensures ok && DistinctPids(listed) ==> CleansExactly(cfg, listed, old(table), table)
    {
      var cache := Snapshot(listed);
      done := 0;
      while done < |listed|
        invariant done <= |listed|
        invariant table.Keys == old(table).Keys
        invariant forall i | 0 <= i < done && Picked(cfg, listed[i], cache) ::
                    CleanupGranted(cfg, listed[i], old(table), autogroups, grants)
        invariant forall i | 0 <= i < done :: HandledBy(cfg, listed[i], cache, old(table), table)
        invariant forall i | done <= i < |listed| && listed[i].procDir in old(table) ::
                    table[listed[i].procDir] == old(table)[listed[i].procDir]
        invariant forall x | x in old(table) && (forall p | p in listed :: p.procDir != x) :: table[x] == old(table)[x]
      {
        CleanOneOutcome(cfg, listed[done], cache, table, autogroups, grants);
        ok := CleanupOne(cfg, listed[done], cache, autogroups, grants);
        if !ok { return; }
        done := done + 1;
      }
      ok := true;
      if DistinctPids(listed) { HandledMeansCleaned(cfg, listed, old(table), table); }
    }
  }
}
