/** What one pass over the whole cache makes of the scheduling table, and what single updates leave open. */
module FullPass {
  import opened Wrappers
  import opened Kernel
  import opened ProcessHandles
  import opened Ancestry
  import opened Config
  import opened Scheduling

  /** What the daemon's invariant gives: entries under their own pid, and no instance cached twice. */
  ghost predicate WellKeyed(cache: ProcessCache) {
    && Keyed(cache)
    && (forall p, q | Present(cache, p) && Present(cache, q) && cache[p].value.procDir == cache[q].value.procDir :: p == q)
  }

  /** The table after `update_all_processes_once`, told entry by entry from the table before. */
  ghost predicate PassOutcome(cfg: Config, state: State, cache: ProcessCache, before: Table, after: Table) {
    && after.Keys == before.Keys
    && (forall pid | Present(cache, pid) && cache[pid].value.procDir in before ::
          var h := cache[pid].value;
          Obeys(cfg, ClassIn(cfg, state, h, cache), h, before[h.procDir], after[h.procDir]))
    && (forall i | i in before && (forall pid | Present(cache, pid) :: cache[pid].value.procDir != i) :: after[i] == before[i])
  }

  /** The entry of `pid` is as a full pass would leave it. */
  ghost predicate SettledAt(cfg: Config, state: State, cache: ProcessCache, table: Table, pid: Pid) {
    Present(cache, pid) && cache[pid].value.procDir in table ==>
      var h := cache[pid].value;
      Obeys(cfg, ClassIn(cfg, state, h, cache), h, table[h.procDir], table[h.procDir])
  }

  /** The table agrees with a full pass: another pass would change nothing. */
  ghost predicate Settled(cfg: Config, state: State, cache: ProcessCache, table: Table) {
    forall pid | Present(cache, pid) :: SettledAt(cfg, state, cache, table, pid)
  }

  lemma SettledIff(cfg: Config, state: State, cache: ProcessCache, table: Table)
    ensures Settled(cfg, state, cache, table) <==> PassOutcome(cfg, state, cache, table, table)
  {
  }

  /** The cache and the state decide the outcome alone, so the order of the pass does not matter. */
  lemma PassOutcomeUnique(cfg: Config, state: State, cache: ProcessCache, before: Table, a: Table, b: Table)
    requires PassOutcome(cfg, state, cache, before, a) && PassOutcome(cfg, state, cache, before, b)
    ensures a == b
  {
    forall i | i in before ensures a[i] == b[i] {
      if exists pid :: Present(cache, pid) && cache[pid].value.procDir == i {
        var pid :| Present(cache, pid) && cache[pid].value.procDir == i;
        var h := cache[pid].value;
        ObeysUnique(cfg, ClassIn(cfg, state, h, cache), h, before[i], a[i], b[i]);
      }
    }
  }

  /** A pass closes every gap there was, and a second pass changes nothing. */
  lemma PassSettles(cfg: Config, state: State, cache: ProcessCache, before: Table, after: Table, again: Table)
    requires PassOutcome(cfg, state, cache, before, after)
    requires PassOutcome(cfg, state, cache, after, again)
    ensures Settled(cfg, state, cache, after) && again == after
  {
    forall pid | Present(cache, pid) ensures SettledAt(cfg, state, cache, after, pid) {
      var h := cache[pid].value;
      if h.procDir in after {
        DictateIdempotent(cfg, ClassIn(cfg, state, h, cache), h, before[h.procDir], after[h.procDir]);
      }
    }
    SettledIff(cfg, state, cache, after);
    PassOutcomeUnique(cfg, state, cache, after, after, again);
  }

  /** A process that is neither critical nor below a critical one is left as it is. */
  lemma PassSparesOthers(cfg: Config, state: State, cache: ProcessCache, before: Table, after: Table, pid: Pid)
    requires PassOutcome(cfg, state, cache, before, after)
    requires Present(cache, pid) && cache[pid].value.procDir in before
    requires var h := cache[pid].value;
             !IsCritical(cfg, h, Some(state)) && !HasCritical(cfg, Some(state), Ancestors(h, cache))
    ensures after[cache[pid].value.procDir] == before[cache[pid].value.procDir]
  {
  }

  // ---- single updates

  /** `update_single_process` for each of the handles in turn. */
  ghost function UpdateEach(cfg: Config, state: State, cache: ProcessCache, handles: seq<Handle>, table: Table, grants: Grants): Table {
    if handles == [] then table
    else
      UpdateEach(cfg, state, cache, handles[1..],
                 Reclassify(cfg, ClassIn(cfg, state, handles[0], cache), handles[0], table, grants), grants)
  }

  /** A freshly built handle agrees with the cached one, if there is one; otherwise its instance is not cached at all. */
  ghost predicate MatchesCache(h: Handle, cache: ProcessCache) {
    if Present(cache, h.pid) then cache[h.pid].value == h
    else forall pid | Present(cache, pid) :: cache[pid].value.procDir != h.procDir
  }

  lemma {:induction false} UpdateEachSettles(
    cfg: Config, state: State, cache: ProcessCache, handles: seq<Handle>, table: Table, grants: Grants, pid: Pid)
    requires WellKeyed(cache) && AllGranted(grants)
    requires forall h | h in handles :: MatchesCache(h, cache)
    requires Present(cache, pid)
    ensures var table' := UpdateEach(cfg, state, cache, handles, table, grants);
            && table'.Keys == table.Keys
            && ((exists h | h in handles :: h.pid == pid) || SettledAt(cfg, state, cache, table, pid)
                ==> SettledAt(cfg, state, cache, table', pid))
            && (!(exists h | h in handles :: h.pid == pid) && cache[pid].value.procDir in table
                ==> table'[cache[pid].value.procDir] == table[cache[pid].value.procDir])
  {
    if handles == [] {
    } else {
      var h := handles[0];
      var class_ := ClassIn(cfg, state, h, cache);
      var next := Reclassify(cfg, class_, h, table, grants);
      if h.procDir in table {
        SetAllMeetsDictate(cfg, class_, h, table[h.procDir], grants);
        DictateIdempotent(cfg, class_, h, table[h.procDir], next[h.procDir]);
      }
      assert h.pid == pid ==> SettledAt(cfg, state, cache, next, pid);
      assert h.pid != pid ==> cache[pid].value.procDir != h.procDir by {
        assert MatchesCache(h, cache);
      }
      UpdateEachSettles(cfg, state, cache, handles[1..], next, grants, pid);
      assert handles == [h] + handles[1..];
    }
  }

  // ---- the foreground switch

  /** Only the processes whose class depends on the foreground pid at all: below a critical one and not critical themselves. */
  ghost predicate InScope(cfg: Config, state: State, p: Handle, cache: ProcessCache) {
    p.executable.Some? && !IsCritical(cfg, p, Some(state)) && HasCritical(cfg, Some(state), Ancestors(p, cache))
  }

  /** A change of the foreground pid changes a class exactly for those that enter or leave the foreground's subtree. */
  lemma ForegroundChangesClassIff(cfg: Config, state: State, pid: Option<Pid>, p: Handle, cache: ProcessCache)
    ensures var state' := state.(foregroundPid := pid);
            ClassIn(cfg, state', p, cache) != ClassIn(cfg, state, p, cache) <==>
            && InScope(cfg, state, p, cache)
            && Under(p, Ancestors(p, cache), state.foregroundPid) != Under(p, Ancestors(p, cache), pid)
  {
  }

  /**
   The exact gap that a foreground message leaves. The table agreed with a full
   pass; then the foreground pid changed and `handles` were reclassified. An
   entry is stale exactly when its process was not among them and moved into or
   out of the foreground's subtree.
   */
  lemma ForegroundGap(cfg: Config, state: State, pid: Option<Pid>, cache: ProcessCache, handles: seq<Handle>,
                      table: Table, grants: Grants, q: Pid)
    requires WellKeyed(cache) && AllGranted(grants)
    requires forall h | h in handles :: MatchesCache(h, cache)
    requires Settled(cfg, state, cache, table)
    requires Present(cache, q) && cache[q].value.procDir in table && table[cache[q].value.procDir].threads != []
    ensures var state' := state.(foregroundPid := pid);
            var table' := UpdateEach(cfg, state', cache, handles, table, grants);
            var p := cache[q].value;
            !SettledAt(cfg, state', cache, table', q) <==>
            && !(exists h | h in handles :: h.pid == q)
            && InScope(cfg, state, p, cache)
            && Under(p, Ancestors(p, cache), state.foregroundPid) != Under(p, Ancestors(p, cache), pid)
  {
    var state' := state.(foregroundPid := pid);
    var table' := UpdateEach(cfg, state', cache, handles, table, grants);
    var p := cache[q].value;
    assert SettledAt(cfg, state, cache, table, q);
    UpdateEachSettles(cfg, state', cache, handles, table, grants, q);
    ForegroundChangesClassIff(cfg, state, pid, p, cache);
    if !(exists h | h in handles :: h.pid == q) {
      assert table'[p.procDir] == table[p.procDir];
      var a, b := ClassIn(cfg, state, p, cache), ClassIn(cfg, state', p, cache);
      if a != b {
        assert forall x :: IsCritical(cfg, x, Some(state')) == IsCritical(cfg, x, Some(state));
        ClassesDiffer(cfg, a, b, p, table[p.procDir]);
      }
    }
  }

  ghost predicate Reclassified(handles: seq<Handle>, pid: Option<Pid>) {
    pid.Some? ==> exists h | h in handles :: h.pid == pid.value
  }

  ghost predicate HasAncestor(p: Handle, cache: ProcessCache, pid: Option<Pid>) {
    exists a | a in Ancestors(p, cache) :: pid == Some(a.pid)
  }

  /** After a message that went through, both pids named in it are up to date: only strict descendants can be stale. */
  lemma ForegroundGapIsBelow(cfg: Config, state: State, pid: Option<Pid>, cache: ProcessCache, handles: seq<Handle>,
                             table: Table, grants: Grants, q: Pid)
    requires WellKeyed(cache) && AllGranted(grants)
    requires forall h | h in handles :: MatchesCache(h, cache)
    requires Reclassified(handles, pid) && Reclassified(handles, state.foregroundPid)
    requires Settled(cfg, state, cache, table)
    requires Present(cache, q)
    ensures var state' := state.(foregroundPid := pid);
            var p := cache[q].value;
            SettledAt(cfg, state', cache, UpdateEach(cfg, state', cache, handles, table, grants), q)
            || (&& pid != Some(q) && state.foregroundPid != Some(q)
                && (HasAncestor(p, cache, pid) || HasAncestor(p, cache, state.foregroundPid)))
  {
    var p := cache[q].value;
    if p.procDir in table && table[p.procDir].threads != [] {
      ForegroundGap(cfg, state, pid, cache, handles, table, grants, q);
    } else {
      UpdateEachSettles(cfg, state.(foregroundPid := pid), cache, handles, table, grants, q);
    }
    assert p.pid == q;
    assert Under(p, Ancestors(p, cache), pid) <==> pid == Some(q) || HasAncestor(p, cache, pid);
    assert Under(p, Ancestors(p, cache), state.foregroundPid) <==>
           state.foregroundPid == Some(q) || HasAncestor(p, cache, state.foregroundPid);
  }

  // ---- the client message

  /** What a new client pid does to the verdict on one process: only for the old and the new client, and only if the list and the switch disagree. */
  lemma ClientChangesVerdictIff(cfg: Config, state: State, client: Pid, p: Handle)
    ensures IsCritical(cfg, p, Some(state.(clientPid := Some(client)))) != IsCritical(cfg, p, Some(state)) <==>
            && (p.pid == client) != (state.clientPid == Some(p.pid))
            && p.pid != cfg.lemondPid
            && IsCritical(cfg, p, None) != cfg.selfRealtime
  {
  }

  ghost predicate VerdictChanges(cfg: Config, state: State, client: Pid, p: Handle) {
    IsCritical(cfg, p, Some(state.(clientPid := Some(client)))) != IsCritical(cfg, p, Some(state))
  }

  /**
   The gap that a client message leaves, which updates nothing. If the table
   agreed with a full pass, an entry can be stale only if the verdict on its
   process or on one of its ancestors has changed; and where the old and the new
   class both ask for something, it is stale exactly if they ask for different
   things.
   */
  lemma ClientGap(cfg: Config, state: State, client: Pid, cache: ProcessCache, table: Table, q: Pid)
    requires Settled(cfg, state, cache, table) && Present(cache, q)
    ensures var state' := state.(clientPid := Some(client));
            var p := cache[q].value;
            var a, b := ClassIn(cfg, state, p, cache), ClassIn(cfg, state', p, cache);
            && (!SettledAt(cfg, state', cache, table, q) ==>
                  && a != b && b != Untouched
                  && (VerdictChanges(cfg, state, client, p) || exists x | x in Ancestors(p, cache) :: VerdictChanges(cfg, state, client, x)))
            && (p.procDir in table && table[p.procDir].threads != [] && a != Untouched && b != Untouched ==>
                  (!SettledAt(cfg, state', cache, table, q) <==> a != b && !SameInEffect(cfg, a, b, p, table[p.procDir])))
  {
    var state' := state.(clientPid := Some(client));
    var p := cache[q].value;
    var a, b := ClassIn(cfg, state, p, cache), ClassIn(cfg, state', p, cache);
    assert SettledAt(cfg, state, cache, table, q);
    if p.procDir in table && table[p.procDir].threads != [] && a != Untouched && b != Untouched {
      ClassesDiffer(cfg, a, b, p, table[p.procDir]);
    }
    if a != b && !VerdictChanges(cfg, state, client, p) {
      assert HasCritical(cfg, Some(state), Ancestors(p, cache)) != HasCritical(cfg, Some(state'), Ancestors(p, cache));
    }
  }

  // ---- cache edits

  /** A class stays as it is if neither the entry nor what its walk looks up has changed. */
  lemma UnmovedKeepsClass(cfg: Config, state: State, cache: ProcessCache, cache': ProcessCache, q: Pid)
    requires Present(cache, q) && WalkEnds(cache[q].value, cache) && !EntryMoves(cache, cache', q)
    ensures Present(cache', q) && cache'[q] == cache[q]
    ensures Ancestors(cache[q].value, cache') == Ancestors(cache[q].value, cache)
    ensures ClassIn(cfg, state, cache[q].value, cache') == ClassIn(cfg, state, cache[q].value, cache)
  {
    assert !EntryDiffers(cache, cache', q);
    WalkFrame(cache[q].value, cache, cache');
  }

  /** An edit of entry `k` changes no class but those of `k` itself and of processes whose walk looks `k` up. */
  lemma EditKeepsClass(cfg: Config, state: State, p: Handle, cache: ProcessCache, cache': ProcessCache, k: Pid)
    requires WalkEnds(p, cache) && AgreeExcept(cache, cache', k) && !LooksUp(p, cache, k)
    ensures WalkEnds(p, cache') && ClassIn(cfg, state, p, cache') == ClassIn(cfg, state, p, cache)
  {
    EditFrame(p, cache, cache', k);
  }

  /**
   An exec event replaces one entry and updates that process alone; an exit
   event removes one and updates none. Afterwards an entry can be stale only if
   its walk had looked the edited pid up.
   */
  lemma EventGap(cfg: Config, state: State, cache: ProcessCache, cache': ProcessCache, k: Pid,
                 handles: seq<Handle>, table: Table, grants: Grants, q: Pid)
    requires WellKeyed(cache') && AllGranted(grants) && AllWalksEnd(cache)
    requires AgreeExcept(cache, cache', k)
    requires handles == if Present(cache', k) then [cache'[k].value] else []
    requires Settled(cfg, state, cache, table)
    requires Present(cache', q) && (q == k || !LooksUp(cache'[q].value, cache, k))
    ensures SettledAt(cfg, state, cache', UpdateEach(cfg, state, cache', handles, table, grants), q)
  {
    UpdateEachSettles(cfg, state, cache', handles, table, grants, q);
    if q == k {
      assert cache'[k].value in handles;
    } else {
      assert !EntryDiffers(cache, cache', q);
      EditKeepsClass(cfg, state, cache[q].value, cache, cache', k);
      assert SettledAt(cfg, state, cache, table, q);
    }
  }
}
