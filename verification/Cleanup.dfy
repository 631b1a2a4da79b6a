/** `cleanup`: which processes it picks from a snapshot of its own, and what it makes of them. */
module Cleanup {
  import opened Wrappers
  import opened Kernel
  import opened ProcessHandles
  import opened Ancestry
  import opened Config
  import opened Scheduling

  predicate Selected(cfg: Config, p: Handle, ancestors: seq<Handle>) {
    p.executable.Some? && (IsCritical(cfg, p, None) || HasCritical(cfg, None, ancestors))
  }

  /**
   On one snapshot, cleanup covers whatever an update may touch under any state
   exactly when the daemon does not treat itself and its client as critical.
   */
  lemma CleanupCoversIff(cfg: Config)
    ensures (forall state, p, ancestors :: !ClassOf(cfg, state, p, ancestors).Untouched? ==> Selected(cfg, p, ancestors))
            <==> !cfg.selfRealtime
  {
    if !cfg.selfRealtime {
      forall state, p, ancestors | !ClassOf(cfg, state, p, ancestors).Untouched?
        ensures Selected(cfg, p, ancestors)
      {
        assert forall a :: IsCritical(cfg, a, Some(state)) ==> IsCritical(cfg, a, None);
      }
    } else {
      // a client that is neither the daemon nor on the list
      var exe := FreshName(cfg.critical);
      var client := Handle(cfg.lemondPid + 1, 0, Some(exe), 0, 0);
      var state := State(None, Some(client.pid));
      assert ClassOf(cfg, state, client, []).Realtime? && !Selected(cfg, client, []);
    }
  }

  /** As shipped, cleanup covers every update, and every excluded executable gets its nice value as a critical process. */
  lemma ShippedCleanupCovers(lemondPid: Pid, state: State, p: Handle, ancestors: seq<Handle>)
    ensures var cfg := Shipped(lemondPid);
            && (!ClassOf(cfg, state, p, ancestors).Untouched? ==> Selected(cfg, p, ancestors))
            && (Excluded(cfg, p) && p.pid != lemondPid && state.clientPid != Some(p.pid) ==>
                  ClassOf(cfg, state, p, ancestors).Realtime?)
  {
    CleanupCoversIff(Shipped(lemondPid));
    ShippedExclusionsAreCritical(lemondPid);
  }

  ghost predicate Picked(cfg: Config, p: Handle, cache: ProcessCache) {
    Selected(cfg, p, Ancestors(p, cache))
  }

  /** Some critical ancestor can still be reached through links that the later snapshot has, too. */
  ghost predicate CriticalStillReached(cfg: Config, p: Handle, earlier: ProcessCache, snapshot: ProcessCache) {
    exists i | 0 <= i < |Ancestors(p, earlier)| ::
      && IsCritical(cfg, Ancestors(p, earlier)[i], None)
      && forall j | 0 <= j <= i :: Present(snapshot, Link(p, Ancestors(p, earlier), j))
  }

  /**
   The limit of cleanup. Of a snapshot in which some of the processes that an
   update saw are gone, it selects a process that is not critical itself exactly
   if a critical ancestor is left and nobody between the two is missing.
   */
  lemma CleanupSelectsIff(cfg: Config, p: Handle, earlier: ProcessCache, snapshot: ProcessCache)
    requires WalkEnds(p, earlier) && SubCache(snapshot, earlier)
    requires p.executable.Some? && !IsCritical(cfg, p, None)
    ensures Picked(cfg, p, snapshot) <==> CriticalStillReached(cfg, p, earlier, snapshot)
  {
    RemovalCutsWalks(p, earlier, snapshot);
    var c, c' := Ancestors(p, earlier), Ancestors(p, snapshot);
    if Picked(cfg, p, snapshot) {
      var i :| 0 <= i < |c'| && IsCritical(cfg, c'[i], None);
      assert c[i] == c'[i];
    }
    if CriticalStillReached(cfg, p, earlier, snapshot) {
      var i :| 0 <= i < |c| && IsCritical(cfg, c[i], None) && forall j | 0 <= j <= i :: Present(snapshot, Link(p, c, j));
      assert i < |c'| && c'[i] == c[i];
    }
  }

  /** What cleanup makes of a selected process when nothing is refused. */
  ghost predicate CleanedUp(cfg: Config, p: Handle, before: ProcessSched, after: ProcessSched) {
    && |after.threads| == |before.threads|
    && after.autogroup == 0
    && (forall i | 0 <= i < |after.threads| ::
          var t, t' := before.threads[i], after.threads[i];
          if Excluded(cfg, p) then t' == t.(nice := REALTIME_NICE)
          else t' == ThreadSched(t.tid, Other, 0, 0, false))
  }

  /** No call that cleaning up the process makes is refused, and the process is still there. */
  ghost predicate CleanupGranted(cfg: Config, p: Handle, table: Table, autogroups: set<Instance>, grants: Grants) {
    && p.procDir in table && p.procDir in autogroups
    && SetAllFrom(table[p.procDir], Calls(cfg, Normal, p), grants, 0).1
  }

  /** A process that cleanup went past: cleaned up if it was to be, untouched if not. */
  ghost predicate HandledBy(cfg: Config, p: Handle, cache: ProcessCache, before: Table, after: Table) {
    p.procDir in before && p.procDir in after ==>
      if Picked(cfg, p, cache) then CleanedUp(cfg, p, before[p.procDir], after[p.procDir])
      else after[p.procDir] == before[p.procDir]
  }

  /** The cache that cleanup collects for itself. */
  function Snapshot(listed: seq<Handle>): ProcessCache {
    if listed == [] then map[]
    else
      var last := listed[|listed| - 1];
      Snapshot(listed[..|listed| - 1])[last.pid := Some(last)]
  }

  predicate DistinctPids(listed: seq<Handle>) {
    forall i, j | 0 <= i < j < |listed| :: listed[i].pid != listed[j].pid
  }

  /** Of a listing that names no pid twice the snapshot holds every handle under its own pid, and nothing else. */
  lemma {:induction false} SnapshotHolds(listed: seq<Handle>)
    requires DistinctPids(listed)
    ensures forall p | p in listed :: Present(Snapshot(listed), p.pid) && Snapshot(listed)[p.pid].value == p
    ensures forall pid | pid in Snapshot(listed) :: Present(Snapshot(listed), pid) && Snapshot(listed)[pid].value in listed
                                                    && Snapshot(listed)[pid].value.pid == pid
  {
    if listed == [] {
    } else {
      var n := |listed| - 1;
      SnapshotHolds(listed[..n]);
      assert listed == listed[..n] + [listed[n]];
    }
  }

  /** A sequence of listed handles that leads up from `p`, each the parent of the one before. */
  ghost predicate ParentChain(p: Handle, listed: seq<Handle>, chain: seq<Handle>) {
    && chain != [] && chain[0].pid == p.parentPid
    && (forall i | 0 <= i < |chain| :: chain[i] in listed)
    && (forall i | 0 <= i < |chain| - 1 :: chain[i + 1].pid == chain[i].parentPid)
  }

  ghost predicate CriticalEnd(cfg: Config, p: Handle, listed: seq<Handle>, chain: seq<Handle>) {
    ParentChain(p, listed, chain) && IsCritical(cfg, chain[|chain| - 1], None)
  }

  /** What cleanup is for: processes with an executable that are critical or below a listed critical one. */
  ghost predicate ToBeCleaned(cfg: Config, p: Handle, listed: seq<Handle>) {
    p.executable.Some? && (IsCritical(cfg, p, None) || exists chain :: CriticalEnd(cfg, p, listed, chain))
  }

  lemma ChainIsCollected(p: Handle, listed: seq<Handle>, chain: seq<Handle>)
    requires DistinctPids(listed)
    requires chain != [] ==> ParentChain(p, listed, chain)
    ensures Collected(p, Snapshot(listed), chain)
  {
    SnapshotHolds(listed);
    forall i | 0 <= i < |chain|
      ensures Present(Snapshot(listed), Link(p, chain, i)) && Snapshot(listed)[Link(p, chain, i)].value == chain[i]
    {
      assert chain[i] in listed;
      if i > 0 { assert chain[i - 1 + 1].pid == chain[i - 1].parentPid; }
    }
  }

  lemma CollectedIsChain(p: Handle, listed: seq<Handle>, chain: seq<Handle>)
    requires DistinctPids(listed) && Collected(p, Snapshot(listed), chain) && chain != []
    ensures ParentChain(p, listed, chain)
  {
    SnapshotHolds(listed);
    assert Link(p, chain, 0) == p.parentPid;
    forall i | 0 <= i < |chain| - 1 ensures chain[i + 1].pid == chain[i].parentPid {
      assert Link(p, chain, i + 1) == chain[i].parentPid;
    }
  }

  /** Cleanup picks exactly the processes it is for. */
  lemma PickedIff(cfg: Config, p: Handle, listed: seq<Handle>)
    requires DistinctPids(listed) && CleanupDecidable(cfg, p, Snapshot(listed))
    ensures Picked(cfg, p, Snapshot(listed)) <==> ToBeCleaned(cfg, p, listed)
  {
    var snapshot := Snapshot(listed);
    if p.executable.Some? && !IsCritical(cfg, p, None) {
      var c := Ancestors(p, snapshot);
      WalkEndsIff(p, snapshot);
      if i :| 0 <= i < |c| && IsCritical(cfg, c[i], None) {
        var chain := c[..i + 1];
        assert Collected(p, snapshot, chain) by {
          assert forall j | 0 <= j < |chain| :: Link(p, chain, j) == Link(p, c, j);
        }
        CollectedIsChain(p, listed, chain);
        assert CriticalEnd(cfg, p, listed, chain);
      }
      if chain :| CriticalEnd(cfg, p, listed, chain) {
        ChainIsCollected(p, listed, chain);
        CollectedIsPrefix(p, snapshot, chain, c);
        assert chain[|chain| - 1] == c[|chain| - 1];
      }
    }
  }

  /** The result of a whole cleanup, said of the listing alone. */
  ghost predicate CleansExactly(cfg: Config, listed: seq<Handle>, before: Table, after: Table) {
    forall p | p in listed && p.procDir in before && p.procDir in after ::
      if ToBeCleaned(cfg, p, listed) then CleanedUp(cfg, p, before[p.procDir], after[p.procDir])
      else after[p.procDir] == before[p.procDir]
  }

  lemma HandledMeansCleaned(cfg: Config, listed: seq<Handle>, before: Table, after: Table)
    requires DistinctPids(listed) && forall p | p in listed :: CleanupDecidable(cfg, p, Snapshot(listed))
    requires forall i | 0 <= i < |listed| :: HandledBy(cfg, listed[i], Snapshot(listed), before, after)
    ensures CleansExactly(cfg, listed, before, after)
  {
    forall p | p in listed ensures Picked(cfg, p, Snapshot(listed)) <==> ToBeCleaned(cfg, p, listed) {
      PickedIff(cfg, p, listed);
    }
  }

  /** The walk that cleaning up one process makes comes to an end. */
  ghost predicate CleanupDecidable(cfg: Config, p: Handle, cache: ProcessCache) {
    p.executable.None? || IsCritical(cfg, p, None) || !ReachesCycle(p, cache)
  }

  /** One round of the loop, and whether the loop goes on after it: the autogroup of a process that is gone cannot be written. */
  ghost function CleanOne(cfg: Config, p: Handle, cache: ProcessCache, table: Table, autogroups: set<Instance>, grants: Grants): (Table, bool) {
    if !Picked(cfg, p, cache) then (table, true)
    else
      var table' := Reclassify(cfg, Normal, p, table, grants);
      if CleanupGranted(cfg, p, table, autogroups, grants) then
        (table'[p.procDir := table'[p.procDir].(autogroup := 0)], true)
      else (table', false)
  }

  lemma CleanOneOutcome(cfg: Config, p: Handle, cache: ProcessCache, table: Table, autogroups: set<Instance>, grants: Grants)
    ensures var (table', ok) := CleanOne(cfg, p, cache, table, autogroups, grants);
            && table'.Keys == table.Keys
            && (forall x | x in table && x != p.procDir :: table'[x] == table[x])
            && (ok <==> Picked(cfg, p, cache) ==> CleanupGranted(cfg, p, table, autogroups, grants))
            && (ok ==> HandledBy(cfg, p, cache, table, table'))
  {
    if p.procDir in table {
      SetAllMeetsDictate(cfg, Normal, p, table[p.procDir], grants);
    }
  }

  /** Cleanup ends at a process that has gone and leaves the next one as it was, although nothing about it would be refused. */
  ghost predicate StopsShort(cfg: Config, gone: Handle, next: Handle, table: Table, autogroups: set<Instance>, grants: Grants) {
    var snapshot := Snapshot([gone, next]);
    && !CleanOne(cfg, gone, snapshot, table, autogroups, grants).1
    && Picked(cfg, next, snapshot) && CleanupGranted(cfg, next, table, autogroups, grants)
    && !CleanedUp(cfg, next, table[next.procDir], table[next.procDir])
  }

  lemma GoneStopsShort(cfg: Config, gone: Handle, next: Handle, table: Table, grants: Grants)
    requires gone.executable.Some? && IsCritical(cfg, gone, None) && gone.procDir !in table
    requires next.executable.Some? && IsCritical(cfg, next, None) && next.procDir in table && AllGranted(grants)
    requires table[next.procDir].autogroup != 0
    ensures StopsShort(cfg, gone, next, table, {next.procDir}, grants)
  {
    SetAllMeetsDictate(cfg, Normal, next, table[next.procDir], grants);
  }

  lemma CleanupCanStopShort()
    ensures exists cfg, gone, next, table, autogroups, grants :: StopsShort(cfg, gone, next, table, autogroups, grants)
  {
    var cfg := Config(1, ["critical"], [], [], false);
    var gone, next := Handle(10, 0, Some("critical"), 0, 0), Handle(20, 0, Some("critical"), 1, 1);
    assert cfg.critical[0] == "critical";
    GoneStopsShort(cfg, gone, next, map[1 := ProcessSched([ThreadSched(20, Fifo, 99, REALTIME_NICE, true)], REALTIME_NICE)], _ => 4);
  }
}
