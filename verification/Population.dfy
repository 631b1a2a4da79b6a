/** `populate_process_cache`: bringing the cache in line with a listing of `/proc`. */
module Population {
  import opened Wrappers
  import opened Kernel
  import opened ProcessHandles
  import opened Ancestry

  function AsSet(listed: seq<Pid>): set<Pid> {
    set pid | pid in listed
  }

  /** What `from_pid(pid).ok()` would give for a pid that has no entry yet. */
  type Lookups = Pid -> Option<Handle>

  /** `entry(pid).or_insert_with(..)`. */
  function OrInsert(cache: ProcessCache, pid: Pid, built: Option<Handle>): ProcessCache {
    if pid in cache then cache else cache[pid := built]
  }

  /** `retain`: present entries of listed pids only. */
  function Retain(cache: ProcessCache, listed: set<Pid>): ProcessCache {
    map pid | pid in cache && pid in listed && cache[pid].Some? :: cache[pid]
  }

  /** The entry one call leaves for a listed pid; an entry that exists, even an empty one, is not built again. */
  function RetainedOrFresh(cache: ProcessCache, lookups: Lookups, pid: Pid): Option<Handle> {
    if pid in cache then cache[pid] else lookups(pid)
  }

  ghost function Populated(cache: ProcessCache, listed: set<Pid>, lookups: Lookups): ProcessCache {
    map pid | pid in listed && RetainedOrFresh(cache, lookups, pid).Some? :: RetainedOrFresh(cache, lookups, pid)
  }

  class Population {
    var cache: ProcessCache

    constructor ()
      ensures cache == map[]
    {
      cache := map[];
    }

    method Populate(listed: set<Pid>, lookups: Lookups)
      modifies this
      ensures cache == Populated(old(cache), listed, lookups)
    {
      var todo := listed;
      while todo != {}
        invariant todo <= listed
        invariant cache.Keys == old(cache).Keys + (listed - todo)
        invariant forall pid | pid in cache :: cache[pid] == RetainedOrFresh(old(cache), lookups, pid)
        decreases |todo|
      {
        var pid :| pid in todo;
        cache := OrInsert(cache, pid, lookups(pid));
        todo := todo - {pid};
      }
      cache := Retain(cache, listed);
    }
  }

  /** Old handles of listed pids are kept as they are, everything in the result is listed and present, and nothing listed and buildable is missing unless an empty entry hid it. */
  lemma PopulatedExactly(cache: ProcessCache, listed: set<Pid>, lookups: Lookups, pid: Pid)
    ensures var cache' := Populated(cache, listed, lookups);
            && (pid in cache' ==> pid in listed && cache'[pid].Some?)
            && (Present(cache, pid) && pid in listed ==> pid in cache' && cache'[pid] == cache[pid])
            && (pid in listed && lookups(pid).Some? && pid !in cache' ==> pid in cache && cache[pid].None?)
  {
  }

  /** One call reaches the fixed point exactly when no empty entry hides a process that can be looked up. */
  lemma OneCallSufficesIff(cache: ProcessCache, listed: set<Pid>, lookups: Lookups)
    ensures var once := Populated(cache, listed, lookups);
            Populated(once, listed, lookups) == once
            <==> forall pid | pid in listed && pid in cache && cache[pid].None? :: lookups(pid).None?
  {
    var once := Populated(cache, listed, lookups);
    var twice := Populated(once, listed, lookups);
    if twice == once {
      forall pid | pid in listed && pid in cache && cache[pid].None? ensures lookups(pid).None? {
        assert pid !in once;
        assert pid !in twice;
      }
    }
    if forall pid | pid in listed && pid in cache && cache[pid].None? :: lookups(pid).None? {
      forall pid | pid in listed
        ensures RetainedOrFresh(once, lookups, pid) == RetainedOrFresh(cache, lookups, pid)
      {
        if pid !in once && pid in cache {
          assert cache[pid].None?;
        }
      }
    }
  }

  /** From any cache two calls reach it: the first drops the empty entries. */
  lemma TwoCallsSuffice(cache: ProcessCache, listed: set<Pid>, lookups: Lookups)
    ensures var twice := Populated(Populated(cache, listed, lookups), listed, lookups);
            Populated(twice, listed, lookups) == twice
  {
  }
}
