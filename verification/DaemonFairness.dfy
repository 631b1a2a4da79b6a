/** Endless runs: however the threads and the outside are interleaved, an owner that keeps getting its turn lets go. */
module DaemonFairness {
  import opened Wrappers
  import opened Kernel
  import opened Daemon
  import opened DaemonSafety
  import opened DaemonAncestry
  import opened DaemonProgress

  /** What happens at each moment. */
  type Schedule = nat -> Action

  ghost function UpTo(schedule: Schedule, n: nat): seq<Action> {
    seq(n, i requires 0 <= i < n => schedule(i))
  }

  ghost function WorldAt(s: Setup, kernel: Machine, schedule: Schedule, n: nat): World {
    Run(s, kernel, UpTo(schedule, n))
  }

  lemma NextWorld(s: Setup, kernel: Machine, schedule: Schedule, n: nat)
    ensures WorldAt(s, kernel, schedule, n + 1) == Apply(s, WorldAt(s, kernel, schedule, n), schedule(n))
  {
    assert UpTo(schedule, n + 1) == UpTo(schedule, n) + [schedule(n)];
    RunOneMore(s, kernel, UpTo(schedule, n), schedule(n));
  }

  /** No process is ever born with a pid that is named as a parent at that moment. */
  ghost predicate NeverReuses(s: Setup, kernel: Machine, schedule: Schedule) {
    forall n: nat :: NoReuse(WorldAt(s, kernel, schedule, n), schedule(n))
  }

  lemma {:induction false} NeverReusesSoFar(s: Setup, kernel: Machine, schedule: Schedule, n: nat)
    requires NeverReuses(s, kernel, schedule)
    ensures NoReuseRun(s, kernel, UpTo(schedule, n))
  {
    if n > 0 {
      NeverReusesSoFar(s, kernel, schedule, n - 1);
      assert UpTo(schedule, n)[..n - 1] == UpTo(schedule, n - 1);
      assert NoReuse(WorldAt(s, kernel, schedule, n - 1), schedule(n - 1));
    }
  }

  // ---- fairness

  ghost predicate Again(turn: nat -> bool, from: nat) {
    exists n: nat :: from <= n && turn(n)
  }

  ghost predicate Recurs(turn: nat -> bool) {
    forall n: nat :: Again(turn, n)
  }

  ghost predicate Progresses(major: nat -> nat, minor: nat -> nat, done: nat -> bool, turn: nat -> bool, k: nat) {
    || done(k)
    || (turn(k) && (done(k + 1) || major(k + 1) < major(k) || (major(k + 1) == major(k) && minor(k + 1) < minor(k))))
    || (!turn(k) && major(k + 1) == major(k) && minor(k + 1) == minor(k))
  }

  /** What gets smaller with each turn, and between turns does not change, comes to an end. */
  lemma {:induction false} TurnsEnd(major: nat -> nat, minor: nat -> nat, done: nat -> bool, turn: nat -> bool, from: nat, next: nat)
    returns (n: nat)
    requires Recurs(turn) && from <= next && turn(next)
    requires forall k: nat :: Progresses(major, minor, done, turn, k)
    ensures from <= n && done(n)
    ensures forall k | from <= k < n :: !done(k)
    decreases major(from), minor(from), next - from
  {
    assert Progresses(major, minor, done, turn, from);
    if done(from) {
      n := from;
    } else if turn(from) && done(from + 1) {
      n := from + 1;
    } else if turn(from) {
      assert Again(turn, from + 1);
      var later: nat :| from + 1 <= later && turn(later);
      n := TurnsEnd(major, minor, done, turn, from + 1, later);
    } else {
      n := TurnsEnd(major, minor, done, turn, from + 1, next);
    }
  }

  datatype Mutex = StateMutex | CacheMutex

  predicate Owns(pc: Pc, mutex: Mutex) {
    if mutex.StateMutex? then HoldsState(pc) else HoldsCache(pc)
  }

  function OwnerOf(w: Shared, mutex: Mutex): Option<ThreadId> {
    if mutex.StateMutex? then w.stateOwner else w.cacheOwner
  }

  /** It is the thread's turn, and when it is the state lock that counts, the cache lock does not keep it waiting. */
  ghost predicate GetsTurn(s: Setup, kernel: Machine, schedule: Schedule, t: ThreadId, mutex: Mutex, n: nat) {
    var w := WorldAt(s, kernel, schedule, n);
    && schedule(n).Turn? && schedule(n).thread == t
    && (mutex.StateMutex? && WantsCache(At(w, t)) ==> w.shared.cacheOwner.None?)
  }

  ghost function Turns(s: Setup, kernel: Machine, schedule: Schedule, t: ThreadId, mutex: Mutex): nat -> bool {
    (n: nat) => GetsTurn(s, kernel, schedule, t, mutex, n)
  }

  /** The thread gets a turn again and again. */
  ghost predicate Fair(s: Setup, kernel: Machine, schedule: Schedule, t: ThreadId, mutex: Mutex) {
    Recurs(Turns(s, kernel, schedule, t, mutex))
  }

  // ---- owners let go

  ghost predicate OwnsAt(s: Setup, kernel: Machine, schedule: Schedule, t: ThreadId, mutex: Mutex, n: nat) {
    Owns(At(WorldAt(s, kernel, schedule, n), t), mutex)
  }

  ghost predicate EndedAt(s: Setup, kernel: Machine, schedule: Schedule, n: nat) {
    WorldAt(s, kernel, schedule, n).shared.exited
  }

  ghost function ListingsAt(s: Setup, kernel: Machine, schedule: Schedule, t: ThreadId, n: nat): nat {
    Listings(At(WorldAt(s, kernel, schedule, n), t))
  }

  ghost function WorkAt(s: Setup, kernel: Machine, schedule: Schedule, t: ThreadId, n: nat): nat {
    Work(At(WorldAt(s, kernel, schedule, n), t))
  }

  lemma TurnWorks(s: Setup, kernel: Machine, schedule: Schedule, t: ThreadId, mutex: Mutex, n: nat)
    requires kernel.Valid() && NeverReuses(s, kernel, schedule)
    requires !EndedAt(s, kernel, schedule, n) && OwnsAt(s, kernel, schedule, t, mutex, n) && GetsTurn(s, kernel, schedule, t, mutex, n)
    ensures || EndedAt(s, kernel, schedule, n + 1)
            || ListingsAt(s, kernel, schedule, t, n + 1) < ListingsAt(s, kernel, schedule, t, n)
            || (ListingsAt(s, kernel, schedule, t, n + 1) == ListingsAt(s, kernel, schedule, t, n)
                && WorkAt(s, kernel, schedule, t, n + 1) < WorkAt(s, kernel, schedule, t, n))
  {
    var w := WorldAt(s, kernel, schedule, n);
    NeverReusesSoFar(s, kernel, schedule, n);
    NoReuseNoStall(s, kernel, UpTo(schedule, n), At(w, t), schedule(n));
    NextWorld(s, kernel, schedule, n);
    HoldersWork(s, w.shared, t, At(w, t), schedule(n).input);
  }

  lemma OtherwiseWaits(s: Setup, kernel: Machine, schedule: Schedule, t: ThreadId, mutex: Mutex, n: nat)
    requires !EndedAt(s, kernel, schedule, n) && OwnsAt(s, kernel, schedule, t, mutex, n) && !GetsTurn(s, kernel, schedule, t, mutex, n)
    ensures ListingsAt(s, kernel, schedule, t, n + 1) == ListingsAt(s, kernel, schedule, t, n)
    ensures WorkAt(s, kernel, schedule, t, n + 1) == WorkAt(s, kernel, schedule, t, n)
  {
    NextWorld(s, kernel, schedule, n);
  }

  /** The daemon has ended or the thread does not own the mutex. */
  ghost predicate ReleasedAt(s: Setup, kernel: Machine, schedule: Schedule, t: ThreadId, mutex: Mutex, n: nat) {
    EndedAt(s, kernel, schedule, n) || !OwnsAt(s, kernel, schedule, t, mutex, n)
  }

  ghost function Releases(s: Setup, kernel: Machine, schedule: Schedule, t: ThreadId, mutex: Mutex): nat -> bool {
    (n: nat) => ReleasedAt(s, kernel, schedule, t, mutex, n)
  }

  ghost function ListingsOverTime(s: Setup, kernel: Machine, schedule: Schedule, t: ThreadId): nat -> nat {
    (n: nat) => ListingsAt(s, kernel, schedule, t, n)
  }

  ghost function WorkOverTime(s: Setup, kernel: Machine, schedule: Schedule, t: ThreadId): nat -> nat {
    (n: nat) => WorkAt(s, kernel, schedule, t, n)
  }

  lemma EachMomentProgresses(s: Setup, kernel: Machine, schedule: Schedule, t: ThreadId, mutex: Mutex, k: nat)
    requires kernel.Valid() && NeverReuses(s, kernel, schedule)
    ensures Progresses(ListingsOverTime(s, kernel, schedule, t), WorkOverTime(s, kernel, schedule, t),
                       Releases(s, kernel, schedule, t, mutex), Turns(s, kernel, schedule, t, mutex), k)
  {
    if !ReleasedAt(s, kernel, schedule, t, mutex, k) {
      if GetsTurn(s, kernel, schedule, t, mutex, k) {
        TurnWorks(s, kernel, schedule, t, mutex, k);
      } else {
        OtherwiseWaits(s, kernel, schedule, t, mutex, k);
      }
    }
  }

  /**
   In any endless run without reuse of a named pid, with births, exits and the
   steps of all threads in any order, an owner of a mutex that keeps getting its
   turn lets go of it, unless the daemon ends; until then it owns it throughout.
   */
  lemma OwnerLetsGo(s: Setup, kernel: Machine, schedule: Schedule, t: ThreadId, mutex: Mutex, from: nat) returns (n: nat)
    requires kernel.Valid() && NeverReuses(s, kernel, schedule) && Fair(s, kernel, schedule, t, mutex)
    ensures from <= n && ReleasedAt(s, kernel, schedule, t, mutex, n)
    ensures forall k | from <= k < n :: !ReleasedAt(s, kernel, schedule, t, mutex, k)
  {
    var turn, done := Turns(s, kernel, schedule, t, mutex), Releases(s, kernel, schedule, t, mutex);
    var major, minor := ListingsOverTime(s, kernel, schedule, t), WorkOverTime(s, kernel, schedule, t);
    forall k: nat ensures Progresses(major, minor, done, turn, k) {
      EachMomentProgresses(s, kernel, schedule, t, mutex, k);
    }
    assert Again(turn, from);
    var next: nat :| from <= next && turn(next);
    n := TurnsEnd(major, minor, done, turn, from, next);
    forall k | from <= k < n ensures !ReleasedAt(s, kernel, schedule, t, mutex, k) {
      assert !done(k);
    }
  }

  ghost predicate FreeAt(s: Setup, kernel: Machine, schedule: Schedule, mutex: Mutex, n: nat) {
    OwnerOf(WorldAt(s, kernel, schedule, n).shared, mutex).None?
  }

  /** The step with which an owner lets go leaves the mutex free. */
  lemma LettingGoFrees(s: Setup, kernel: Machine, schedule: Schedule, u: ThreadId, mutex: Mutex, n: nat)
    requires kernel.Valid()
    requires OwnsAt(s, kernel, schedule, u, mutex, n) && !OwnsAt(s, kernel, schedule, u, mutex, n + 1)
    ensures FreeAt(s, kernel, schedule, mutex, n + 1)
  {
    var w, a := WorldAt(s, kernel, schedule, n), schedule(n);
    InvariantHolds(s, kernel, UpTo(schedule, n));
    NextWorld(s, kernel, schedule, n);
    if a.Turn? && !w.shared.exited {
      EffectMoves(s, w.shared, a.thread, At(w, a.thread), a.input);
    }
  }

  lemma SomebodyOwns(s: Setup, kernel: Machine, schedule: Schedule, mutex: Mutex, n: nat) returns (u: ThreadId)
    requires kernel.Valid() && !FreeAt(s, kernel, schedule, mutex, n)
    ensures OwnsAt(s, kernel, schedule, u, mutex, n)
  {
    InvariantHolds(s, kernel, UpTo(schedule, n));
    u := OwnerOf(WorldAt(s, kernel, schedule, n).shared, mutex).value;
  }

  lemma ReleasedThenFree(s: Setup, kernel: Machine, schedule: Schedule, u: ThreadId, mutex: Mutex, from: nat, n: nat)
    requires kernel.Valid() && from < n
    requires forall k | from <= k < n :: !ReleasedAt(s, kernel, schedule, u, mutex, k)
    requires ReleasedAt(s, kernel, schedule, u, mutex, n)
    ensures EndedAt(s, kernel, schedule, n) || FreeAt(s, kernel, schedule, mutex, n)
  {
    assert !ReleasedAt(s, kernel, schedule, u, mutex, n - 1);
    if !EndedAt(s, kernel, schedule, n) {
      LettingGoFrees(s, kernel, schedule, u, mutex, n - 1);
    }
  }

  /**
   If every thread that ever owns the mutex keeps getting its turn, the mutex is
   free again and again. Nothing is asked of the others: the signal need never
   come, and the OOM thread may wait for ever.
   */
  lemma MutexIsFreedAgain(s: Setup, kernel: Machine, schedule: Schedule, mutex: Mutex, from: nat) returns (n: nat)
    requires kernel.Valid() && NeverReuses(s, kernel, schedule)
    requires forall t: ThreadId, k: nat | OwnsAt(s, kernel, schedule, t, mutex, k) :: Fair(s, kernel, schedule, t, mutex)
    ensures from <= n
    ensures EndedAt(s, kernel, schedule, n) || FreeAt(s, kernel, schedule, mutex, n)
  {
    if EndedAt(s, kernel, schedule, from) || FreeAt(s, kernel, schedule, mutex, from) {
      n := from;
    } else {
      var u := SomebodyOwns(s, kernel, schedule, mutex, from);
      n := OwnerLetsGo(s, kernel, schedule, u, mutex, from);
      ReleasedThenFree(s, kernel, schedule, u, mutex, from, n);
    }
  }
}
