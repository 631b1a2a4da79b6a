/** `pre-suspend`: every thread allocates, all meet at a barrier, every thread frees. */
module PreSuspend {

  datatype Phase = Starting | Allocated | Waiting | Released | Freed

  /** `arrived` and `open` are the barrier's own state. */
  datatype Pool = Pool(phases: seq<Phase>, arrived: nat, open: bool)

  function Start(n: nat): Pool {
    Pool(seq(n, _ => Starting), 0, false)
  }

  /** Thread `i` is scheduled: it takes its next step, or stays where it is because the barrier holds it. */
  function Step(p: Pool, i: nat): Pool {
    if i >= |p.phases| then p
    else match p.phases[i]
      case Starting => p.(phases := p.phases[i := Allocated])
      case Allocated => Pool(p.phases[i := Waiting], p.arrived + 1, p.arrived + 1 == |p.phases|)
      case Waiting => if p.open then p.(phases := p.phases[i := Released]) else p
      case Released => p.(phases := p.phases[i := Freed])
      case Freed => p
  }

  function Run(p: Pool, schedule: seq<nat>): Pool {
    if schedule == [] then p else Step(Run(p, schedule[..|schedule| - 1]), schedule[|schedule| - 1])
  }

  predicate PastArrival(phase: Phase) {
    phase.Waiting? || phase.Released? || phase.Freed?
  }

  predicate HoldsBuffer(phase: Phase) {
    phase.Allocated? || phase.Waiting? || phase.Released?
  }

  function Arrivals(phases: seq<Phase>): (n: nat)
    ensures n <= |phases|
    ensures n == |phases| <==> forall i | 0 <= i < |phases| :: PastArrival(phases[i])
  {
    if phases == [] then 0 else (if PastArrival(phases[0]) then 1 else 0) + Arrivals(phases[1..])
  }

  function Buffers(phases: seq<Phase>): (n: nat)
    ensures n <= |phases|
    ensures n == |phases| <==> forall i | 0 <= i < |phases| :: HoldsBuffer(phases[i])
  {
    if phases == [] then 0 else (if HoldsBuffer(phases[0]) then 1 else 0) + Buffers(phases[1..])
  }

  lemma {:induction false} ArrivalsUpdate(phases: seq<Phase>, i: nat, to: Phase)
    requires i < |phases|
    ensures Arrivals(phases[i := to]) ==
            Arrivals(phases) - (if PastArrival(phases[i]) then 1 else 0) + (if PastArrival(to) then 1 else 0)
  {
    if i == 0 {
      assert phases[i := to][1..] == phases[1..];
    } else {
      ArrivalsUpdate(phases[1..], i - 1, to);
      assert phases[i := to][1..] == phases[1..][i - 1 := to];
    }
  }

  ghost predicate Invariant(p: Pool) {
    && p.arrived == Arrivals(p.phases)
    && (p.open <==> p.arrived == |p.phases| > 0)
    && (forall i | 0 <= i < |p.phases| :: p.phases[i].Released? || p.phases[i].Freed? ==> p.open)
  }

  lemma StepKeepsInvariant(p: Pool, i: nat)
    requires Invariant(p)
    ensures Invariant(Step(p, i)) && |Step(p, i).phases| == |p.phases|
  {
    if i < |p.phases| {
      var p' := Step(p, i);
      if p'.phases != p.phases {
        ArrivalsUpdate(p.phases, i, p'.phases[i]);
        assert p'.phases == p.phases[i := p'.phases[i]];
        if p.open { assert PastArrival(p.phases[i]); }
      }
    }
  }

  lemma {:induction false} NoneArrivedAtStart(phases: seq<Phase>)
    requires forall i | 0 <= i < |phases| :: phases[i].Starting?
    ensures Arrivals(phases) == 0
  {
    if phases != [] { NoneArrivedAtStart(phases[1..]); }
  }

  lemma {:induction false} InvariantHolds(n: nat, schedule: seq<nat>)
    ensures Invariant(Run(Start(n), schedule)) && |Run(Start(n), schedule).phases| == n
  {
    if schedule == [] {
      NoneArrivedAtStart(Start(n).phases);
    } else {
      InvariantHolds(n, schedule[..|schedule| - 1]);
      StepKeepsInvariant(Run(Start(n), schedule[..|schedule| - 1]), schedule[|schedule| - 1]);
    }
  }

  /** In every interleaving: once any buffer has been freed, or is about to be, every thread has allocated its own. */
  lemma NoFreeBeforeAllAllocated(n: nat, schedule: seq<nat>, i: nat)
    requires i < n
    ensures |Run(Start(n), schedule).phases| == n
    ensures Run(Start(n), schedule).phases[i].Released? || Run(Start(n), schedule).phases[i].Freed? ==>
              forall j | 0 <= j < n :: PastArrival(Run(Start(n), schedule).phases[j])
  {
    InvariantHolds(n, schedule);
  }

  /** At the step that opens the barrier all n buffers are held at once. */
  lemma BarrierOpensOnFullPool(n: nat, schedule: seq<nat>, i: nat)
    requires var p := Run(Start(n), schedule); !p.open && Step(p, i).open
    ensures Buffers(Step(Run(Start(n), schedule), i).phases) == n
  {
    InvariantHolds(n, schedule);
    var p := Run(Start(n), schedule);
    var p' := Step(p, i);
    StepKeepsInvariant(p, i);
    assert forall j | 0 <= j < n :: PastArrival(p'.phases[j]);
    assert forall j | 0 <= j < n && j != i :: p'.phases[j] == p.phases[j];
    assert p'.phases[i].Waiting?;
  }

  /** Until all is freed some thread can move: the barrier never holds everyone. */
  lemma SomeThreadMoves(n: nat, schedule: seq<nat>)
    requires exists i :: 0 <= i < |Run(Start(n), schedule).phases| && !Run(Start(n), schedule).phases[i].Freed?
    ensures exists i :: Step(Run(Start(n), schedule), i) != Run(Start(n), schedule)
  {
    InvariantHolds(n, schedule);
    var p := Run(Start(n), schedule);
    if p.open {
      var i :| 0 <= i < n && !p.phases[i].Freed?;
      assert Step(p, i).phases[i] != p.phases[i];
    } else {
      var i :| 0 <= i < n && !PastArrival(p.phases[i]);
      assert Step(p, i).phases[i] != p.phases[i];
    }
  }

  // ---- how much is mapped

  /** `alloc_fault_in`: whole pages. */
  function Rounded(minLen: nat, page: nat): nat
    requires 0 < page
  {
    (minLen + page - 1) / page * page
  }

  ghost predicate WholePages(len: nat, page: nat) {
    exists pages: nat :: len == pages * page
  }

  lemma RoundedBounds(minLen: nat, page: nat)
    requires 0 < page
    ensures minLen <= Rounded(minLen, page) < minLen + page && WholePages(Rounded(minLen, page), page)
  {
  }

  /** With every thread holding its share, the mapping is whole pages and within one unit per thread below and one page per thread above the target. */
  lemma MappedWhenOpen(total: nat, n: nat, page: nat)
    requires 0 < n && 0 < page
    ensures var mapped := n * Rounded(total / n, page);
            WholePages(mapped, page) && total - n < mapped < total + n * page
  {
    var share := total / n;
    var len := Rounded(share, page);
    RoundedBounds(share, page);
    assert total == n * share + total % n;
    MulMonotone(n, share, len);
    MulMonotone(n, len + 1, share + page);
    Distribute(n, len, 1);
    Distribute(n, share, page);
    var pages: nat :| len == pages * page;
    Regroup(n, pages, page);
  }

  lemma Distribute(n: nat, a: nat, b: nat)
    ensures n * (a + b) == n * a + n * b
  {
  }

  lemma Regroup(a: nat, b: nat, c: nat)
    ensures a * (b * c) == (a * b) * c
  {
  }

  lemma MulMonotone(n: nat, a: nat, b: nat)
    requires a <= b
    ensures n * a <= n * b
  {
  }
}
