/** Where a kill comes from: every figure that speaks for it was read at an earlier moment of the same run. */
module DaemonHistory {
  import opened Kernel
  import opened ProcessHandles
  import opened Ancestry
  import opened Oom
  import opened Psi
  import opened Daemon
  import opened DaemonSafety

  /** The world after the first `n` actions. */
  ghost function Moment(s: Setup, kernel: Machine, actions: seq<Action>, n: nat): World
    requires n <= |actions|
  {
    Run(s, kernel, actions[..n])
  }

  lemma MomentStays(s: Setup, kernel: Machine, actions: seq<Action>, a: Action, n: nat)
    requires n <= |actions|
    ensures Moment(s, kernel, actions + [a], n) == Moment(s, kernel, actions, n)
  {
    assert (actions + [a])[..n] == actions[..n];
  }

  /** Before which actions the iteration read the two stall totals and the available memory and took the cache lock. */
  datatype Times = Times(first: nat, second: nat, meminfo: nat, snapshot: nat)

  /** Action `n` is a step of the OOM thread from this point. */
  ghost predicate StepFrom(s: Setup, kernel: Machine, actions: seq<Action>, n: nat, p: OomPoint) {
    && n < |actions| && actions[n].Turn? && actions[n].thread == OomKiller
    && At(Moment(s, kernel, actions, n), OomKiller) == AtOom(p)
  }

  /** After action `from` and until `to` the OOM thread stood at this point. */
  ghost predicate Stood(s: Setup, kernel: Machine, actions: seq<Action>, from: nat, to: nat, p: OomPoint) {
    to <= |actions| && forall n | from < n <= to :: At(Moment(s, kernel, actions, n), OomKiller) == AtOom(p)
  }

  ghost predicate StallWas(s: Setup, kernel: Machine, actions: seq<Action>, n: nat, total: nat) {
    n <= |actions| && Moment(s, kernel, actions, n).shared.kernel.stall == total
  }

  /** The iteration began with step `a`, which read this total; until `to` the thread waited for pressure. */
  ghost predicate FirstRead(s: Setup, kernel: Machine, actions: seq<Action>, a: nat, to: nat, total: nat) {
    && StepFrom(s, kernel, actions, a, OomTop) && StallWas(s, kernel, actions, a, total)
    && Stood(s, kernel, actions, a, to, OomPoll(total))
  }

  /** Step `b` read the second total; until `to` the thread was about to read the available memory. */
  ghost predicate SecondRead(s: Setup, kernel: Machine, actions: seq<Action>, a: nat, b: nat, to: nat, first: nat, second: nat) {
    && a < b && FirstRead(s, kernel, actions, a, b, first)
    && StepFrom(s, kernel, actions, b, OomPoll(first)) && StallWas(s, kernel, actions, b, second)
    && Stood(s, kernel, actions, b, to, OomMeminfo(first, second))
  }

  /** The next step read the available memory; until `to` the thread waited for the cache lock. */
  ghost predicate EvidenceRead(s: Setup, kernel: Machine, actions: seq<Action>, e: Evidence, at: Times, to: nat) {
    && at.second < at.meminfo
    && SecondRead(s, kernel, actions, at.first, at.second, at.meminfo, e.firstTotal, e.secondTotal)
    && StepFrom(s, kernel, actions, at.meminfo, OomMeminfo(e.firstTotal, e.secondTotal))
    && actions[at.meminfo].input.available == e.available
    && Stood(s, kernel, actions, at.meminfo, to, OomWantCache(e))
  }

  predicate Scanning(pc: Pc, e: Evidence, snapshot: ProcessCache) {
    pc.AtOom? && pc.oom.OomScan? && pc.oom.evidence == e && pc.oom.snapshot == snapshot
  }

  /** Action `d`, a step of this scan, measured the candidate, alive if a figure came of it, while the cache was still the snapshot. */
  ghost predicate MeasuredAt(s: Setup, kernel: Machine, actions: seq<Action>, e: Evidence, snapshot: ProcessCache, m: Candidate, d: nat) {
    && d < |actions| && actions[d].Turn? && actions[d].thread == OomKiller
    && Scanning(At(Moment(s, kernel, actions, d), OomKiller), e, snapshot)
    && var w := Moment(s, kernel, actions, d).shared;
       && w.cache == snapshot
       && m.used == Used(ReadingOf(w.kernel, m.handle, actions[d].input.reading))
       && (m.used.Some? ==> w.kernel.Live(m.handle.procDir))
  }

  ghost predicate Measured(s: Setup, kernel: Machine, actions: seq<Action>, e: Evidence, snapshot: ProcessCache, m: Candidate, from: nat) {
    exists d :: from < d && MeasuredAt(s, kernel, actions, e, snapshot, m, d)
  }

  /** The step that took the cache lock found the snapshot, and everything was measured after it. */
  ghost predicate SelectionMade(s: Setup, kernel: Machine, actions: seq<Action>, e: Evidence, snapshot: ProcessCache, seen: seq<Candidate>, at: Times) {
    && at.meminfo < at.snapshot
    && EvidenceRead(s, kernel, actions, e, at, at.snapshot)
    && StepFrom(s, kernel, actions, at.snapshot, OomWantCache(e))
    && Moment(s, kernel, actions, at.snapshot).shared.cache == snapshot
    && (forall m | m in seen :: Measured(s, kernel, actions, e, snapshot, m, at.snapshot))
  }

  ghost predicate CaseTraced(s: Setup, kernel: Machine, actions: seq<Action>, made: Case) {
    exists at :: SelectionMade(s, kernel, actions, made.evidence, made.snapshot, made.seen, at)
  }

  ghost predicate PointTraced(s: Setup, kernel: Machine, actions: seq<Action>, pc: Pc) {
    match pc
    case AtOom(OomPoll(first)) => exists a :: FirstRead(s, kernel, actions, a, |actions|, first)
    case AtOom(OomMeminfo(first, second)) => exists a, b :: SecondRead(s, kernel, actions, a, b, |actions|, first, second)
    case AtOom(OomWantCache(e)) => exists at :: EvidenceRead(s, kernel, actions, e, at, |actions|)
    case AtOom(OomScan(e, snapshot, _, seen, _)) => exists at :: SelectionMade(s, kernel, actions, e, snapshot, seen, at)
    case AtOom(OomDropCache(made)) => CaseTraced(s, kernel, actions, made)
    case AtOom(OomCheck(made)) => CaseTraced(s, kernel, actions, made)
    case AtOom(OomKill(made)) => CaseTraced(s, kernel, actions, made)
    case AtOom(OomReap(made)) => CaseTraced(s, kernel, actions, made)
    case AtOom(OomRepeat(made)) => CaseTraced(s, kernel, actions, made)
    case _ => true
  }

  // ---- what happens later does not change what happened

  lemma StepStays(s: Setup, kernel: Machine, actions: seq<Action>, a: Action, n: nat, p: OomPoint)
    requires StepFrom(s, kernel, actions, n, p)
    ensures StepFrom(s, kernel, actions + [a], n, p)
  {
    MomentStays(s, kernel, actions, a, n);
  }

  /** Having stood there up to now, the thread goes on standing there if it does after the next action. */
  lemma StoodStays(s: Setup, kernel: Machine, actions: seq<Action>, a: Action, from: nat, to: nat, p: OomPoint)
    requires Stood(s, kernel, actions, from, to, p)
    ensures Stood(s, kernel, actions + [a], from, to, p)
    ensures to == |actions| && At(Run(s, kernel, actions + [a]), OomKiller) == AtOom(p) ==>
              Stood(s, kernel, actions + [a], from, |actions| + 1, p)
  {
    forall n | from < n <= to ensures At(Moment(s, kernel, actions + [a], n), OomKiller) == AtOom(p) {
      MomentStays(s, kernel, actions, a, n);
    }
    assert (actions + [a])[..|actions| + 1] == actions + [a];
  }

  lemma StallStays(s: Setup, kernel: Machine, actions: seq<Action>, a: Action, n: nat, total: nat)
    requires StallWas(s, kernel, actions, n, total)
    ensures StallWas(s, kernel, actions + [a], n, total)
  {
    MomentStays(s, kernel, actions, a, n);
  }

  lemma FirstStays(s: Setup, kernel: Machine, actions: seq<Action>, x: Action, a: nat, to: nat, total: nat)
    requires FirstRead(s, kernel, actions, a, to, total)
    ensures FirstRead(s, kernel, actions + [x], a, to, total)
    ensures to == |actions| && At(Run(s, kernel, actions + [x]), OomKiller) == AtOom(OomPoll(total)) ==>
              FirstRead(s, kernel, actions + [x], a, |actions| + 1, total)
  {
    StepStays(s, kernel, actions, x, a, OomTop);
    StallStays(s, kernel, actions, x, a, total);
    StoodStays(s, kernel, actions, x, a, to, OomPoll(total));
  }

  lemma SecondStays(s: Setup, kernel: Machine, actions: seq<Action>, x: Action, a: nat, b: nat, to: nat, first: nat, second: nat)
    requires SecondRead(s, kernel, actions, a, b, to, first, second)
    ensures SecondRead(s, kernel, actions + [x], a, b, to, first, second)
    ensures to == |actions| && At(Run(s, kernel, actions + [x]), OomKiller) == AtOom(OomMeminfo(first, second)) ==>
              SecondRead(s, kernel, actions + [x], a, b, |actions| + 1, first, second)
  {
    FirstStays(s, kernel, actions, x, a, b, first);
    StepStays(s, kernel, actions, x, b, OomPoll(first));
    StallStays(s, kernel, actions, x, b, second);
    StoodStays(s, kernel, actions, x, b, to, OomMeminfo(first, second));
  }

  lemma EvidenceStays(s: Setup, kernel: Machine, actions: seq<Action>, x: Action, e: Evidence, at: Times, to: nat)
    requires EvidenceRead(s, kernel, actions, e, at, to)
    ensures EvidenceRead(s, kernel, actions + [x], e, at, to)
    ensures to == |actions| && At(Run(s, kernel, actions + [x]), OomKiller) == AtOom(OomWantCache(e)) ==>
              EvidenceRead(s, kernel, actions + [x], e, at, |actions| + 1)
  {
    SecondStays(s, kernel, actions, x, at.first, at.second, at.meminfo, e.firstTotal, e.secondTotal);
    StepStays(s, kernel, actions, x, at.meminfo, OomMeminfo(e.firstTotal, e.secondTotal));
    StoodStays(s, kernel, actions, x, at.meminfo, to, OomWantCache(e));
  }

  lemma MeasuredStays(s: Setup, kernel: Machine, actions: seq<Action>, x: Action, e: Evidence, snapshot: ProcessCache, m: Candidate, from: nat)
    requires Measured(s, kernel, actions, e, snapshot, m, from)
    ensures Measured(s, kernel, actions + [x], e, snapshot, m, from)
  {
    var d :| from < d && MeasuredAt(s, kernel, actions, e, snapshot, m, d);
    MomentStays(s, kernel, actions, x, d);
    assert MeasuredAt(s, kernel, actions + [x], e, snapshot, m, d);
  }

  lemma SelectionStays(s: Setup, kernel: Machine, actions: seq<Action>, x: Action, e: Evidence, snapshot: ProcessCache, seen: seq<Candidate>, at: Times)
    requires SelectionMade(s, kernel, actions, e, snapshot, seen, at)
    ensures SelectionMade(s, kernel, actions + [x], e, snapshot, seen, at)
  {
    EvidenceStays(s, kernel, actions, x, e, at, at.snapshot);
    StepStays(s, kernel, actions, x, at.snapshot, OomWantCache(e));
    MomentStays(s, kernel, actions, x, at.snapshot);
    forall m | m in seen ensures Measured(s, kernel, actions + [x], e, snapshot, m, at.snapshot) {
      MeasuredStays(s, kernel, actions, x, e, snapshot, m, at.snapshot);
    }
  }

  lemma CaseStays(s: Setup, kernel: Machine, actions: seq<Action>, x: Action, made: Case)
    requires CaseTraced(s, kernel, actions, made)
    ensures CaseTraced(s, kernel, actions + [x], made)
  {
    var at :| SelectionMade(s, kernel, actions, made.evidence, made.snapshot, made.seen, at);
    SelectionStays(s, kernel, actions, x, made.evidence, made.snapshot, made.seen, at);
  }

  /** An action that leaves the thread where it is. */
  lemma PointStays(s: Setup, kernel: Machine, actions: seq<Action>, x: Action, pc: Pc)
    requires PointTraced(s, kernel, actions, pc) && At(Run(s, kernel, actions + [x]), OomKiller) == pc
    ensures PointTraced(s, kernel, actions + [x], pc)
  {
    if pc.AtOom? {
      match pc.oom {
        case OomTop =>
        case OomPoll(first) =>
          var a :| FirstRead(s, kernel, actions, a, |actions|, first);
          FirstStays(s, kernel, actions, x, a, |actions|, first);
        case OomMeminfo(first, second) =>
          var a, b :| SecondRead(s, kernel, actions, a, b, |actions|, first, second);
          SecondStays(s, kernel, actions, x, a, b, |actions|, first, second);
        case OomWantCache(e) =>
          var at :| EvidenceRead(s, kernel, actions, e, at, |actions|);
          EvidenceStays(s, kernel, actions, x, e, at, |actions|);
        case _ => MadeStays(s, kernel, actions, x, pc);
      }
    }
  }

  predicate AfterSnapshot(pc: Pc) {
    pc.AtOom? && !pc.oom.OomPoll? && !pc.oom.OomMeminfo? && !pc.oom.OomWantCache?
  }

  /** What was traced of the selection stays traced wherever the thread goes. */
  lemma MadeStays(s: Setup, kernel: Machine, actions: seq<Action>, x: Action, pc: Pc)
    requires PointTraced(s, kernel, actions, pc) && AfterSnapshot(pc)
    ensures PointTraced(s, kernel, actions + [x], pc)
  {
    match pc.oom {
      case OomTop =>
      case OomScan(e, snapshot, _, seen, _) =>
        var at :| SelectionMade(s, kernel, actions, e, snapshot, seen, at);
        SelectionStays(s, kernel, actions, x, e, snapshot, seen, at);
      case OomDropCache(made) => CaseStays(s, kernel, actions, x, made);
      case OomCheck(made) => CaseStays(s, kernel, actions, x, made);
      case OomKill(made) => CaseStays(s, kernel, actions, x, made);
      case OomReap(made) => CaseStays(s, kernel, actions, x, made);
      case OomRepeat(made) => CaseStays(s, kernel, actions, x, made);
    }
  }

  // ---- each step of the thread is traced

  /** The action is a step of the OOM thread, and this is where it was and where it gets. */
  ghost predicate StepOf(s: Setup, kernel: Machine, actions: seq<Action>, x: Action, p: OomPoint, pc': Pc) {
    && x.Turn? && x.thread == OomKiller
    && At(Run(s, kernel, actions), OomKiller) == AtOom(p) && At(Run(s, kernel, actions + [x]), OomKiller) == pc'
  }

  lemma StepOfIsFrom(s: Setup, kernel: Machine, actions: seq<Action>, x: Action, p: OomPoint, pc': Pc)
    requires StepOf(s, kernel, actions, x, p, pc')
    ensures StepFrom(s, kernel, actions + [x], |actions|, p)
    ensures StallWas(s, kernel, actions + [x], |actions|, Run(s, kernel, actions).shared.kernel.stall)
    ensures pc'.AtOom? ==> Stood(s, kernel, actions + [x], |actions|, |actions| + 1, pc'.oom)
    ensures Moment(s, kernel, actions + [x], |actions|) == Run(s, kernel, actions)
  {
    assert (actions + [x])[..|actions|] == actions;
    assert (actions + [x])[..|actions| + 1] == actions + [x];
  }

  lemma TopTraced(s: Setup, kernel: Machine, actions: seq<Action>, x: Action, first: nat)
    requires StepOf(s, kernel, actions, x, OomTop, AtOom(OomPoll(first)))
    requires first == Run(s, kernel, actions).shared.kernel.stall
    ensures PointTraced(s, kernel, actions + [x], AtOom(OomPoll(first)))
  {
    StepOfIsFrom(s, kernel, actions, x, OomTop, AtOom(OomPoll(first)));
    assert FirstRead(s, kernel, actions + [x], |actions|, |actions| + 1, first);
  }

  lemma PollTraced(s: Setup, kernel: Machine, actions: seq<Action>, x: Action, first: nat, second: nat)
    requires PointTraced(s, kernel, actions, AtOom(OomPoll(first)))
    requires StepOf(s, kernel, actions, x, OomPoll(first), AtOom(OomMeminfo(first, second)))
    requires second == Run(s, kernel, actions).shared.kernel.stall
    ensures PointTraced(s, kernel, actions + [x], AtOom(OomMeminfo(first, second)))
  {
    var a :| FirstRead(s, kernel, actions, a, |actions|, first);
    FirstStays(s, kernel, actions, x, a, |actions|, first);
    StepOfIsFrom(s, kernel, actions, x, OomPoll(first), AtOom(OomMeminfo(first, second)));
    assert SecondRead(s, kernel, actions + [x], a, |actions|, |actions| + 1, first, second);
  }

  lemma MeminfoReadsOn(s: Setup, kernel: Machine, actions: seq<Action>, x: Action, e: Evidence, a: nat, b: nat)
    requires SecondRead(s, kernel, actions, a, b, |actions|, e.firstTotal, e.secondTotal)
    requires StepOf(s, kernel, actions, x, OomMeminfo(e.firstTotal, e.secondTotal), AtOom(OomWantCache(e)))
    requires x.input.available == e.available
    ensures EvidenceRead(s, kernel, actions + [x], e, Times(a, b, |actions|, 0), |actions| + 1)
  {
    SecondStays(s, kernel, actions, x, a, b, |actions|, e.firstTotal, e.secondTotal);
    StepOfIsFrom(s, kernel, actions, x, OomMeminfo(e.firstTotal, e.secondTotal), AtOom(OomWantCache(e)));
    assert (actions + [x])[|actions|] == x;
  }

  lemma MeminfoTraced(s: Setup, kernel: Machine, actions: seq<Action>, x: Action, e: Evidence)
    requires PointTraced(s, kernel, actions, AtOom(OomMeminfo(e.firstTotal, e.secondTotal)))
    requires StepOf(s, kernel, actions, x, OomMeminfo(e.firstTotal, e.secondTotal), AtOom(OomWantCache(e)))
    requires x.input.available == e.available
    ensures PointTraced(s, kernel, actions + [x], AtOom(OomWantCache(e)))
  {
    var a, b :| SecondRead(s, kernel, actions, a, b, |actions|, e.firstTotal, e.secondTotal);
    MeminfoReadsOn(s, kernel, actions, x, e, a, b);
  }

  lemma SnapshotTraced(s: Setup, kernel: Machine, actions: seq<Action>, x: Action, e: Evidence, pc': Pc)
    requires PointTraced(s, kernel, actions, AtOom(OomWantCache(e)))
    requires StepOf(s, kernel, actions, x, OomWantCache(e), pc')
    requires Scanning(pc', e, Run(s, kernel, actions).shared.cache) && pc'.oom.seen == []
    ensures PointTraced(s, kernel, actions + [x], pc')
  {
    var at :| EvidenceRead(s, kernel, actions, e, at, |actions|);
    EvidenceStays(s, kernel, actions, x, e, at, |actions|);
    StepOfIsFrom(s, kernel, actions, x, OomWantCache(e), pc');
    var at' := at.(snapshot := |actions|);
    assert EvidenceRead(s, kernel, actions + [x], e, at', |actions|);
    assert SelectionMade(s, kernel, actions + [x], e, pc'.oom.snapshot, [], at');
  }

  lemma MeasureTraced(s: Setup, kernel: Machine, actions: seq<Action>, x: Action, p: OomPoint, pc': Pc, h: Handle, at: Times)
    requires StepOf(s, kernel, actions, x, p, pc') && p.OomScan? && p.snapshot == Run(s, kernel, actions).shared.cache
    requires SelectionMade(s, kernel, actions, p.evidence, p.snapshot, p.seen, at)
    ensures var w := Run(s, kernel, actions).shared;
            var next := Candidate(h, Used(ReadingOf(w.kernel, h, x.input.reading)));
            SelectionMade(s, kernel, actions + [x], p.evidence, w.cache, p.seen + [next], at)
  {
    var w := Run(s, kernel, actions).shared;
    var next := Candidate(h, Used(ReadingOf(w.kernel, h, x.input.reading)));
    SelectionStays(s, kernel, actions, x, p.evidence, w.cache, p.seen, at);
    StepOfIsFrom(s, kernel, actions, x, p, pc');
    assert MeasuredAt(s, kernel, actions + [x], p.evidence, w.cache, next, |actions|);
  }

  /** What a step of the scan can lead to: the scan goes on with what was measured so far or one more, or the choice is made. */
  lemma ScanLeadsTo(s: Setup, w: Shared, t: ThreadId, p: OomPoint, i: Input)
    requires p.OomScan? && p.snapshot == w.cache
    ensures var pc' := OomTurn(s, w, t, p, i).1;
            || pc' == AtOom(p)
            || (Scanning(pc', p.evidence, w.cache)
                && (pc'.oom.seen == p.seen
                    || exists h :: pc'.oom.seen == p.seen + [Candidate(h, Used(ReadingOf(w.kernel, h, i.reading)))]))
            || (pc'.AtOom? && pc'.oom.OomDropCache? && pc'.oom.made.evidence == p.evidence
                && pc'.oom.made.snapshot == w.cache && pc'.oom.made.seen == p.seen)
  {
  }

  lemma ScanTraced(s: Setup, kernel: Machine, actions: seq<Action>, x: Action, p: OomPoint, pc': Pc)
    requires StepOf(s, kernel, actions, x, p, pc') && p.OomScan? && p.snapshot == Run(s, kernel, actions).shared.cache
    requires pc' == OomTurn(s, Run(s, kernel, actions).shared, OomKiller, p, x.input).1
    requires PointTraced(s, kernel, actions, AtOom(p))
    ensures PointTraced(s, kernel, actions + [x], pc')
  {
    var w := Run(s, kernel, actions).shared;
    var at :| SelectionMade(s, kernel, actions, p.evidence, p.snapshot, p.seen, at);
    ScanLeadsTo(s, w, OomKiller, p, x.input);
    if Scanning(pc', p.evidence, w.cache) && pc'.oom.seen != p.seen {
      var h :| pc'.oom.seen == p.seen + [Candidate(h, Used(ReadingOf(w.kernel, h, x.input.reading)))];
      MeasureTraced(s, kernel, actions, x, p, pc', h, at);
    } else {
      SelectionStays(s, kernel, actions, x, p.evidence, p.snapshot, p.seen, at);
    }
  }

  /** The points after the choice lead on with the same case, or back to the top. */
  lemma ChosenTraced(s: Setup, w: Shared, p: OomPoint, i: Input)
    requires p.OomDropCache? || p.OomCheck? || p.OomKill? || p.OomReap? || p.OomRepeat?
    ensures var pc' := OomTurn(s, w, OomKiller, p, i).1;
            pc' == AtOom(OomTop)
            || (pc'.AtOom? && (pc'.oom.OomCheck? || pc'.oom.OomKill? || pc'.oom.OomReap? || pc'.oom.OomRepeat?) && pc'.oom.made == p.made)
  {
  }

  lemma OnceChosenTraced(s: Setup, kernel: Machine, actions: seq<Action>, x: Action, p: OomPoint, pc': Pc)
    requires p.OomDropCache? || p.OomCheck? || p.OomKill? || p.OomReap? || p.OomRepeat?
    requires StepOf(s, kernel, actions, x, p, pc')
    requires pc' == OomTurn(s, Run(s, kernel, actions).shared, OomKiller, p, x.input).1
    requires PointTraced(s, kernel, actions, AtOom(p))
    ensures PointTraced(s, kernel, actions + [x], pc')
  {
    ChosenTraced(s, Run(s, kernel, actions).shared, p, x.input);
    MadeStays(s, kernel, actions, x, AtOom(p));
  }

  lemma OomTraced(s: Setup, kernel: Machine, actions: seq<Action>, x: Action, p: OomPoint, pc': Pc)
    requires StepOf(s, kernel, actions, x, p, pc') && (p.OomScan? ==> p.snapshot == Run(s, kernel, actions).shared.cache)
    requires pc' == OomTurn(s, Run(s, kernel, actions).shared, OomKiller, p, x.input).1
    requires PointTraced(s, kernel, actions, AtOom(p))
    ensures PointTraced(s, kernel, actions + [x], pc')
  {
    var w := Run(s, kernel, actions).shared;
    if pc' == AtOom(p) {
      PointStays(s, kernel, actions, x, pc');
    } else {
      match p {
        case OomTop => if pc' != Stopped { TopTraced(s, kernel, actions, x, w.kernel.stall); }
        case OomPoll(first) => if pc' != AtOom(OomTop) { PollTraced(s, kernel, actions, x, first, w.kernel.stall); }
        case OomMeminfo(first, second) => MeminfoTraced(s, kernel, actions, x, Evidence(first, second, x.input.available));
        case OomWantCache(e) => SnapshotTraced(s, kernel, actions, x, e, pc');
        case OomScan(_, _, _, _, _) => ScanTraced(s, kernel, actions, x, p, pc');
        case _ => OnceChosenTraced(s, kernel, actions, x, p, pc');
      }
    }
  }

  ghost predicate AllTraced(s: Setup, kernel: Machine, actions: seq<Action>) {
    && (forall t: ThreadId :: At(Run(s, kernel, actions), t).AtOom? ==> t == OomKiller)
    && PointTraced(s, kernel, actions, At(Run(s, kernel, actions), OomKiller))
    && (forall strike | strike in Run(s, kernel, actions).shared.strikes :: CaseTraced(s, kernel, actions, strike.made))
  }

  lemma OomStrikes(s: Setup, w: Shared, t: ThreadId, p: OomPoint, i: Input, strike: Strike)
    requires strike in OomTurn(s, w, t, p, i).0.strikes && strike !in w.strikes
    ensures (p.OomKill? || p.OomReap? || p.OomRepeat?) && strike.made == p.made
  {
  }

  lemma StrikeTraced(s: Setup, kernel: Machine, actions: seq<Action>, t: ThreadId, i: Input, strike: Strike)
    requires AllTraced(s, kernel, actions)
    requires strike in TurnOf(s, Run(s, kernel, actions), t, i).shared.strikes
    ensures CaseTraced(s, kernel, actions + [Turn(t, i)], strike.made)
  {
    var w := Run(s, kernel, actions);
    if strike !in w.shared.strikes {
      if At(w, t).AtOom? {
        OomStrikes(s, w.shared, t, At(w, t).oom, i, strike);
      } else {
        EffectKeeps(s, w.shared, t, At(w, t), i);
      }
    }
    CaseStays(s, kernel, actions, Turn(t, i), strike.made);
  }

  lemma KillerTraced(s: Setup, kernel: Machine, actions: seq<Action>, t: ThreadId, i: Input)
    requires Invariant(s, Run(s, kernel, actions)) && AllTraced(s, kernel, actions)
    ensures PointTraced(s, kernel, actions + [Turn(t, i)], At(Run(s, kernel, actions + [Turn(t, i)]), OomKiller))
  {
    var w, x := Run(s, kernel, actions), Turn(t, i);
    var pc, pc' := At(w, OomKiller), At(Run(s, kernel, actions + [x]), OomKiller);
    RunOneMore(s, kernel, actions, x);
    assert PointOk(s, w.shared.kernel, w.shared.cache, pc);
    if pc' == pc {
      PointStays(s, kernel, actions, x, pc);
    } else if pc.AtOom? {
      OomTraced(s, kernel, actions, x, pc.oom, pc');
    } else {
      EffectKeeps(s, w.shared, t, pc, i);
    }
  }

  lemma OneKiller(s: Setup, w: World, t: ThreadId, i: Input)
    requires forall u: ThreadId :: At(w, u).AtOom? ==> u == OomKiller
    ensures forall u: ThreadId :: At(TurnOf(s, w, t, i), u).AtOom? ==> u == OomKiller
  {
    EffectKeeps(s, w.shared, t, At(w, t), i);
    assert forall u: ThreadId | u != t :: At(TurnOf(s, w, t, i), u) == At(w, u);
  }

  lemma TurnTraced(s: Setup, kernel: Machine, actions: seq<Action>, t: ThreadId, i: Input)
    requires Invariant(s, Run(s, kernel, actions)) && AllTraced(s, kernel, actions)
    ensures AllTraced(s, kernel, actions + [Turn(t, i)])
  {
    RunOneMore(s, kernel, actions, Turn(t, i));
    KillerTraced(s, kernel, actions, t, i);
    OneKiller(s, Run(s, kernel, actions), t, i);
    forall strike | strike in Run(s, kernel, actions + [Turn(t, i)]).shared.strikes
      ensures CaseTraced(s, kernel, actions + [Turn(t, i)], strike.made)
    {
      StrikeTraced(s, kernel, actions, t, i, strike);
    }
  }

  lemma OutsideTraced(s: Setup, kernel: Machine, actions: seq<Action>, x: Action)
    requires x.Outside? && AllTraced(s, kernel, actions)
    ensures AllTraced(s, kernel, actions + [x])
  {
    var w, w' := Run(s, kernel, actions), Run(s, kernel, actions + [x]);
    RunOneMore(s, kernel, actions, x);
    assert forall u: ThreadId :: At(w', u) == At(w, u);
    PointStays(s, kernel, actions, x, At(w, OomKiller));
    forall strike | strike in w'.shared.strikes ensures CaseTraced(s, kernel, actions + [x], strike.made) {
      CaseStays(s, kernel, actions, x, strike.made);
    }
  }

  lemma {:induction false} EverythingTraced(s: Setup, kernel: Machine, actions: seq<Action>)
    requires kernel.Valid()
    ensures AllTraced(s, kernel, actions)
  {
    if actions == [] {
    } else {
      var before, last := actions[..|actions| - 1], actions[|actions| - 1];
      EverythingTraced(s, kernel, before);
      InvariantHolds(s, kernel, before);
      assert actions == before + [last];
      if last.Turn? {
        TurnTraced(s, kernel, before, last.thread, last.input);
      } else {
        OutsideTraced(s, kernel, before, last);
      }
    }
  }

  /**
   Every SIGKILL and mrelease of every run goes to the instance whose memory
   was measured and whose cached executable was judged not critical in that
   same iteration, however the cache and the pids have changed since. The OOM
   thread began the iteration with reading the stall total, read it again next and
   found it grown, read next that at most half of the memory was available, locked
   the cache next, and while it held the lock measured every process that could
   have been picked; the victim's figure is the largest of them.
   */
  lemma KillSafety(s: Setup, kernel: Machine, actions: seq<Action>, strike: Strike)
    requires kernel.Valid()
    requires strike in Run(s, kernel, actions).shared.strikes
    ensures var k := Run(s, kernel, actions).shared.kernel;
            var made := strike.made;
            var victim := made.victim;
            && victim in made.seen
            && strike.target == victim.handle.procDir
            && k.HasPid(strike.target, victim.handle.pid)
            && Eligible(s.cfg, made.snapshot, victim.handle.pid) && made.snapshot[victim.handle.pid].value == victim.handle
            && (forall m | m in made.seen :: AtMost(m.used, victim.used))
            && (forall pid | Eligible(s.cfg, made.snapshot, pid) ::
                  exists m | m in made.seen :: m.handle == made.snapshot[pid].value)
            && made.evidence.firstTotal < made.evidence.secondTotal
            && made.evidence.available <= s.totalMemory / 2
            && exists at :: SelectionMade(s, kernel, actions, made.evidence, made.snapshot, made.seen, at)
  {
    InvariantHolds(s, kernel, actions);
    EverythingTraced(s, kernel, actions);
  }

  // ---- and every case made is acted upon

  /** The case has been made, and the memory was short, but nothing has been struck yet. */
  predicate AboutToStrike(pc: Pc, made: Case) {
    pc == AtOom(OomDropCache(made)) || pc == AtOom(OomCheck(made)) || pc == AtOom(OomKill(made))
  }

  function CallFor(made: Case): Strike {
    Strike(made, made.victim.handle.pidfd)
  }

  /** Since `w0` the kill, the release of memory and at least one further kill have been issued at the victim, one after the other. */
  ghost predicate StruckFor(w0: Shared, w: Shared, made: Case) {
    w0.strikes + [CallFor(made), CallFor(made), CallFor(made)] <= w.strikes
  }

  /** ... or the thread is on its way there, with so many of the calls behind it. */
  ghost predicate Striking(w0: Shared, w: World, made: Case) {
    || StruckFor(w0, w.shared, made)
    || (AboutToStrike(At(w, OomKiller), made) && w.shared.strikes == w0.strikes)
    || (At(w, OomKiller) == AtOom(OomReap(made)) && w.shared.strikes == w0.strikes + [CallFor(made)])
    || (At(w, OomKiller) == AtOom(OomRepeat(made)) && w.shared.strikes == w0.strikes + [CallFor(made), CallFor(made)])
  }

  lemma StrikesGrow(s: Setup, w: Shared, t: ThreadId, p: OomPoint, i: Input)
    ensures w.strikes <= OomTurn(s, w, t, p, i).0.strikes
  {
  }

  lemma OomGoesOn(s: Setup, w0: Shared, w: World, i: Input, made: Case)
    requires !w.shared.exited && Striking(w0, w, made) && made.evidence.available <= s.totalMemory / 2
    ensures Striking(w0, TurnOf(s, w, OomKiller, i), made)
  {
    var x := CallFor(made);
    if StruckFor(w0, w.shared, made) {
      if At(w, OomKiller).AtOom? {
        StrikesGrow(s, w.shared, OomKiller, At(w, OomKiller).oom, i);
      } else {
        EffectKeeps(s, w.shared, OomKiller, At(w, OomKiller), i);
      }
    } else if At(w, OomKiller).oom.OomRepeat? {
      assert w0.strikes + [x, x] + [x] == w0.strikes + [x, x, x];
    } else if At(w, OomKiller).oom.OomReap? {
      assert w0.strikes + [x] + [x] == w0.strikes + [x, x];
    }
  }

  lemma ActionGoesOn(s: Setup, w0: Shared, w: World, a: Action, made: Case)
    requires Striking(w0, w, made) && made.evidence.available <= s.totalMemory / 2
    requires forall t: ThreadId :: At(w, t).AtOom? ==> t == OomKiller
    ensures Striking(w0, Apply(s, w, a), made)
  {
    if a.Turn? && !w.shared.exited {
      if a.thread == OomKiller {
        OomGoesOn(s, w0, w, a.input, made);
      } else {
        EffectKeeps(s, w.shared, a.thread, At(w, a.thread), a.input);
      }
    } else {
      assert At(Apply(s, w, a), OomKiller) == At(w, OomKiller);
    }
  }

  lemma StrikesOn(s: Setup, kernel: Machine, so: seq<Action>, a: Action, w0: Shared, made: Case)
    requires kernel.Valid() && Striking(w0, Run(s, kernel, so), made) && made.evidence.available <= s.totalMemory / 2
    ensures Striking(w0, Run(s, kernel, so + [a]), made)
  {
    EverythingTraced(s, kernel, so);
    RunOneMore(s, kernel, so, a);
    ActionGoesOn(s, w0, Run(s, kernel, so), a, made);
  }

  /**
   An iteration that has chosen a victim with at most half of the memory available
   cannot get past the kill: at any later moment this very victim has been sent a
   SIGKILL, had its memory released and been sent another, or the OOM thread is
   still on its way, with exactly the calls behind it that come first.
   */
  lemma ChosenVictimIsStruck(s: Setup, kernel: Machine, before: seq<Action>, later: seq<Action>, made: Case)
    requires kernel.Valid() && At(Run(s, kernel, before), OomKiller) == AtOom(OomDropCache(made))
    requires made.evidence.available <= s.totalMemory / 2
    ensures Striking(Run(s, kernel, before).shared, Run(s, kernel, before + later), made)
  {
    var w0 := Run(s, kernel, before).shared;
    var p := (actions: seq<Action>) => Striking(w0, Run(s, kernel, actions), made);
    forall k | 0 <= k < |later| ensures KeptByOne(p, before + later[..k], later[k]) {
      if p(before + later[..k]) { StrikesOn(s, kernel, before + later[..k], later[k], w0, made); }
    }
    KeptAlong(p, before, later);
  }

  /** So whenever the thread is back at the top, the victim has been struck; and what led it there is a total that grew. */
  lemma BackAtTopMeansStruck(s: Setup, kernel: Machine, before: seq<Action>, later: seq<Action>, made: Case)
    requires kernel.Valid() && At(Run(s, kernel, before), OomKiller) == AtOom(OomDropCache(made))
    requires made.evidence.available <= s.totalMemory / 2
    requires At(Run(s, kernel, before + later), OomKiller) == AtOom(OomTop)
    ensures StruckFor(Run(s, kernel, before).shared, Run(s, kernel, before + later).shared, made)
    ensures made.evidence.firstTotal < made.evidence.secondTotal
  {
    InvariantHolds(s, kernel, before);
    var w := Run(s, kernel, before);
    assert PointOk(s, w.shared.kernel, w.shared.cache, At(w, OomKiller));
    ChosenVictimIsStruck(s, kernel, before, later, made);
  }

  lemma InstancesStay(s: Setup, w: World, a: Action)
    ensures var k, k' := w.shared.kernel, Apply(s, w, a).shared.kernel;
            && |k.processes| <= |k'.processes|
            && forall x: Instance | x < |k.processes| && k'.Live(x) :: k.Live(x)
  {
    if a.Turn? && !w.shared.exited { EffectChanges(s, w.shared, a.thread, At(w, a.thread), a.input); }
  }

  /** If the victim is still there, the thread is still in the loop. */
  predicate Killing(w0: World, w: World, made: Case) {
    && |w0.shared.kernel.processes| <= |w.shared.kernel.processes|
    && (w.shared.kernel.Live(made.victim.handle.pidfd) ==> At(w, OomKiller) == AtOom(OomRepeat(made)))
  }

  lemma KillsOn(s: Setup, w0: World, w: World, a: Action, made: Case)
    requires Killing(w0, w, made) && made.victim.handle.pidfd < |w0.shared.kernel.processes|
    requires a.Turn? && a.thread == OomKiller ==> a.input.granted
    ensures Killing(w0, Apply(s, w, a), made)
  {
    InstancesStay(s, w, a);
  }

  /** The thread goes on killing as long as the victim is there and no call is refused. */
  lemma KillsWhileItLives(s: Setup, kernel: Machine, before: seq<Action>, later: seq<Action>, made: Case)
    requires kernel.Valid() && At(Run(s, kernel, before), OomKiller) == AtOom(OomRepeat(made))
    requires forall a | a in later && a.Turn? && a.thread == OomKiller :: a.input.granted
    requires Run(s, kernel, before + later).shared.kernel.Live(made.victim.handle.pidfd)
    ensures At(Run(s, kernel, before + later), OomKiller) == AtOom(OomRepeat(made))
  {
    var w0 := Run(s, kernel, before);
    InvariantHolds(s, kernel, before);
    assert PointOk(s, w0.shared.kernel, w0.shared.cache, At(w0, OomKiller));
    assert Sound(w0.shared.kernel, made.victim.handle);
    var p := (actions: seq<Action>) => Killing(w0, Run(s, kernel, actions), made);
    forall k | 0 <= k < |later| ensures KeptByOne(p, before + later[..k], later[k]) {
      RunOneMore(s, kernel, before + later[..k], later[k]);
      if p(before + later[..k]) { KillsOn(s, w0, Run(s, kernel, before + later[..k]), later[k], made); }
    }
    KeptAlong(p, before, later);
  }

  predicate Fits(e: Evidence, first: nat, second: nat, half: nat) {
    e.firstTotal == first && e.secondTotal == second && e.available <= half
  }

  /** The iteration with these totals is under way, and as far as is known the memory is short. */
  predicate OnItsWay(pc: Pc, first: nat, second: nat, half: nat) {
    pc.AtOom? &&
    match pc.oom
    case OomMeminfo(a, b) => a == first && b == second
    case OomWantCache(e) => Fits(e, first, second, half)
    case OomScan(e, _, _, _, _) => Fits(e, first, second, half)
    case OomDropCache(made) => Fits(made.evidence, first, second, half)
    case OomCheck(made) => Fits(made.evidence, first, second, half)
    case OomKill(made) => Fits(made.evidence, first, second, half)
    case _ => false
  }

  ghost predicate StruckIn(w: World, first: nat, second: nat) {
    exists strike | strike in w.shared.strikes :: strike.made.evidence.firstTotal == first && strike.made.evidence.secondTotal == second
  }

  /** The thread reads that more than half of the memory is available. */
  predicate ReadsEnough(w: World, a: Action, first: nat, second: nat, half: nat) {
    && a.Turn? && a.thread == OomKiller && At(w, OomKiller) == AtOom(OomMeminfo(first, second)) && half < a.input.available
  }

  lemma OomKeepsOnItsWay(s: Setup, w: Shared, p: OomPoint, i: Input, first: nat, second: nat)
    requires OnItsWay(AtOom(p), first, second, s.totalMemory / 2)
    requires p.OomMeminfo? ==> i.available <= s.totalMemory / 2
    ensures var (w', pc') := OomTurn(s, w, OomKiller, p, i);
            || OnItsWay(pc', first, second, s.totalMemory / 2)
            || (p.OomKill? && Strike(p.made, p.made.victim.handle.pidfd) in w'.strikes)
  {
    if p.OomKill? {
      assert Struck(w, p.made).strikes[|w.strikes|] == Strike(p.made, p.made.victim.handle.pidfd);
    }
  }

  lemma ActionKeepsOnItsWay(s: Setup, w: World, a: Action, first: nat, second: nat)
    requires OnItsWay(At(w, OomKiller), first, second, s.totalMemory / 2) || StruckIn(w, first, second)
    ensures var w', half := Apply(s, w, a), s.totalMemory / 2;
            OnItsWay(At(w', OomKiller), first, second, half) || StruckIn(w', first, second) || ReadsEnough(w, a, first, second, half)
  {
    if a.Turn? && !w.shared.exited {
      var t, w' := a.thread, TurnOf(s, w, a.thread, a.input);
      if StruckIn(w, first, second) {
        var strike :| strike in w.shared.strikes && strike.made.evidence.firstTotal == first && strike.made.evidence.secondTotal == second;
        if At(w, t).AtOom? { StrikesGrow(s, w.shared, t, At(w, t).oom, a.input); } else { EffectKeeps(s, w.shared, t, At(w, t), a.input); }
        assert strike in w'.shared.strikes;
      } else if t == OomKiller && !ReadsEnough(w, a, first, second, s.totalMemory / 2) {
        OomKeepsOnItsWay(s, w.shared, At(w, t).oom, a.input, first, second);
      }
    } else {
      assert At(Apply(s, w, a), OomKiller) == At(w, OomKiller);
    }
  }

  /** One of the actions after `before` read that there is memory enough. */
  ghost predicate EnoughWasRead(s: Setup, kernel: Machine, before: seq<Action>, later: seq<Action>, first: nat, second: nat) {
    exists k :: 0 <= k < |later| && ReadsEnough(Run(s, kernel, before + later[..k]), later[k], first, second, s.totalMemory / 2)
  }

  /**
   The other side of the bound: once the second reading of an iteration differs
   from the first, the iteration goes on to a kill. At any later moment it is
   still under way, or it has struck, or it read that more than half of the memory
   is available. (It stays under way if the daemon ends in it.)
   */
  lemma {:induction false} GrownTotalGoesOn(s: Setup, kernel: Machine, before: seq<Action>, later: seq<Action>, first: nat, second: nat)
    requires At(Run(s, kernel, before), OomKiller) == AtOom(OomMeminfo(first, second))
    ensures var w := Run(s, kernel, before + later);
            || OnItsWay(At(w, OomKiller), first, second, s.totalMemory / 2)
            || StruckIn(w, first, second)
            || EnoughWasRead(s, kernel, before, later, first, second)
  {
    if later == [] {
      assert before + later == before;
    } else {
      var n := |later| - 1;
      GrownTotalGoesOn(s, kernel, before, later[..n], first, second);
      assert before + later == before + later[..n] + [later[n]];
      RunOneMore(s, kernel, before + later[..n], later[n]);
      if EnoughWasRead(s, kernel, before, later[..n], first, second) {
        EnoughStaysRead(s, kernel, before, later, n, first, second);
      } else {
        ActionKeepsOnItsWay(s, Run(s, kernel, before + later[..n]), later[n], first, second);
      }
    }
  }

  lemma EnoughStaysRead(s: Setup, kernel: Machine, before: seq<Action>, later: seq<Action>, n: nat, first: nat, second: nat)
    requires n <= |later| && EnoughWasRead(s, kernel, before, later[..n], first, second)
    ensures EnoughWasRead(s, kernel, before, later, first, second)
  {
    var k :| 0 <= k < n && ReadsEnough(Run(s, kernel, before + later[..n][..k]), later[..n][k], first, second, s.totalMemory / 2);
    assert later[..n][..k] == later[..k];
  }

  /** And a step that finds the total changed does begin it. */
  lemma GrownTotalIsSeen(s: Setup, kernel: Machine, before: seq<Action>, i: Input, first: nat)
    requires kernel.Valid() && At(Run(s, kernel, before), OomKiller) == AtOom(OomPoll(first)) && !Run(s, kernel, before).shared.exited
    ensures var stall := Run(s, kernel, before).shared.kernel.stall;
            At(Run(s, kernel, before + [Turn(OomKiller, i)]), OomKiller) ==
            AtOom(if first < stall then OomMeminfo(first, stall) else OomTop)
  {
    var w := Run(s, kernel, before);
    InvariantHolds(s, kernel, before);
    assert PointOk(s, w.shared.kernel, w.shared.cache, At(w, OomKiller));
    NoUnderflowIff(w.shared.kernel.stall, first);
    RunOneMore(s, kernel, before, Turn(OomKiller, i));
  }
}
