/** What holds in every state that any run of the daemon can reach. */
module DaemonSafety {
  import opened Wrappers
  import opened Kernel
  import opened ProcessHandles
  import opened Ancestry
  import opened Config
  import opened Scheduling
  import opened FullPass
  import opened Population
  import opened Oom
  import opened Psi
  import opened Daemon

  // ---- the invariant, piece by piece

  /** A mutex is owned by exactly the thread that is at a point inside its critical section. */
  ghost predicate LocksOk(w: World) {
    forall t: ThreadId ::
      && (w.shared.stateOwner == Some(t) <==> HoldsState(At(w, t)))
      && (w.shared.cacheOwner == Some(t) <==> HoldsCache(At(w, t)))
  }

  /** Every present entry is a sound handle filed under its own pid. */
  ghost predicate CacheOk(k: Machine, cache: ProcessCache) {
    forall pid | Present(cache, pid) :: cache[pid].value.pid == pid && Sound(k, cache[pid].value)
  }

  /** Everything measured came from the snapshot, through a sound handle, and was judged not critical. */
  ghost predicate SeenOk(cfg: Config, k: Machine, snapshot: ProcessCache, seen: seq<Candidate>) {
    forall m | m in seen ::
      && Sound(k, m.handle) && !IsCritical(cfg, m.handle, None)
      && Present(snapshot, m.handle.pid) && snapshot[m.handle.pid].value == m.handle
  }

  /** Nothing eligible outside `todo` has been left out. */
  ghost predicate Covers(cfg: Config, snapshot: ProcessCache, todo: set<Pid>, seen: seq<Candidate>) {
    forall pid | Eligible(cfg, snapshot, pid) && pid !in todo :: exists m | m in seen :: m.handle == snapshot[pid].value
  }

  ghost predicate IsBest(seen: seq<Candidate>, best: Candidate) {
    best in seen && forall m | m in seen :: AtMost(m.used, best.used)
  }

  ghost predicate CaseOk(cfg: Config, k: Machine, made: Case) {
    && made.evidence.firstTotal < made.evidence.secondTotal
    && SeenOk(cfg, k, made.snapshot, made.seen)
    && Covers(cfg, made.snapshot, {}, made.seen)
    && IsBest(made.seen, made.victim)
  }

  /** What handling an event has made of the cache: at most the entry the event names has changed. */
  ghost predicate EventOutcome(base: ProcessCache, event: Event, cache: ProcessCache) {
    match event
    case Exec(pid, tgid) => if pid == tgid then pid in cache && cache == base[pid := cache[pid]] else cache == base
    case Exit(pid) => pid !in cache && cache == base - {pid}
    case OtherEvent => cache == base
  }

  /** Entries of `base` are untouched, and every pid gone through has an entry. */
  ghost predicate PopulatedSoFar(base: ProcessCache, listed: seq<Pid>, todo: seq<Pid>, cache: ProcessCache) {
    && (forall pid | pid in base :: pid in cache && cache[pid] == base[pid])
    && (forall pid | pid in cache :: pid in base || pid in listed)
    && (forall pid | pid in listed :: pid in cache || pid in todo)
    && (forall pid | pid in todo :: pid in listed)
  }

  /** The cache is what one call of populate makes of `base` in one go, for some outcome of each lookup. */
  ghost predicate PopulateOutcome(base: ProcessCache, listed: seq<Pid>, cache: ProcessCache) {
    exists lookups :: cache == Populated(base, AsSet(listed), lookups)
  }

  /** The handles that cleanup has built for itself are sound, too. */
  predicate ListedOk(k: Machine, listed: seq<Handle>) {
    forall p | p in listed :: Sound(k, p)
  }

  ghost predicate PointOk(s: Setup, k: Machine, cache: ProcessCache, pc: Pc) {
    match pc
    case AtMessage(MsgBuild(_, b)) => BuilderOk(k, b) && Pending(b)
    case AtMessage(MsgWantCache(_, h)) => Sound(k, h)
    case AtMessage(MsgUpdate(_, h)) => Sound(k, h)
    case AtExit(ExitBuild(_, listed, b)) => BuilderOk(k, b) && Pending(b) && ListedOk(k, listed)
    case AtExit(ExitNext(_, listed)) => ListedOk(k, listed)
    case AtExit(ExitReset(listed, _)) => ListedOk(k, listed)
    case AtExit(ExitWantCache(listed, _)) => ListedOk(k, listed)
    case AtExit(ExitClear(listed, _)) => ListedOk(k, listed)
    case AtExit(ExitDropCache(listed, _)) => ListedOk(k, listed)
    case AtExit(ExitNow(listed, _)) => ListedOk(k, listed)
    case AtEvent(EventBuild(base, b)) => BuilderOk(k, b) && Pending(b) && cache == base
    case AtEvent(EventUpdate(base, h)) => Sound(k, h) && cache == base[h.pid := Some(h)]
    case AtEvent(EventDropCache(event, base)) => EventOutcome(base, event, cache)
    case AtPopulate(PopNext(base, listed, todo)) => PopulatedSoFar(base, listed, todo, cache)
    case AtPopulate(PopBuild(base, listed, todo, b)) => BuilderOk(k, b) && Pending(b) && PopulatedSoFar(base, listed, [b.pid] + todo, cache)
    case AtPopulate(PopDropCache(base, listed)) => PopulateOutcome(base, listed, cache)
    case AtOom(OomPoll(first)) => first <= k.stall
    case AtOom(OomMeminfo(first, second)) => first < second
    case AtOom(OomWantCache(e)) => e.firstTotal < e.secondTotal
    case AtOom(OomScan(e, snapshot, todo, seen, best)) =>
      && e.firstTotal < e.secondTotal
      && snapshot == cache && todo <= cache.Keys
      && SeenOk(s.cfg, k, snapshot, seen) && Covers(s.cfg, snapshot, todo, seen)
      && (if best.Some? then IsBest(seen, best.value) else seen == [])
    case AtOom(OomDropCache(made)) => CaseOk(s.cfg, k, made)
    case AtOom(OomCheck(made)) => CaseOk(s.cfg, k, made)
    case AtOom(OomKill(made)) => CaseOk(s.cfg, k, made) && made.evidence.available <= s.totalMemory / 2
    case AtOom(OomReap(made)) => CaseOk(s.cfg, k, made) && made.evidence.available <= s.totalMemory / 2
    case AtOom(OomRepeat(made)) => CaseOk(s.cfg, k, made) && made.evidence.available <= s.totalMemory / 2
    case _ => true
  }

  ghost predicate StrikeOk(s: Setup, k: Machine, strike: Strike) {
    && CaseOk(s.cfg, k, strike.made)
    && strike.target == strike.made.victim.handle.pidfd
    && strike.made.evidence.available <= s.totalMemory / 2
  }

  /** What holds of the shared part. */
  ghost predicate PartsOk(s: Setup, k: Machine, cache: ProcessCache, strikes: seq<Strike>) {
    && k.Valid()
    && CacheOk(k, cache)
    && (forall strike | strike in strikes :: StrikeOk(s, k, strike))
  }

  ghost predicate SharedOk(s: Setup, w: Shared) {
    PartsOk(s, w.kernel, w.cache, w.strikes)
  }

  ghost predicate Invariant(s: Setup, w: World) {
    && SharedOk(s, w.shared)
    && LocksOk(w)
    && (forall t: ThreadId :: PointOk(s, w.shared.kernel, w.shared.cache, At(w, t)))
  }

  // ---- the outside keeps it

  lemma CaseOkStable(cfg: Config, k: Machine, k': Machine, made: Case)
    requires Evolves(k, k') && CaseOk(cfg, k, made)
    ensures CaseOk(cfg, k', made)
  {
  }

  lemma PointOkStable(s: Setup, k: Machine, k': Machine, cache: ProcessCache, pc: Pc)
    requires Evolves(k, k') && PointOk(s, k, cache, pc)
    ensures PointOk(s, k', cache, pc)
  {
  }

  lemma OutsideKeepsInvariant(s: Setup, w: World, k: Machine, table: Table)
    requires Invariant(s, w) && Evolves(w.shared.kernel, k)
    ensures Invariant(s, Changed(w, k, table))
  {
    var w' := Changed(w, k, table);
    forall t: ThreadId ensures PointOk(s, k, w'.shared.cache, At(w', t)) {
      assert At(w', t) == At(w, t);
      PointOkStable(s, w.shared.kernel, k, w.shared.cache, At(w, t));
    }
    forall strike | strike in w.shared.strikes ensures StrikeOk(s, k, strike) {
      CaseOkStable(s.cfg, w.shared.kernel, k, strike.made);
    }
    assert LocksOk(w') by {
      assert forall t: ThreadId :: At(w', t) == At(w, t);
    }
  }

  // ---- each thread keeps it

  /** The owner changes only as the thread enters or leaves the critical section. */
  predicate MovesLock(owner: Option<ThreadId>, owner': Option<ThreadId>, t: ThreadId, held: bool, held': bool) {
    if held == held' then owner' == owner
    else if held' then owner == None && owner' == Some(t)
    else owner' == None
  }

  /** The step changes only what the thread has locked, and schedules only where it should. */
  ghost predicate ChangesOnlyItsOwn(w: Shared, pc: Pc, w': Shared) {
    && w'.kernel == w.kernel
    && (w'.cache != w.cache ==> HoldsCache(pc))
    && (w'.state != w.state ==> HoldsState(pc))
    && (w'.table != w.table ==> AtUpdate(pc) || AtReset(pc))
  }

  /** It moves only its own locks. */
  predicate MovesOnlyItsOwn(w: Shared, pc: Pc, w': Shared, pc': Pc, t: ThreadId) {
    && MovesLock(w.stateOwner, w'.stateOwner, t, HoldsState(pc), HoldsState(pc'))
    && MovesLock(w.cacheOwner, w'.cacheOwner, t, HoldsCache(pc), HoldsCache(pc'))
  }

  /** The step keeps to the lock discipline. */
  ghost predicate Disciplined(w: Shared, pc: Pc, w': Shared, pc': Pc, t: ThreadId) {
    ChangesOnlyItsOwn(w, pc, w') && MovesOnlyItsOwn(w, pc, w', pc', t)
  }

  /** Where a thread stands, what it knows is true, and so is what the shared part promises. */
  ghost predicate Knows(s: Setup, w: Shared, pc: Pc) {
    SharedOk(s, w) && PointOk(s, w.kernel, w.cache, pc)
  }

  ghost predicate StepOk(s: Setup, w: Shared, pc: Pc, w': Shared, pc': Pc, t: ThreadId) {
    Disciplined(w, pc, w', pc', t) && Knows(s, w', pc')
  }

  /** Another thread's knowledge is about its own handles; only a scan depends on the cache, and it holds the lock. */
  lemma StepKeepsInvariant(s: Setup, w: World, w': World, t: ThreadId)
    requires Invariant(s, w)
    requires StepOk(s, w.shared, At(w, t), w'.shared, At(w', t), t)
    requires forall u: ThreadId | u != t :: At(w', u) == At(w, u)
    ensures Invariant(s, w')
  {
  }

  lemma EffectChanges(s: Setup, w: Shared, t: ThreadId, pc: Pc, i: Input)
    ensures var (w', pc') := EffectOf(s, w, t, pc, i); ChangesOnlyItsOwn(w, pc, w')
  {
    match pc {
      case AtMessage(p) => MessageChanges(s, w, t, p, i);
      case AtExit(p) => ExitChanges(s, w, t, p, i);
      case AtEvent(p) => EventChanges(s, w, t, p, i);
      case AtPopulate(p) => PopulateChanges(s, w, t, p, i);
      case AtPass(p) => PassChanges(s, w, t, p, i);
      case AtOom(p) => OomChanges(s, w, t, p, i);
      case Stopped =>
    }
  }

  lemma MessageChanges(s: Setup, w: Shared, t: ThreadId, p: MessagePoint, i: Input)
    ensures var (w', pc') := MessageTurn(s, w, t, p, i); ChangesOnlyItsOwn(w, AtMessage(p), w')
  {
  }

  lemma ExitChanges(s: Setup, w: Shared, t: ThreadId, p: ExitPoint, i: Input)
    ensures var (w', pc') := ExitTurn(s, w, t, p, i); ChangesOnlyItsOwn(w, AtExit(p), w')
  {
  }

  lemma EventChanges(s: Setup, w: Shared, t: ThreadId, p: EventPoint, i: Input)
    ensures var (w', pc') := EventTurn(s, w, t, p, i); ChangesOnlyItsOwn(w, AtEvent(p), w')
  {
  }

  lemma PopulateChanges(s: Setup, w: Shared, t: ThreadId, p: PopulatePoint, i: Input)
    ensures var (w', pc') := PopulateTurn(w, t, p, i); ChangesOnlyItsOwn(w, AtPopulate(p), w')
  {
  }

  lemma PassChanges(s: Setup, w: Shared, t: ThreadId, p: PassPoint, i: Input)
    ensures var (w', pc') := PassTurn(s, w, t, p, i); ChangesOnlyItsOwn(w, AtPass(p), w')
  {
  }

  lemma OomChanges(s: Setup, w: Shared, t: ThreadId, p: OomPoint, i: Input)
    ensures var (w', pc') := OomTurn(s, w, t, p, i); ChangesOnlyItsOwn(w, AtOom(p), w')
  {
  }

  lemma EffectMoves(s: Setup, w: Shared, t: ThreadId, pc: Pc, i: Input)
    ensures var (w', pc') := EffectOf(s, w, t, pc, i); MovesOnlyItsOwn(w, pc, w', pc', t)
  {
    match pc {
      case AtMessage(p) => MessageMoves(s, w, t, p, i);
      case AtExit(p) => ExitMoves(s, w, t, p, i);
      case AtEvent(p) => EventMoves(s, w, t, p, i);
      case AtPopulate(p) => PopulateMoves(s, w, t, p, i);
      case AtPass(p) => PassMoves(s, w, t, p, i);
      case AtOom(p) => OomMoves(s, w, t, p, i);
      case Stopped =>
    }
  }

  lemma MessageMoves(s: Setup, w: Shared, t: ThreadId, p: MessagePoint, i: Input)
    ensures var (w', pc') := MessageTurn(s, w, t, p, i); MovesOnlyItsOwn(w, AtMessage(p), w', pc', t)
  {
  }

  lemma ExitMoves(s: Setup, w: Shared, t: ThreadId, p: ExitPoint, i: Input)
    ensures var (w', pc') := ExitTurn(s, w, t, p, i); MovesOnlyItsOwn(w, AtExit(p), w', pc', t)
  {
  }

  lemma EventMoves(s: Setup, w: Shared, t: ThreadId, p: EventPoint, i: Input)
    ensures var (w', pc') := EventTurn(s, w, t, p, i); MovesOnlyItsOwn(w, AtEvent(p), w', pc', t)
  {
  }

  lemma PopulateMoves(s: Setup, w: Shared, t: ThreadId, p: PopulatePoint, i: Input)
    ensures var (w', pc') := PopulateTurn(w, t, p, i); MovesOnlyItsOwn(w, AtPopulate(p), w', pc', t)
  {
  }

  lemma PassMoves(s: Setup, w: Shared, t: ThreadId, p: PassPoint, i: Input)
    ensures var (w', pc') := PassTurn(s, w, t, p, i); MovesOnlyItsOwn(w, AtPass(p), w', pc', t)
  {
  }

  lemma OomMoves(s: Setup, w: Shared, t: ThreadId, p: OomPoint, i: Input)
    ensures var (w', pc') := OomTurn(s, w, t, p, i); MovesOnlyItsOwn(w, AtOom(p), w', pc', t)
  {
  }

  /** A thread keeps to its own program; only the OOM thread strikes, and only the signal thread ends the running of the others. */
  predicate KeepsToItsOwn(w: Shared, pc: Pc, w': Shared, pc': Pc) {
    && (pc'.AtOom? ==> pc.AtOom?)
    && (pc'.AtExit? <==> pc.AtExit?)
    && (pc'.AtPass? ==> pc.AtPass? || pc' == AtPass(PassWantState))
    && (w'.strikes != w.strikes ==> pc.AtOom?)
    && (w'.running ==> w.running)
    && (pc'.AtExit? && !pc'.exit.AwaitSignal? && w'.running ==> !pc.exit.AwaitSignal?)
  }

  lemma EffectKeeps(s: Setup, w: Shared, t: ThreadId, pc: Pc, i: Input)
    ensures var (w', pc') := EffectOf(s, w, t, pc, i); KeepsToItsOwn(w, pc, w', pc')
  {
    match pc {
      case AtMessage(p) => MessageKeeps(s, w, t, p, i);
      case AtExit(p) => ExitKeeps(s, w, t, p, i);
      case AtEvent(p) => EventKeeps(s, w, t, p, i);
      case AtPopulate(p) => PopulateKeeps(s, w, t, p, i);
      case AtPass(p) => PassKeeps(s, w, t, p, i);
      case AtOom(p) => OomKeeps(s, w, t, p, i);
      case Stopped =>
    }
  }

  lemma MessageKeeps(s: Setup, w: Shared, t: ThreadId, p: MessagePoint, i: Input)
    ensures var (w', pc') := MessageTurn(s, w, t, p, i); KeepsToItsOwn(w, AtMessage(p), w', pc')
  {
  }

  lemma ExitKeeps(s: Setup, w: Shared, t: ThreadId, p: ExitPoint, i: Input)
    ensures var (w', pc') := ExitTurn(s, w, t, p, i); KeepsToItsOwn(w, AtExit(p), w', pc')
  {
  }

  lemma EventKeeps(s: Setup, w: Shared, t: ThreadId, p: EventPoint, i: Input)
    ensures var (w', pc') := EventTurn(s, w, t, p, i); KeepsToItsOwn(w, AtEvent(p), w', pc')
  {
  }

  lemma PopulateKeeps(s: Setup, w: Shared, t: ThreadId, p: PopulatePoint, i: Input)
    ensures var (w', pc') := PopulateTurn(w, t, p, i); KeepsToItsOwn(w, AtPopulate(p), w', pc')
  {
  }

  lemma PassKeeps(s: Setup, w: Shared, t: ThreadId, p: PassPoint, i: Input)
    ensures var (w', pc') := PassTurn(s, w, t, p, i); KeepsToItsOwn(w, AtPass(p), w', pc')
  {
  }

  lemma OomKeeps(s: Setup, w: Shared, t: ThreadId, p: OomPoint, i: Input)
    ensures var (w', pc') := OomTurn(s, w, t, p, i); KeepsToItsOwn(w, AtOom(p), w', pc')
  {
  }

  lemma EffectDisciplined(s: Setup, w: Shared, t: ThreadId, pc: Pc, i: Input)
    ensures var (w', pc') := EffectOf(s, w, t, pc, i); Disciplined(w, pc, w', pc', t)
  {
    EffectChanges(s, w, t, pc, i);
    EffectMoves(s, w, t, pc, i);
  }

  lemma MsgBuildOk(s: Setup, w: Shared, t: ThreadId, p: MessagePoint, i: Input)
    requires Knows(s, w, AtMessage(p)) && p.MsgBuild?
    ensures var (w', pc') := MessageTurn(s, w, t, p, i); Knows(s, w', pc')
  {
    AdvanceKeepsOk(w.kernel, p.builder, i.granted);
  }

  lemma SameSharedOk(s: Setup, w: Shared, w': Shared)
    requires SharedOk(s, w) && w'.kernel == w.kernel && w'.cache == w.cache && w'.strikes == w.strikes
    ensures SharedOk(s, w')
  {
  }

  lemma MessageTurnOk(s: Setup, w: Shared, t: ThreadId, p: MessagePoint, i: Input)
    requires Knows(s, w, AtMessage(p))
    ensures var (w', pc') := MessageTurn(s, w, t, p, i); Knows(s, w', pc')
  {
    if p.MsgBuild? {
      MsgBuildOk(s, w, t, p, i);
    } else {
      MessageChanges(s, w, t, p, i);
      SameSharedOk(s, w, MessageTurn(s, w, t, p, i).0);
    }
  }

  lemma EditOk(s: Setup, w: Shared, cache: ProcessCache)
    requires SharedOk(s, w)
    requires forall pid | Present(cache, pid) ::
               (Present(w.cache, pid) && cache[pid] == w.cache[pid]) || (cache[pid].value.pid == pid && Sound(w.kernel, cache[pid].value))
    ensures SharedOk(s, w.(cache := cache))
  {
  }

  lemma ExitTurnOk(s: Setup, w: Shared, t: ThreadId, p: ExitPoint, i: Input)
    requires Knows(s, w, AtExit(p))
    ensures var (w', pc') := ExitTurn(s, w, t, p, i); Knows(s, w', pc')
  {
    if p.ExitBuild? {
      AdvanceKeepsOk(w.kernel, p.builder, i.granted);
    } else if p.ExitClear? {
      EditOk(s, w, map[]);
    }
  }

  lemma EventBuildOk(s: Setup, w: Shared, t: ThreadId, p: EventPoint, i: Input)
    requires Knows(s, w, AtEvent(p)) && p.EventBuild?
    ensures var (w', pc') := EventTurn(s, w, t, p, i); Knows(s, w', pc')
  {
    AdvanceKeepsOk(w.kernel, p.builder, i.granted);
    EditOk(s, w, EventTurn(s, w, t, p, i).0.cache);
  }

  lemma EventTurnOk(s: Setup, w: Shared, t: ThreadId, p: EventPoint, i: Input)
    requires Knows(s, w, AtEvent(p))
    ensures var (w', pc') := EventTurn(s, w, t, p, i); Knows(s, w', pc')
  {
    if p.EventBuild? {
      EventBuildOk(s, w, t, p, i);
    } else if p.EventHandle? && p.event.Exit? {
      EditOk(s, w, EventTurn(s, w, t, p, i).0.cache);
    } else {
      EventChanges(s, w, t, p, i);
      SameSharedOk(s, w, EventTurn(s, w, t, p, i).0);
    }
  }

  lemma InsertGoesOn(base: ProcessCache, listed: seq<Pid>, todo: seq<Pid>, cache: ProcessCache, pid: Pid, built: Option<Handle>)
    requires PopulatedSoFar(base, listed, [pid] + todo, cache)
    ensures PopulatedSoFar(base, listed, todo, OrInsert(cache, pid, built))
  {
  }

  lemma PopBuildOk(s: Setup, w: Shared, t: ThreadId, p: PopulatePoint, i: Input)
    requires Knows(s, w, AtPopulate(p)) && p.PopBuild?
    ensures var (w', pc') := PopulateTurn(w, t, p, i); Knows(s, w', pc')
  {
    var b' := Advance(w.kernel, p.builder, i.granted);
    AdvanceKeepsOk(w.kernel, p.builder, i.granted);
    EditOk(s, w, PopulateTurn(w, t, p, i).0.cache);
    InsertGoesOn(p.base, p.listed, p.todo, w.cache, p.builder.pid, if b'.Built? then Some(b'.handle) else None);
  }

  lemma RetainCompletes(base: ProcessCache, listed: seq<Pid>, cache: ProcessCache)
    requires PopulatedSoFar(base, listed, [], cache)
    ensures PopulateOutcome(base, listed, Retain(cache, AsSet(listed)))
  {
    var lookups := (pid: Pid) => if pid in cache then cache[pid] else None;
    assert Retain(cache, AsSet(listed)) == Populated(base, AsSet(listed), lookups);
  }

  lemma PopulateTurnOk(s: Setup, w: Shared, t: ThreadId, p: PopulatePoint, i: Input)
    requires Knows(s, w, AtPopulate(p))
    ensures var (w', pc') := PopulateTurn(w, t, p, i); Knows(s, w', pc')
  {
    if p.PopBuild? {
      PopBuildOk(s, w, t, p, i);
    } else if p.PopNext? && p.todo == [] {
      RetainCompletes(p.base, p.listed, w.cache);
      EditOk(s, w, PopulateTurn(w, t, p, i).0.cache);
    } else if p.PopNext? {
      assert p.todo == [p.todo[0]] + p.todo[1..];
    }
  }

  lemma PassTurnOk(s: Setup, w: Shared, t: ThreadId, p: PassPoint, i: Input)
    requires Knows(s, w, AtPass(p))
    ensures var (w', pc') := PassTurn(s, w, t, p, i); Knows(s, w', pc')
  {
  }

  lemma ScanStep(cfg: Config, k: Machine, cache: ProcessCache, todo: set<Pid>, seen: seq<Candidate>, best: Option<Candidate>,
                 pid: Pid, next: Candidate)
    requires CacheOk(k, cache) && Eligible(cfg, cache, pid) && next.handle == cache[pid].value
    requires SeenOk(cfg, k, cache, seen) && Covers(cfg, cache, todo, seen)
    requires if best.Some? then IsBest(seen, best.value) else seen == []
    ensures SeenOk(cfg, k, cache, seen + [next]) && Covers(cfg, cache, todo - {pid}, seen + [next])
    ensures IsBest(seen + [next], Better(best, next))
  {
  }

  lemma ScanTurnOk(s: Setup, w: Shared, t: ThreadId, p: OomPoint, i: Input)
    requires Knows(s, w, AtOom(p)) && p.OomScan?
    ensures var (w', pc') := OomTurn(s, w, t, p, i); Knows(s, w', pc')
  {
    if p.todo != {} {
      var pid := Pick(p.todo, i.pid);
      if Eligible(s.cfg, w.cache, pid) {
        var h := w.cache[pid].value;
        var next := Candidate(h, Used(ReadingOf(w.kernel, h, i.reading)));
        ScanStep(s.cfg, w.kernel, w.cache, p.todo, p.seen, p.best, pid, next);
      } else {
        assert Covers(s.cfg, p.snapshot, p.todo - {pid}, p.seen);
      }
    }
  }

  lemma StrikeTurnOk(s: Setup, w: Shared, t: ThreadId, p: OomPoint, i: Input)
    requires Knows(s, w, AtOom(p)) && (p.OomKill? || p.OomReap? || p.OomRepeat?)
    ensures var (w', pc') := OomTurn(s, w, t, p, i); Knows(s, w', pc')
  {
  }

  lemma OomTurnOk(s: Setup, w: Shared, t: ThreadId, p: OomPoint, i: Input)
    requires Knows(s, w, AtOom(p))
    ensures var (w', pc') := OomTurn(s, w, t, p, i); Knows(s, w', pc')
  {
    if p.OomScan? {
      ScanTurnOk(s, w, t, p, i);
    } else if p.OomKill? || p.OomReap? || p.OomRepeat? {
      StrikeTurnOk(s, w, t, p, i);
    } else if p.OomPoll? {
      NoUnderflowIff(w.kernel.stall, p.first);
    }
  }

  lemma EffectOk(s: Setup, w: Shared, t: ThreadId, pc: Pc, i: Input)
    requires Knows(s, w, pc)
    ensures var (w', pc') := EffectOf(s, w, t, pc, i); StepOk(s, w, pc, w', pc', t)
  {
    EffectDisciplined(s, w, t, pc, i);
    match pc {
      case AtMessage(p) => MessageTurnOk(s, w, t, p, i);
      case AtExit(p) => ExitTurnOk(s, w, t, p, i);
      case AtEvent(p) => EventTurnOk(s, w, t, p, i);
      case AtPopulate(p) => PopulateTurnOk(s, w, t, p, i);
      case AtPass(p) => PassTurnOk(s, w, t, p, i);
      case AtOom(p) => OomTurnOk(s, w, t, p, i);
      case Stopped =>
    }
  }

  lemma ApplyKeepsInvariant(s: Setup, w: World, a: Action)
    requires Invariant(s, w)
    ensures Invariant(s, Apply(s, w, a))
  {
    match a {
      case Outside(k, table) =>
        if Evolves(w.shared.kernel, k) { OutsideKeepsInvariant(s, w, k, table); }
      case Turn(t, i) =>
        if !w.shared.exited {
          EffectOk(s, w.shared, t, At(w, t), i);
          StepKeepsInvariant(s, w, TurnOf(s, w, t, i), t);
        }
    }
  }

  lemma {:induction false} InvariantHolds(s: Setup, kernel: Machine, actions: seq<Action>)
    requires kernel.Valid()
    ensures Invariant(s, Run(s, kernel, actions))
  {
    if actions == [] {
    } else {
      InvariantHolds(s, kernel, actions[..|actions| - 1]);
      ApplyKeepsInvariant(s, Run(s, kernel, actions[..|actions| - 1]), actions[|actions| - 1]);
    }
  }

  // ---- what follows for every run

  /**
   Every handle in the cache, however it was built and whatever happened in the
   meantime, sits under its own pid and refers through both descriptors to one
   instance that holds or held this pid; no instance is cached twice.
   */
  lemma CachedHandlesAreSound(s: Setup, kernel: Machine, actions: seq<Action>)
    requires kernel.Valid()
    ensures var w := Run(s, kernel, actions).shared;
            && (forall pid | Present(w.cache, pid) ::
                  var h := w.cache[pid].value;
                  h.pid == pid && h.pidfd == h.procDir && w.kernel.HasPid(h.procDir, pid))
            && WellKeyed(w.cache)
  {
    InvariantHolds(s, kernel, actions);
  }

  /**
   However the threads and the outside are interleaved, a populate call that is
   about to release its lock has turned the cache it found into what the call
   makes of it in one go.
   */
  lemma PopulateIsAtomic(s: Setup, kernel: Machine, actions: seq<Action>, t: ThreadId)
    requires kernel.Valid()
    ensures var w := Run(s, kernel, actions);
            var pc := At(w, t);
            pc.AtPopulate? && pc.populate.PopDropCache? ==>
              exists lookups :: w.shared.cache == Populated(pc.populate.base, AsSet(pc.populate.listed), lookups)
  {
    InvariantHolds(s, kernel, actions);
    var w := Run(s, kernel, actions);
    assert PointOk(s, w.shared.kernel, w.shared.cache, At(w, t));
  }

  /**
   Likewise an event has changed at most the entry it names: an exit has removed
   it, an exec has replaced it. So the lemmas about editing one entry apply.
   */
  lemma EventIsAtomic(s: Setup, kernel: Machine, actions: seq<Action>, t: ThreadId)
    requires kernel.Valid()
    ensures var w := Run(s, kernel, actions);
            var pc := At(w, t);
            pc.AtEvent? && pc.event.EventDropCache? ==>
              match pc.event.event
              case Exec(pid, tgid) =>
                AgreeExcept(pc.event.base, w.shared.cache, pid) && (if pid == tgid then pid in w.shared.cache else w.shared.cache == pc.event.base)
              case Exit(pid) => AgreeExcept(pc.event.base, w.shared.cache, pid) && pid !in w.shared.cache
              case OtherEvent => w.shared.cache == pc.event.base
  {
    InvariantHolds(s, kernel, actions);
    var w := Run(s, kernel, actions);
    assert PointOk(s, w.shared.kernel, w.shared.cache, At(w, t));
  }

  /** Thread `t` stands where it stood, and what it has locked is as it was. */
  predicate StaysFor(w: World, w': World, t: ThreadId) {
    && At(w', t) == At(w, t)
    && (w.shared.cacheOwner == Some(t) ==> w'.shared.cacheOwner == Some(t) && w'.shared.cache == w.shared.cache)
    && (w.shared.stateOwner == Some(t) ==> w'.shared.stateOwner == Some(t) && w'.shared.state == w.shared.state)
  }

  /** The cache and the state change only by a step of the thread that owns the mutex. */
  lemma ChangesNeedTheLock(s: Setup, w: World, a: Action, t: ThreadId)
    requires LocksOk(w) && (a.Turn? ==> a.thread != t)
    ensures StaysFor(w, Apply(s, w, a), t)
  {
    if a.Turn? && !w.shared.exited {
      var u := a.thread;
      EffectDisciplined(s, w.shared, u, At(w, u), a.input);
      assert w.shared.cacheOwner == Some(t) <==> HoldsCache(At(w, t));
      assert w.shared.stateOwner == Some(t) <==> HoldsState(At(w, t));
      assert w.shared.cacheOwner == Some(u) <==> HoldsCache(At(w, u));
      assert w.shared.stateOwner == Some(u) <==> HoldsState(At(w, u));
    }
  }

  lemma RunOneMore(s: Setup, kernel: Machine, actions: seq<Action>, a: Action)
    ensures Run(s, kernel, actions + [a]) == Apply(s, Run(s, kernel, actions), a)
  {
  }

  ghost predicate KeptByOne(p: seq<Action> -> bool, actions: seq<Action>, a: Action) {
    p(actions) ==> p(actions + [a])
  }

  /** What each of the later actions keeps, all of them keep. */
  lemma {:induction false} KeptAlong(p: seq<Action> -> bool, actions: seq<Action>, later: seq<Action>)
    requires p(actions) && forall k | 0 <= k < |later| :: KeptByOne(p, actions + later[..k], later[k])
    ensures p(actions + later)
  {
    if later == [] {
      assert actions + later == actions;
    } else {
      var n := |later| - 1;
      assert forall k | 0 <= k < n :: later[..n][..k] == later[..k] && later[..n][k] == later[k];
      KeptAlong(p, actions, later[..n]);
      assert KeptByOne(p, actions + later[..n], later[n]);
      assert actions + later == actions + later[..n] + [later[n]];
    }
  }

  ghost predicate NoTurnOf(actions: seq<Action>, t: ThreadId) {
    forall a | a in actions :: a.Turn? ==> a.thread != t
  }

  /** While a thread owns a mutex and is not scheduled, what the mutex guards stays as the thread saw it, for any number of steps of the others. */
  lemma {:induction false} SnapshotsAreConsistent(s: Setup, kernel: Machine, before: seq<Action>, others: seq<Action>, t: ThreadId)
    requires kernel.Valid() && NoTurnOf(others, t)
    ensures StaysFor(Run(s, kernel, before), Run(s, kernel, before + others), t)
  {
    if others == [] {
      assert before + others == before;
    } else {
      var n := |others| - 1;
      var a := others[n];
      var most := before + others[..n];
      assert a in others;
      SnapshotsAreConsistent(s, kernel, before, others[..n], t);
      assert before + others == most + [a];
      RunOneMore(s, kernel, most, a);
      InvariantHolds(s, kernel, most);
      ChangesNeedTheLock(s, Run(s, kernel, most), a, t);
    }
  }
}
