/** What one message, one process event, one populate call and the listing of cleanup come to: their steps taken together, with everything else in between. */
module DaemonHandlers {
  import opened Wrappers
  import opened Kernel
  import opened ProcessHandles
  import opened Ancestry
  import opened Config
  import opened Scheduling
  import opened FullPass
  import opened Adjuster
  import opened Daemon
  import opened DaemonSafety
  import opened DaemonSchedules
  import opened DaemonCleanup
  import opened Population

  /** One update: the handle built for it, the cache as it was, and what was granted. */
  datatype Made = Made(handle: Handle, cache: ProcessCache, grants: Grants)

  /** What a step can bring: a call of `from_pid` comes to an end, or an update is made. */
  datatype Seen = LookedUp(builder: Builder) | UpdateMade(made: Made)

  function LookupAt(pc: Pc): Option<Builder> {
    match pc
    case AtMessage(MsgBuild(_, b)) => Some(b)
    case AtEvent(EventBuild(_, b)) => Some(b)
    case AtPopulate(PopBuild(_, _, _, b)) => Some(b)
    case AtExit(ExitBuild(_, _, b)) => Some(b)
    case _ => None
  }

  ghost predicate Brings(w: World, a: Action, t: ThreadId, seen: Seen) {
    && a.Turn? && a.thread == t && !w.shared.exited
    && match seen
       case LookedUp(b) =>
         LookupAt(At(w, t)).Some? && !Pending(b) && b == Advance(w.shared.kernel, LookupAt(At(w, t)).value, a.input.granted)
       case UpdateMade(made) =>
         UpdateHandle(w.shared, At(w, t)) == Some(made.handle) && made.cache == w.shared.cache && made.grants == a.input.grants
  }

  ghost predicate BroughtAt(s: Setup, kernel: Machine, actions: seq<Action>, k: nat, t: ThreadId, seen: Seen)
    requires k < |actions|
  {
    Brings(Run(s, kernel, actions[..k]), actions[k], t, seen)
  }

  ghost predicate BroughtSince(s: Setup, kernel: Machine, actions: seq<Action>, from: nat, t: ThreadId, seen: Seen) {
    exists k :: from <= k < |actions| && BroughtAt(s, kernel, actions, k, t, seen)
  }

  /** What the thread's steps from number `from` on have brought. */
  ghost function Brought(s: Setup, kernel: Machine, actions: seq<Action>, from: nat, t: ThreadId): iset<Seen> {
    iset seen: Seen | BroughtSince(s, kernel, actions, from, t, seen)
  }

  lemma BroughtGrows(s: Setup, kernel: Machine, so: seq<Action>, a: Action, from: nat, t: ThreadId)
    requires from <= |so|
    ensures Brought(s, kernel, so, from, t) <= Brought(s, kernel, so + [a], from, t)
    ensures forall seen | Brings(Run(s, kernel, so), a, t, seen) :: seen in Brought(s, kernel, so + [a], from, t)
  {
    forall seen | seen in Brought(s, kernel, so, from, t) ensures seen in Brought(s, kernel, so + [a], from, t) {
      var k :| from <= k < |so| && BroughtAt(s, kernel, so, k, t, seen);
      assert so[..k] == (so + [a])[..k];
      assert BroughtAt(s, kernel, so + [a], k, t, seen);
    }
    forall seen | Brings(Run(s, kernel, so), a, t, seen) ensures seen in Brought(s, kernel, so + [a], from, t) {
      assert (so + [a])[..|so|] == so;
      assert BroughtAt(s, kernel, so + [a], |so|, t, seen);
    }
  }

  /** Nobody else changes schedules, and the daemon is not ending. */
  ghost predicate LeftAlone(w: World, a: Action, w': World) {
    w'.shared.running && (a.Outside? ==> w'.shared.table == w.shared.table)
  }

  /** It has not come to an end before its last step, and all of the time it was left alone. */
  ghost predicate Undisturbed(s: Setup, kernel: Machine, start: seq<Action>, later: seq<Action>, t: ThreadId) {
    forall k | 0 <= k < |later| :: UndisturbedBy(s, kernel, start + later[..k], later[k], t)
  }

  predicate Over(pc: Pc) {
    pc == AtMessage(MsgTop) || pc == AtEvent(EventDropState) || pc.Stopped?
  }

  ghost predicate UndisturbedBy(s: Setup, kernel: Machine, so: seq<Action>, a: Action, t: ThreadId) {
    !Over(At(Run(s, kernel, so), t)) && LeftAlone(Run(s, kernel, so), a, Run(s, kernel, so + [a]))
  }

  // ---- messages

  /** The table after these updates in turn. */
  ghost function Through(cfg: Config, state: State, made: seq<Made>, table: Table): Table {
    if made == [] then table
    else
      var n := |made| - 1;
      var last := made[n];
      Reclassify(cfg, ClassIn(cfg, state, last.handle, last.cache), last.handle, Through(cfg, state, made[..n], table), last.grants)
  }

  function PidsMade(made: seq<Made>): seq<Pid> {
    seq(|made|, i requires 0 <= i < |made| => made[i].handle.pid)
  }

  function StateAfter(state: State, message: Message): State {
    match message
    case SetForegroundPid(pid) => state.(foregroundPid := pid)
    case SetClientPid(pid) => state.(clientPid := Some(pid))
  }

  function Targets(state: State, message: Message): seq<Pid> {
    match message case SetForegroundPid(pid) => ForegroundTargets(state.foregroundPid, pid) case SetClientPid(_) => []
  }

  /** The pids still to be dealt with, the one at hand first. */
  function StillToDo(p: MessagePoint): seq<Pid> {
    match p
    case MsgNext(todo) => todo
    case MsgBuild(todo, b) => [b.pid] + todo
    case MsgWantCache(todo, h) => [h.pid] + todo
    case MsgUpdate(todo, h) => [h.pid] + todo
    case _ => []
  }

  /** The point is one of those after the state was changed. */
  predicate UnderWay(p: MessagePoint) {
    p.MsgTop? || p.MsgNext? || p.MsgBuild? || p.MsgWantCache? || p.MsgUpdate?
  }

  /** These updates were made, in the order of the targets, each with a handle that was built for it. */
  ghost predicate AllMade(made: seq<Made>, brought: iset<Seen>) {
    forall m | m in made :: UpdateMade(m) in brought && LookedUp(Built(m.handle.pid, m.handle)) in brought
  }

  /** Where the thread is, seen from the updates that it has made. */
  ghost predicate Where(targets: seq<Pid>, p: MessagePoint, made: seq<Made>, brought: iset<Seen>) {
    && UnderWay(p)
    && (if p.MsgTop? then
          var done := PidsMade(made);
          done == targets || (done < targets && LookedUp(Failed(targets[|done|])) in brought)
        else PidsMade(made) + StillToDo(p) == targets)
    && (p.MsgWantCache? ==> LookedUp(Built(p.handle.pid, p.handle)) in brought)
    && (p.MsgUpdate? ==> LookedUp(Built(p.handle.pid, p.handle)) in brought)
  }

  /** How far the message has got that was begun in `w0`. */
  ghost predicate ProgressWith(s: Setup, w0: Shared, message: Message, w: World, made: seq<Made>, brought: iset<Seen>) {
    && At(w, Socket).AtMessage?
    && w.shared.state == StateAfter(w0.state, message)
    && w.shared.table == Through(s.cfg, StateAfter(w0.state, message), made, w0.table)
    && AllMade(made, brought)
    && Where(Targets(w0.state, message), At(w, Socket).message, made, brought)
  }

  ghost predicate Progress(s: Setup, w0: Shared, message: Message, w: World, brought: iset<Seen>) {
    exists made :: ProgressWith(s, w0, message, w, made, brought)
  }

  lemma Begins(s: Setup, w: World, i: Input)
    requires !w.shared.exited && At(w, Socket).AtMessage? && At(w, Socket).message.MsgHandle?
    ensures Progress(s, w.shared, At(w, Socket).message.message, TurnOf(s, w, Socket, i), iset{})
  {
    var message, w' := At(w, Socket).message.message, TurnOf(s, w, Socket, i);
    assert PidsMade([]) + Targets(w.shared.state, message) == Targets(w.shared.state, message);
    assert ProgressWith(s, w.shared, message, w', [], iset{});
  }

  lemma NextGoesOn(s: Setup, w0: Shared, message: Message, w: World, i: Input, made: seq<Made>, brought: iset<Seen>)
    requires !w.shared.exited && ProgressWith(s, w0, message, w, made, brought) && At(w, Socket).message.MsgNext?
    ensures ProgressWith(s, w0, message, TurnOf(s, w, Socket, i), made, brought)
  {
    var p := At(w, Socket).message;
    if p.todo != [] {
      assert [p.todo[0]] + p.todo[1..] == p.todo;
    } else {
      assert PidsMade(made) + [] == PidsMade(made);
    }
  }

  lemma BuildGoesOn(s: Setup, w0: Shared, message: Message, w: World, i: Input, made: seq<Made>, brought: iset<Seen>)
    requires Invariant(s, w) && !w.shared.exited && ProgressWith(s, w0, message, w, made, brought) && At(w, Socket).message.MsgBuild?
    requires forall seen | Brings(w, Turn(Socket, i), Socket, seen) :: seen in brought
    ensures ProgressWith(s, w0, message, TurnOf(s, w, Socket, i), made, brought)
  {
    var p := At(w, Socket).message;
    var b, done, targets := Advance(w.shared.kernel, p.builder, i.granted), PidsMade(made), Targets(w0.state, message);
    assert PointOk(s, w.shared.kernel, w.shared.cache, At(w, Socket));
    AdvanceKeepsOk(w.shared.kernel, p.builder, i.granted);
    assert targets == done + ([b.pid] + p.todo);
    if !Pending(b) { assert Brings(w, Turn(Socket, i), Socket, LookedUp(b)); }
    if b.Failed? {
      assert done < targets && targets[|done|] == b.pid;
    }
  }

  lemma OneMoreMade(cfg: Config, state: State, made: seq<Made>, last: Made, table: Table, targets: seq<Pid>, todo: seq<Pid>, brought: iset<Seen>)
    requires Where(targets, MsgUpdate(todo, last.handle), made, brought) && AllMade(made, brought) && UpdateMade(last) in brought
    ensures Where(targets, MsgNext(todo), made + [last], brought) && AllMade(made + [last], brought)
    ensures Through(cfg, state, made + [last], table)
         == Reclassify(cfg, ClassIn(cfg, state, last.handle, last.cache), last.handle, Through(cfg, state, made, table), last.grants)
  {
    assert (made + [last])[..|made|] == made;
    assert PidsMade(made + [last]) == PidsMade(made) + [last.handle.pid];
    assert PidsMade(made) + [last.handle.pid] + todo == PidsMade(made) + ([last.handle.pid] + todo);
  }

  lemma UpdateGoesOn(s: Setup, w0: Shared, message: Message, w: World, i: Input, made: seq<Made>, brought: iset<Seen>)
    requires !w.shared.exited && ProgressWith(s, w0, message, w, made, brought) && At(w, Socket).message.MsgUpdate?
    requires forall seen | Brings(w, Turn(Socket, i), Socket, seen) :: seen in brought
    ensures Progress(s, w0, message, TurnOf(s, w, Socket, i), brought)
  {
    var p, w' := At(w, Socket).message, TurnOf(s, w, Socket, i);
    if Decidable(s.cfg, w.shared.state, p.handle, w.shared.cache) {
      var last := Made(p.handle, w.shared.cache, i.grants);
      assert Brings(w, Turn(Socket, i), Socket, UpdateMade(last));
      OneMoreMade(s.cfg, w.shared.state, made, last, w0.table, Targets(w0.state, message), p.todo, brought);
      assert ProgressWith(s, w0, message, w', made + [last], brought);
    } else {
      assert ProgressWith(s, w0, message, w', made, brought);
    }
  }

  lemma OwnTurnGoesOn(s: Setup, w0: Shared, message: Message, w: World, i: Input, brought: iset<Seen>)
    requires Invariant(s, w) && !w.shared.exited && Progress(s, w0, message, w, brought) && !At(w, Socket).message.MsgTop?
    requires forall seen | Brings(w, Turn(Socket, i), Socket, seen) :: seen in brought
    ensures Progress(s, w0, message, TurnOf(s, w, Socket, i), brought)
  {
    var made :| ProgressWith(s, w0, message, w, made, brought);
    match At(w, Socket).message {
      case MsgNext(_) => NextGoesOn(s, w0, message, w, i, made, brought);
      case MsgBuild(_, _) => BuildGoesOn(s, w0, message, w, i, made, brought);
      case MsgUpdate(_, _) => UpdateGoesOn(s, w0, message, w, i, made, brought);
      case MsgWantCache(_, _) =>
    }
    if !At(w, Socket).message.MsgUpdate? { assert ProgressWith(s, w0, message, TurnOf(s, w, Socket, i), made, brought); }
  }

  /** While the thread owns the state lock nobody else writes state or table, unless the daemon is ending. */
  lemma OthersLeaveProgress(s: Setup, w0: Shared, message: Message, w: World, t: ThreadId, i: Input, brought: iset<Seen>)
    requires Invariant(s, w) && EndingOk(w) && Progress(s, w0, message, w, brought) && !At(w, Socket).message.MsgTop?
    requires t != Socket && w.shared.running
    ensures Progress(s, w0, message, TurnOf(s, w, t, i), brought)
  {
    var made :| ProgressWith(s, w0, message, w, made, brought);
    var w' := TurnOf(s, w, t, i);
    if !w.shared.exited {
      EffectChanges(s, w.shared, t, At(w, t), i);
      assert w.shared.stateOwner == Some(t) <==> HoldsState(At(w, t));
      assert w.shared.stateOwner == Some(Socket) <==> HoldsState(At(w, Socket));
      assert AtReset(At(w, t)) ==> SignalSeen(At(w, t));
    }
    assert ProgressWith(s, w0, message, w', made, brought);
  }

  lemma ActionGoesOn(s: Setup, w0: Shared, message: Message, w: World, a: Action, brought: iset<Seen>)
    requires Invariant(s, w) && EndingOk(w) && Progress(s, w0, message, w, brought) && !At(w, Socket).message.MsgTop?
    requires LeftAlone(w, a, Apply(s, w, a)) && forall seen | Brings(w, a, Socket, seen) :: seen in brought
    ensures Progress(s, w0, message, Apply(s, w, a), brought)
  {
    match a {
      case Outside(_, _) =>
        var made :| ProgressWith(s, w0, message, w, made, brought);
        assert At(Apply(s, w, a), Socket) == At(w, Socket);
        assert ProgressWith(s, w0, message, Apply(s, w, a), made, brought);
      case Turn(t, i) =>
        if w.shared.exited {
        } else if t == Socket {
          OwnTurnGoesOn(s, w0, message, w, i, brought);
        } else {
          EffectKeeps(s, w.shared, t, At(w, t), i);
          OthersLeaveProgress(s, w0, message, w, t, i, brought);
        }
    }
  }

  /** With more brought the same progress is made. */
  lemma MoreBrought(s: Setup, w0: Shared, message: Message, w: World, brought: iset<Seen>, more: iset<Seen>)
    requires Progress(s, w0, message, w, brought) && brought <= more
    ensures Progress(s, w0, message, w, more)
  {
    var made :| ProgressWith(s, w0, message, w, made, brought);
    assert ProgressWith(s, w0, message, w, made, more);
  }

  ghost predicate ProgressIn(s: Setup, kernel: Machine, actions: seq<Action>, from: nat, w0: Shared, message: Message) {
    from <= |actions| && Progress(s, w0, message, Run(s, kernel, actions), Brought(s, kernel, actions, from, Socket))
  }

  lemma StepGoesOn(s: Setup, kernel: Machine, so: seq<Action>, a: Action, from: nat, w0: Shared, message: Message)
    requires kernel.Valid() && ProgressIn(s, kernel, so, from, w0, message) && UndisturbedBy(s, kernel, so, a, Socket)
    ensures ProgressIn(s, kernel, so + [a], from, w0, message)
  {
    InvariantHolds(s, kernel, so);
    EndingHolds(s, kernel, so);
    RunOneMore(s, kernel, so, a);
    BroughtGrows(s, kernel, so, a, from, Socket);
    var more := Brought(s, kernel, so + [a], from, Socket);
    MoreBrought(s, w0, message, Run(s, kernel, so), Brought(s, kernel, so, from, Socket), more);
    ActionGoesOn(s, w0, message, Run(s, kernel, so), a, more);
  }

  lemma MessageGoesOn(s: Setup, kernel: Machine, start: seq<Action>, later: seq<Action>, w0: Shared, message: Message)
    requires kernel.Valid() && ProgressIn(s, kernel, start, |start|, w0, message) && Undisturbed(s, kernel, start, later, Socket)
    ensures ProgressIn(s, kernel, start + later, |start|, w0, message)
  {
    var p := (actions: seq<Action>) => ProgressIn(s, kernel, actions, |start|, w0, message);
    forall k | 0 <= k < |later| ensures KeptByOne(p, start + later[..k], later[k]) {
      assert UndisturbedBy(s, kernel, start + later[..k], later[k], Socket);
      if p(start + later[..k]) { StepGoesOn(s, kernel, start + later[..k], later[k], |start|, w0, message); }
    }
    KeptAlong(p, start, later);
  }

  // ---- and that is what the method does

  /** What the method is given for this message: the handles that could be built and the caches it found; each was really built and found. */
  ghost predicate Given(prev: Option<Pid>, pid: Option<Pid>, lookups: map<Pid, Handle>, first: Made, second: Made, brought: iset<Seen>) {
    && LookupsOk(lookups) && (forall q | q in lookups :: LookedUp(Built(q, lookups[q])) in brought)
    && (forall h | h in NewTarget(prev, pid, lookups) :: first.handle == h && UpdateMade(first) in brought)
    && (forall h | h in PrevTarget(prev, pid, lookups) :: second.handle == h && UpdateMade(second) in brought)
    && (!MessageSucceeds(prev, pid, lookups) ==>
          LookedUp(Failed(if pid.Some? && pid.value !in lookups then pid.value else prev.value)) in brought)
  }

  /** State and table are what `ProcessMessage` promises. */
  ghost predicate Processed(s: Setup, w0: Shared, message: Message, w: Shared, lookups: map<Pid, Handle>,
                            first: Made, second: Made, brought: iset<Seen>) {
    && w.state == StateAfter(w0.state, message)
    && match message
       case SetClientPid(_) => w.table == w0.table
       case SetForegroundPid(pid) =>
         var prev := w0.state.foregroundPid;
         && Given(prev, pid, lookups, first, second, brought)
         && w.table == UpdateEach(s.cfg, w.state, second.cache, PrevTarget(prev, pid, lookups),
                                  UpdateEach(s.cfg, w.state, first.cache, NewTarget(prev, pid, lookups), w0.table, first.grants), second.grants)
  }

  ghost predicate IsProcessed(s: Setup, w0: Shared, message: Message, w: Shared, brought: iset<Seen>) {
    exists lookups, first, second :: Processed(s, w0, message, w, lookups, first, second, brought)
  }

  lemma UpdateOne(cfg: Config, state: State, made: Made, table: Table)
    ensures UpdateEach(cfg, state, made.cache, [made.handle], table, made.grants) == Through(cfg, state, [made], table)
    ensures UpdateEach(cfg, state, made.cache, [], table, made.grants) == Through(cfg, state, [], table) == table
  {
    assert [made][..0] == [] && [made.handle][1..] == [];
  }

  lemma UpdateTwo(cfg: Config, state: State, a: Made, b: Made, table: Table)
    ensures UpdateEach(cfg, state, b.cache, [b.handle], UpdateEach(cfg, state, a.cache, [a.handle], table, a.grants), b.grants)
            == Through(cfg, state, [a, b], table)
  {
    UpdateOne(cfg, state, a, table);
    UpdateOne(cfg, state, b, Through(cfg, state, [a], table));
    assert [a, b][..1] == [a] && [b][..0] == [];
  }

  /** No update was made, one, or two: what the method was given, and what it leaves. */
  lemma NoneIsProcessed(s: Setup, w0: Shared, message: Message, w: World, none: Made, brought: iset<Seen>)
    requires ProgressWith(s, w0, message, w, [], brought) && At(w, Socket) == AtMessage(MsgTop)
    ensures Processed(s, w0, message, w.shared, map[], none, none, brought)
  {
    UpdateOne(s.cfg, w.shared.state, none, w0.table);
    assert PidsMade([]) == [];
  }

  lemma OneIsProcessed(s: Setup, w0: Shared, message: Message, w: World, a: Made, brought: iset<Seen>)
    requires ProgressWith(s, w0, message, w, [a], brought) && At(w, Socket) == AtMessage(MsgTop)
    ensures Processed(s, w0, message, w.shared, map[a.handle.pid := a.handle], a, a, brought)
  {
    var targets := Targets(w0.state, message);
    assert PidsMade([a]) == [a.handle.pid];
    assert a in [a] && targets[0] == a.handle.pid;
    UpdateOne(s.cfg, w.shared.state, a, w0.table);
    UpdateOne(s.cfg, w.shared.state, a, w.shared.table);
  }

  lemma TwoAreProcessed(s: Setup, w0: Shared, message: Message, w: World, a: Made, b: Made, brought: iset<Seen>)
    requires ProgressWith(s, w0, message, w, [a, b], brought) && At(w, Socket) == AtMessage(MsgTop)
    ensures Processed(s, w0, message, w.shared, map[a.handle.pid := a.handle, b.handle.pid := b.handle], a, b, brought)
  {
    var targets := Targets(w0.state, message);
    assert PidsMade([a, b]) == [a.handle.pid, b.handle.pid];
    assert a in [a, b] && b in [a, b] && targets[0] == a.handle.pid && targets[1] == b.handle.pid;
    UpdateTwo(s.cfg, w.shared.state, a, b, w0.table);
  }

  /** There are at most two targets. */
  lemma FewMade(targets: seq<Pid>, p: MessagePoint, made: seq<Made>, brought: iset<Seen>)
    requires Where(targets, p, made, brought) && p.MsgTop? && |targets| <= 2
    ensures made == [] || made == [made[0]] || made == [made[0], made[1]]
  {
    assert |PidsMade(made)| == |made|;
  }

  lemma AllIsProcessed(s: Setup, w0: Shared, message: Message, w: World, made: seq<Made>, none: Made, brought: iset<Seen>)
    returns (lookups: map<Pid, Handle>, first: Made, second: Made)
    requires ProgressWith(s, w0, message, w, made, brought) && At(w, Socket) == AtMessage(MsgTop)
    ensures Processed(s, w0, message, w.shared, lookups, first, second, brought)
  {
    FewMade(Targets(w0.state, message), MsgTop, made, brought);
    if made == [] {
      NoneIsProcessed(s, w0, message, w, none, brought);
      return map[], none, none;
    }
    var a := made[0];
    if made == [a] {
      OneIsProcessed(s, w0, message, w, a, brought);
      return map[a.handle.pid := a.handle], a, a;
    }
    var b := made[1];
    TwoAreProcessed(s, w0, message, w, a, b, brought);
    return map[a.handle.pid := a.handle, b.handle.pid := b.handle], a, b;
  }

  /**
   Whatever else happens between its steps: when the message thread is done with a
   message, state and table are as `process_message` leaves them for handles it
   has built and caches it has found, unless somebody else changed schedules or
   the daemon is ending. It returns early only from a pid that could not be looked up.
   */
  lemma MessageIsProcessed(s: Setup, kernel: Machine, before: seq<Action>, i: Input, later: seq<Action>)
    requires kernel.Valid()
    requires var w0 := Run(s, kernel, before); !w0.shared.exited && At(w0, Socket).AtMessage? && At(w0, Socket).message.MsgHandle?
    requires Undisturbed(s, kernel, before + [Turn(Socket, i)], later, Socket)
    requires At(Run(s, kernel, before + [Turn(Socket, i)] + later), Socket) == AtMessage(MsgTop)
    ensures var w0, actions := Run(s, kernel, before), before + [Turn(Socket, i)] + later;
            IsProcessed(s, w0.shared, At(w0, Socket).message.message, Run(s, kernel, actions).shared,
                        Brought(s, kernel, actions, |before| + 1, Socket))
  {
    var w0, start := Run(s, kernel, before), before + [Turn(Socket, i)];
    var message := At(w0, Socket).message.message;
    Begins(s, w0, i);
    RunOneMore(s, kernel, before, Turn(Socket, i));
    MoreBrought(s, w0.shared, message, Run(s, kernel, start), iset{}, Brought(s, kernel, start, |start|, Socket));
    MessageGoesOn(s, kernel, start, later, w0.shared, message);
    var w, brought := Run(s, kernel, start + later), Brought(s, kernel, start + later, |start|, Socket);
    var made :| ProgressWith(s, w0.shared, message, w, made, brought);
    var lookups, first, second := AllIsProcessed(s, w0.shared, message, w, made, Made(Handle(0, 0, None, 0, 0), map[], i.grants), brought);
  }
  // ---- process events

  /** What an event has come to: cache and schedules as the handler leaves them, given what was looked up and granted. */
  ghost predicate EventCameTo(s: Setup, w0: Shared, event: Event, w: Shared, brought: iset<Seen>) {
    match event
    case Exec(pid, tgid) =>
      if pid != tgid then w.cache == w0.cache && w.table == w0.table
      else
        || (w.cache == w0.cache[pid := None] && w.table == w0.table && LookedUp(Failed(pid)) in brought)
        || exists made :: ExecCameTo(s, w0, pid, w, made, brought)
    case Exit(pid) => w.cache == w0.cache - {pid} && w.table == w0.table
    case OtherEvent => w.cache == w0.cache && w.table == w0.table
  }

  /** The new handle has replaced the entry, and with it in place its process was updated. */
  ghost predicate ExecCameTo(s: Setup, w0: Shared, pid: Pid, w: Shared, made: Made, brought: iset<Seen>) {
    && LookedUp(Built(pid, made.handle)) in brought && UpdateMade(made) in brought
    && w.cache == made.cache == w0.cache[pid := Some(made.handle)]
    && w.table == Reclassify(s.cfg, ClassIn(s.cfg, w0.state, made.handle, made.cache), made.handle, w0.table, made.grants)
  }

  /** How far the event has got that was found in `w0`. */
  ghost predicate Handling(s: Setup, w0: Shared, event: Event, w: World, brought: iset<Seen>) {
    && w.shared.state == w0.state && At(w, Procmon).AtEvent?
    && match At(w, Procmon).event
       case EventHandle(e) => e == event && w.shared.cache == w0.cache && w.shared.table == w0.table
       case EventBuild(_, b) => event == Exec(b.pid, b.pid) && w.shared.cache == w0.cache && w.shared.table == w0.table
       case EventUpdate(_, h) =>
         && event == Exec(h.pid, h.pid) && LookedUp(Built(h.pid, h)) in brought
         && w.shared.cache == w0.cache[h.pid := Some(h)] && w.shared.table == w0.table
       case EventDropCache(_, _) => EventCameTo(s, w0, event, w.shared, brought)
       case EventDropState => true
       case _ => false
  }

  lemma MoreForEvent(s: Setup, w0: Shared, event: Event, w: World, brought: iset<Seen>, more: iset<Seen>)
    requires Handling(s, w0, event, w, brought) && brought <= more
    ensures Handling(s, w0, event, w, more)
  {
    if event.Exec? && exists made :: ExecCameTo(s, w0, event.pid, w.shared, made, brought) {
      var made :| ExecCameTo(s, w0, event.pid, w.shared, made, brought);
      assert ExecCameTo(s, w0, event.pid, w.shared, made, more);
    }
  }

  lemma EventBuildGoesOn(s: Setup, w0: Shared, event: Event, w: World, i: Input, brought: iset<Seen>)
    requires Invariant(s, w) && !w.shared.exited && Handling(s, w0, event, w, brought) && At(w, Procmon).event.EventBuild?
    requires forall seen | Brings(w, Turn(Procmon, i), Procmon, seen) :: seen in brought
    ensures Handling(s, w0, event, TurnOf(s, w, Procmon, i), brought)
  {
    var p := At(w, Procmon).event;
    var b := Advance(w.shared.kernel, p.builder, i.granted);
    assert PointOk(s, w.shared.kernel, w.shared.cache, At(w, Procmon));
    AdvanceKeepsOk(w.shared.kernel, p.builder, i.granted);
    if !Pending(b) { assert Brings(w, Turn(Procmon, i), Procmon, LookedUp(b)); }
  }

  lemma EventStepGoesOn(s: Setup, w0: Shared, event: Event, w: World, i: Input, brought: iset<Seen>)
    requires Invariant(s, w) && !w.shared.exited && Handling(s, w0, event, w, brought) && !Over(At(w, Procmon))
    requires forall seen | Brings(w, Turn(Procmon, i), Procmon, seen) :: seen in brought
    ensures Handling(s, w0, event, TurnOf(s, w, Procmon, i), brought)
  {
    var p, w' := At(w, Procmon).event, TurnOf(s, w, Procmon, i);
    if p.EventBuild? {
      EventBuildGoesOn(s, w0, event, w, i, brought);
    } else if p.EventUpdate? {
      var made := Made(p.handle, w.shared.cache, i.grants);
      assert Brings(w, Turn(Procmon, i), Procmon, UpdateMade(made));
      if Decidable(s.cfg, w.shared.state, p.handle, w.shared.cache) {
        assert ExecCameTo(s, w0, event.pid, w'.shared, made, brought);
      }
    }
  }

  /** The thread owns both mutexes. */
  lemma OthersLeaveEvent(s: Setup, w0: Shared, event: Event, w: World, t: ThreadId, i: Input, brought: iset<Seen>)
    requires Invariant(s, w) && EndingOk(w) && Handling(s, w0, event, w, brought) && !Over(At(w, Procmon))
    requires t != Procmon && w.shared.running
    ensures Handling(s, w0, event, TurnOf(s, w, t, i), brought)
  {
    if !w.shared.exited {
      EffectChanges(s, w.shared, t, At(w, t), i);
      assert w.shared.stateOwner == Some(t) <==> HoldsState(At(w, t));
      assert w.shared.stateOwner == Some(Procmon) <==> HoldsState(At(w, Procmon));
      assert w.shared.cacheOwner == Some(t) <==> HoldsCache(At(w, t));
      assert w.shared.cacheOwner == Some(Procmon) <==> HoldsCache(At(w, Procmon));
      assert AtReset(At(w, t)) ==> SignalSeen(At(w, t));
    }
    SameForEvent(s, w0, event, w, TurnOf(s, w, t, i), brought);
  }

  lemma SameForEvent(s: Setup, w0: Shared, event: Event, w: World, w': World, brought: iset<Seen>)
    requires Handling(s, w0, event, w, brought) && At(w', Procmon) == At(w, Procmon)
    requires w'.shared.cache == w.shared.cache && w'.shared.table == w.shared.table && w'.shared.state == w.shared.state
    ensures Handling(s, w0, event, w', brought)
  {
    if event.Exec? && exists made :: ExecCameTo(s, w0, event.pid, w.shared, made, brought) {
      var made :| ExecCameTo(s, w0, event.pid, w.shared, made, brought);
      assert ExecCameTo(s, w0, event.pid, w'.shared, made, brought);
    }
  }

  lemma ActionLeavesEvent(s: Setup, w0: Shared, event: Event, w: World, a: Action, brought: iset<Seen>)
    requires Invariant(s, w) && EndingOk(w) && Handling(s, w0, event, w, brought) && !Over(At(w, Procmon))
    requires LeftAlone(w, a, Apply(s, w, a)) && forall seen | Brings(w, a, Procmon, seen) :: seen in brought
    ensures Handling(s, w0, event, Apply(s, w, a), brought)
  {
    match a {
      case Outside(_, _) =>
        assert At(Apply(s, w, a), Procmon) == At(w, Procmon);
        SameForEvent(s, w0, event, w, Apply(s, w, a), brought);
      case Turn(t, i) =>
        if w.shared.exited {
        } else if t == Procmon {
          EventStepGoesOn(s, w0, event, w, i, brought);
        } else {
          EffectKeeps(s, w.shared, t, At(w, t), i);
          OthersLeaveEvent(s, w0, event, w, t, i, brought);
        }
    }
  }

  ghost predicate HandlingIn(s: Setup, kernel: Machine, actions: seq<Action>, from: nat, w0: Shared, event: Event) {
    from <= |actions| && Handling(s, w0, event, Run(s, kernel, actions), Brought(s, kernel, actions, from, Procmon))
  }

  lemma EventStep(s: Setup, kernel: Machine, so: seq<Action>, a: Action, from: nat, w0: Shared, event: Event)
    requires kernel.Valid() && HandlingIn(s, kernel, so, from, w0, event) && UndisturbedBy(s, kernel, so, a, Procmon)
    ensures HandlingIn(s, kernel, so + [a], from, w0, event)
  {
    InvariantHolds(s, kernel, so);
    EndingHolds(s, kernel, so);
    RunOneMore(s, kernel, so, a);
    BroughtGrows(s, kernel, so, a, from, Procmon);
    var more := Brought(s, kernel, so + [a], from, Procmon);
    MoreForEvent(s, w0, event, Run(s, kernel, so), Brought(s, kernel, so, from, Procmon), more);
    ActionLeavesEvent(s, w0, event, Run(s, kernel, so), a, more);
  }

  lemma EventGoesOn(s: Setup, kernel: Machine, start: seq<Action>, later: seq<Action>, w0: Shared, event: Event)
    requires kernel.Valid() && HandlingIn(s, kernel, start, |start|, w0, event) && Undisturbed(s, kernel, start, later, Procmon)
    ensures HandlingIn(s, kernel, start + later, |start|, w0, event)
  {
    var p := (actions: seq<Action>) => HandlingIn(s, kernel, actions, |start|, w0, event);
    forall k | 0 <= k < |later| ensures KeptByOne(p, start + later[..k], later[k]) {
      assert UndisturbedBy(s, kernel, start + later[..k], later[k], Procmon);
      if p(start + later[..k]) { EventStep(s, kernel, start + later[..k], later[k], |start|, w0, event); }
    }
    KeptAlong(p, start, later);
  }

  /**
   When an event has been dealt with and the thread is about to release the cache,
   cache and schedules are exactly what the event has come to: an exec of a whole
   process replaces its entry by what was looked up and updates the process with
   the entry in place, an exit removes the entry, everything else changes nothing.
   */
  lemma EventIsHandled(s: Setup, kernel: Machine, before: seq<Action>, later: seq<Action>, event: Event)
    requires kernel.Valid() && At(Run(s, kernel, before), Procmon) == AtEvent(EventHandle(event))
    requires Undisturbed(s, kernel, before, later, Procmon)
    requires var pc := At(Run(s, kernel, before + later), Procmon); pc.AtEvent? && pc.event.EventDropCache?
    ensures EventCameTo(s, Run(s, kernel, before).shared, event, Run(s, kernel, before + later).shared,
                        Brought(s, kernel, before + later, |before|, Procmon))
  {
    EventGoesOn(s, kernel, before, later, Run(s, kernel, before).shared, event);
  }
  // ---- populate calls

  /** How a lookup that gave this entry has ended. */
  function EndOf(pid: Pid, entry: Option<Handle>): Builder {
    match entry case Some(h) => Built(pid, h) case None => Failed(pid)
  }

  /** New entries come from lookups. */
  ghost predicate FilledFrom(base: ProcessCache, cache: ProcessCache, brought: iset<Seen>) {
    forall pid | pid in cache && pid !in base :: LookedUp(EndOf(pid, cache[pid])) in brought
  }

  /** The call has done what it does in one go, with what was looked up for each listed pid that had no entry. */
  ghost predicate Fills(base: ProcessCache, listed: seq<Pid>, lookups: Lookups, cache: ProcessCache, brought: iset<Seen>) {
    && cache == Populated(base, AsSet(listed), lookups)
    && forall pid | pid in listed && pid !in base :: LookedUp(EndOf(pid, lookups(pid))) in brought
  }

  ghost predicate Filled(base: ProcessCache, listed: seq<Pid>, cache: ProcessCache, brought: iset<Seen>) {
    exists lookups :: Fills(base, listed, lookups, cache, brought)
  }

  /** How far the call has got that found the cache `base`. */
  ghost predicate Filling(base: ProcessCache, w: World, t: ThreadId, brought: iset<Seen>) {
    && At(w, t).AtPopulate?
    && match At(w, t).populate
       case PopWantCache => false
       case PopList => w.shared.cache == base
       case PopNext(b, _, _) => b == base && FilledFrom(base, w.shared.cache, brought)
       case PopBuild(b, _, _, _) => b == base && FilledFrom(base, w.shared.cache, brought)
       case PopDropCache(b, listed) => b == base && Filled(base, listed, w.shared.cache, brought)
  }

  lemma RetainFills(base: ProcessCache, listed: seq<Pid>, cache: ProcessCache, brought: iset<Seen>)
    requires PopulatedSoFar(base, listed, [], cache) && FilledFrom(base, cache, brought)
    ensures Filled(base, listed, Retain(cache, AsSet(listed)), brought)
  {
    var lookups := (pid: Pid) => if pid in cache then cache[pid] else None;
    assert Retain(cache, AsSet(listed)) == Populated(base, AsSet(listed), lookups);
    assert Fills(base, listed, lookups, Retain(cache, AsSet(listed)), brought);
  }

  lemma MoreForFilling(base: ProcessCache, w: World, t: ThreadId, brought: iset<Seen>, more: iset<Seen>)
    requires Filling(base, w, t, brought) && brought <= more
    ensures Filling(base, w, t, more)
  {
    var p := At(w, t).populate;
    if p.PopDropCache? {
      var lookups :| Fills(base, p.listed, lookups, w.shared.cache, brought);
      assert Fills(base, p.listed, lookups, w.shared.cache, more);
    }
  }

  lemma FillingBuild(s: Setup, base: ProcessCache, w: World, t: ThreadId, i: Input, brought: iset<Seen>)
    requires Invariant(s, w) && !w.shared.exited && Filling(base, w, t, brought) && At(w, t).populate.PopBuild?
    requires forall seen | Brings(w, Turn(t, i), t, seen) :: seen in brought
    ensures Filling(base, TurnOf(s, w, t, i), t, brought)
  {
    var p := At(w, t).populate;
    var b := Advance(w.shared.kernel, p.builder, i.granted);
    assert PointOk(s, w.shared.kernel, w.shared.cache, At(w, t));
    AdvanceKeepsOk(w.shared.kernel, p.builder, i.granted);
    if !Pending(b) { assert Brings(w, Turn(t, i), t, LookedUp(b)); }
  }

  lemma FillingStep(s: Setup, base: ProcessCache, w: World, t: ThreadId, i: Input, brought: iset<Seen>)
    requires Invariant(s, w) && !w.shared.exited && Filling(base, w, t, brought) && At(TurnOf(s, w, t, i), t).AtPopulate?
    requires forall seen | Brings(w, Turn(t, i), t, seen) :: seen in brought
    ensures Filling(base, TurnOf(s, w, t, i), t, brought)
  {
    var p := At(w, t).populate;
    if p.PopBuild? {
      FillingBuild(s, base, w, t, i, brought);
    } else if p.PopNext? && p.todo == [] {
      assert PointOk(s, w.shared.kernel, w.shared.cache, At(w, t));
      RetainFills(base, p.listed, w.shared.cache, brought);
    }
  }

  /** Nobody else changes the cache meanwhile. */
  lemma ActionFills(s: Setup, base: ProcessCache, w: World, t: ThreadId, a: Action, brought: iset<Seen>)
    requires Invariant(s, w) && Filling(base, w, t, brought) && At(Apply(s, w, a), t).AtPopulate?
    requires forall seen | Brings(w, a, t, seen) :: seen in brought
    ensures Filling(base, Apply(s, w, a), t, brought)
  {
    if a.Turn? && a.thread == t && !w.shared.exited {
      FillingStep(s, base, w, t, a.input, brought);
    } else {
      if a.Turn? && !w.shared.exited { EffectChanges(s, w.shared, a.thread, At(w, a.thread), a.input); }
      assert At(Apply(s, w, a), t) == At(w, t);
      assert w.shared.cacheOwner == Some(t) <==> HoldsCache(At(w, t));
      assert a.Turn? ==> (w.shared.cacheOwner == Some(a.thread) <==> HoldsCache(At(w, a.thread)));
    }
  }

  ghost predicate FillingIn(s: Setup, kernel: Machine, actions: seq<Action>, from: nat, t: ThreadId, base: ProcessCache) {
    from <= |actions| && Filling(base, Run(s, kernel, actions), t, Brought(s, kernel, actions, from, t))
  }

  lemma FillsOn(s: Setup, kernel: Machine, so: seq<Action>, a: Action, from: nat, t: ThreadId, base: ProcessCache)
    requires kernel.Valid() && FillingIn(s, kernel, so, from, t, base) && At(Run(s, kernel, so + [a]), t).AtPopulate?
    ensures FillingIn(s, kernel, so + [a], from, t, base)
  {
    InvariantHolds(s, kernel, so);
    RunOneMore(s, kernel, so, a);
    BroughtGrows(s, kernel, so, a, from, t);
    var more := Brought(s, kernel, so + [a], from, t);
    MoreForFilling(base, Run(s, kernel, so), t, Brought(s, kernel, so, from, t), more);
    ActionFills(s, base, Run(s, kernel, so), t, a, more);
  }

  /** The thread has been in the call all along. */
  ghost predicate Populating(s: Setup, kernel: Machine, before: seq<Action>, later: seq<Action>, t: ThreadId) {
    forall k | 0 <= k < |later| :: At(Run(s, kernel, before + later[..k] + [later[k]]), t).AtPopulate?
  }

  /**
   A populate call that is about to release its lock has made of the cache it
   found what the call makes of it in one go, each missing entry being what the
   lookup of that pid gave in this very call.
   */
  lemma PopulateLooksUp(s: Setup, kernel: Machine, before: seq<Action>, later: seq<Action>, t: ThreadId, base: ProcessCache, listed: seq<Pid>)
    requires kernel.Valid() && At(Run(s, kernel, before), t) == AtPopulate(PopList) && Populating(s, kernel, before, later, t)
    requires At(Run(s, kernel, before + later), t) == AtPopulate(PopDropCache(base, listed))
    ensures base == Run(s, kernel, before).shared.cache
    ensures Filled(base, listed, Run(s, kernel, before + later).shared.cache, Brought(s, kernel, before + later, |before|, t))
  {
    var found := Run(s, kernel, before).shared.cache;
    var p := (actions: seq<Action>) => FillingIn(s, kernel, actions, |before|, t, found);
    forall k | 0 <= k < |later| ensures KeptByOne(p, before + later[..k], later[k]) {
      if p(before + later[..k]) { FillsOn(s, kernel, before + later[..k], later[k], |before|, t, found); }
    }
    KeptAlong(p, before, later);
    assert FillingIn(s, kernel, before + later, |before|, t, found);
  }

  // ---- the listing of cleanup

  /** Of these pids each is still to be done, or has its handle listed, or could not be looked up; and nothing else is listed. */
  ghost predicate ListedFrom(pids: seq<Pid>, todo: seq<Pid>, listed: seq<Handle>, brought: iset<Seen>) {
    && (forall pid | pid in pids :: pid in todo || LookedUp(Failed(pid)) in brought || exists h | h in listed :: h.pid == pid)
    && (forall pid | pid in todo :: pid in pids)
    && (forall h | h in listed :: h.pid in pids && LookedUp(Built(h.pid, h)) in brought)
  }

  ghost predicate Listing(pids: seq<Pid>, w: World, brought: iset<Seen>) {
    && At(w, Signal).AtExit?
    && match At(w, Signal).exit
       case ExitNext(todo, listed) => ListedFrom(pids, todo, listed, brought)
       case ExitBuild(todo, listed, b) => ListedFrom(pids, [b.pid] + todo, listed, brought)
       case ExitReset(listed, _) => ListedFrom(pids, [], listed, brought)
       case ExitWantCache(listed, _) => ListedFrom(pids, [], listed, brought)
       case ExitClear(listed, _) => ListedFrom(pids, [], listed, brought)
       case ExitDropCache(listed, _) => ListedFrom(pids, [], listed, brought)
       case ExitNow(listed, _) => ListedFrom(pids, [], listed, brought)
       case _ => false
  }

  lemma OneMoreListed(pids: seq<Pid>, todo: seq<Pid>, listed: seq<Handle>, h: Handle, brought: iset<Seen>)
    requires ListedFrom(pids, [h.pid] + todo, listed, brought) && LookedUp(Built(h.pid, h)) in brought
    ensures ListedFrom(pids, todo, listed + [h], brought)
  {
    assert h in listed + [h];
    assert forall x | x in listed :: x in listed + [h];
  }

  lemma ListingBuild(s: Setup, pids: seq<Pid>, w: World, i: Input, brought: iset<Seen>)
    requires Invariant(s, w) && !w.shared.exited && Listing(pids, w, brought) && At(w, Signal).exit.ExitBuild?
    requires forall seen | Brings(w, Turn(Signal, i), Signal, seen) :: seen in brought
    ensures Listing(pids, TurnOf(s, w, Signal, i), brought)
  {
    var p := At(w, Signal).exit;
    var b := Advance(w.shared.kernel, p.builder, i.granted);
    assert PointOk(s, w.shared.kernel, w.shared.cache, At(w, Signal));
    AdvanceKeepsOk(w.shared.kernel, p.builder, i.granted);
    if !Pending(b) { assert Brings(w, Turn(Signal, i), Signal, LookedUp(b)); }
    if b.Built? { OneMoreListed(pids, p.todo, p.listed, b.handle, brought); }
  }

  lemma ListingStep(s: Setup, pids: seq<Pid>, w: World, i: Input, brought: iset<Seen>)
    requires Invariant(s, w) && !w.shared.exited && Listing(pids, w, brought)
    requires forall seen | Brings(w, Turn(Signal, i), Signal, seen) :: seen in brought
    ensures Listing(pids, TurnOf(s, w, Signal, i), brought)
  {
    var p := At(w, Signal).exit;
    if p.ExitBuild? {
      ListingBuild(s, pids, w, i, brought);
    } else if p.ExitNext? && p.todo != [] {
      assert [p.todo[0]] + p.todo[1..] == p.todo;
    }
  }

  lemma ActionLists(s: Setup, pids: seq<Pid>, w: World, a: Action, brought: iset<Seen>)
    requires Invariant(s, w) && Listing(pids, w, brought)
    requires forall seen | Brings(w, a, Signal, seen) :: seen in brought
    ensures Listing(pids, Apply(s, w, a), brought)
  {
    if a.Turn? && a.thread == Signal && !w.shared.exited {
      ListingStep(s, pids, w, a.input, brought);
    } else {
      assert At(Apply(s, w, a), Signal) == At(w, Signal);
    }
  }

  ghost predicate ListingIn(s: Setup, kernel: Machine, actions: seq<Action>, from: nat, pids: seq<Pid>) {
    from <= |actions| && Listing(pids, Run(s, kernel, actions), Brought(s, kernel, actions, from, Signal))
  }

  lemma ListsOn(s: Setup, kernel: Machine, so: seq<Action>, a: Action, from: nat, pids: seq<Pid>)
    requires kernel.Valid() && ListingIn(s, kernel, so, from, pids)
    ensures ListingIn(s, kernel, so + [a], from, pids)
  {
    InvariantHolds(s, kernel, so);
    RunOneMore(s, kernel, so, a);
    BroughtGrows(s, kernel, so, a, from, Signal);
    ActionLists(s, pids, Run(s, kernel, so), a, Brought(s, kernel, so + [a], from, Signal));
  }

  /** Cleanup goes through every listed process for which a handle could be built, and no others. */
  lemma CleanupListsAll(s: Setup, kernel: Machine, before: seq<Action>, later: seq<Action>, pids: seq<Pid>, listed: seq<Handle>, done: nat)
    requires kernel.Valid() && At(Run(s, kernel, before), Signal) == AtExit(ExitNext(pids, []))
    requires Behind(At(Run(s, kernel, before + later), Signal), listed, done)
    ensures ListedFrom(pids, [], listed, Brought(s, kernel, before + later, |before|, Signal))
  {
    var p := (actions: seq<Action>) => ListingIn(s, kernel, actions, |before|, pids);
    forall k | 0 <= k < |later| ensures KeptByOne(p, before + later[..k], later[k]) {
      if p(before + later[..k]) { ListsOn(s, kernel, before + later[..k], later[k], |before|, pids); }
    }
    KeptAlong(p, before, later);
    assert ListingIn(s, kernel, before + later, |before|, pids);
  }
}
