/** Which scheduling class a process gets, and what that class does to its threads. */
module Scheduling {
  import opened Wrappers
  import opened Kernel
  import opened ProcessHandles
  import opened Ancestry
  import opened Config

  datatype State = State(foregroundPid: Option<Pid>, clientPid: Option<Pid>)

  datatype Message = SetForegroundPid(pid: Option<Pid>) | SetClientPid(client: Pid)

  /** The pids that a foreground message reclassifies: the new one first. */
  function ForegroundTargets(prev: Option<Pid>, pid: Option<Pid>): seq<Pid> {
    if pid == prev then []
    else (if pid.Some? then [pid.value] else []) + (if prev.Some? then [prev.value] else [])
  }

  // ---- classification

  predicate IsCritical(cfg: Config, p: Handle, state: Option<State>) {
    if state.Some? && state.value.clientPid == Some(p.pid) then cfg.selfRealtime
    else if p.pid == cfg.lemondPid then cfg.selfRealtime
    else p.executable.Some? && p.executable.value in cfg.critical
  }

  datatype Class = Untouched | Realtime | Boosted | LowPriority | Normal

  /** The part of the path after its last slash. */
  function BaseName(path: string): (name: string)
    ensures '/' !in name
    ensures name == path || (|name| < |path| && path[|path| - |name| - 1..] == "/" + name)
  {
    if path == "" then ""
    else if path[|path| - 1] == '/' then ""
    else BaseName(path[..|path| - 1]) + [path[|path| - 1]]
  }

  predicate HasCritical(cfg: Config, state: Option<State>, ancestors: seq<Handle>) {
    exists a | a in ancestors :: IsCritical(cfg, a, state)
  }

  /** The process is the one with this pid or one of its descendants. */
  predicate Under(p: Handle, ancestors: seq<Handle>, pid: Option<Pid>) {
    pid == Some(p.pid) || exists a | a in ancestors :: pid == Some(a.pid)
  }

  /** The decision inside `update_single_process`. */
  function ClassOf(cfg: Config, state: State, p: Handle, ancestors: seq<Handle>): Class {
    if p.executable.None? then Untouched
    else if IsCritical(cfg, p, Some(state)) then Realtime
    else if !HasCritical(cfg, Some(state), ancestors) then Untouched
    else if Under(p, ancestors, state.foregroundPid) then Boosted
    else if BaseName(p.executable.value) in cfg.lowPriority then LowPriority
    else Normal
  }

  ghost function ClassIn(cfg: Config, state: State, p: Handle, cache: ProcessCache): Class {
    ClassOf(cfg, state, p, Ancestors(p, cache))
  }

  /** The walk that `update_single_process` makes comes to an end; processes without executable and critical ones need none. */
  ghost predicate Decidable(cfg: Config, state: State, p: Handle, cache: ProcessCache) {
    p.executable.None? || IsCritical(cfg, p, Some(state)) || !ReachesCycle(p, cache)
  }

  // ---- the scheduling table and the system calls that write it

  datatype Policy = Other | Batch | Idle | Fifo | RoundRobin | Deadline

  datatype ThreadSched = ThreadSched(tid: nat, policy: Policy, priority: int, nice: int, resetOnFork: bool)

  /** The threads in the order in which the `task` directory lists them. */
  datatype ProcessSched = ProcessSched(threads: seq<ThreadSched>, autogroup: int)

  type Table = map<Instance, ProcessSched>

  datatype Call =
    | SetNice(nice: int)
    | SetAttr(policy: Policy, nice: int, priority: int, resetOnFork: bool)
    | SetAutogroup(nice: int)

  function Position(list: seq<string>, x: string): (r: Option<nat>)
    ensures r.Some? ==> r.value < |list| && list[r.value] == x && x !in list[..r.value]
    ensures r.None? ==> x !in list
  {
    if list == [] then None
    else if list[0] == x then Some(0)
    else match Position(list[1..], x) case None => None case Some(i) => Some(i + 1)
  }

  function RealtimePriority(cfg: Config, exe: string): int {
    match Position(cfg.critical, exe) case Some(i) => 99 - i case None => 89
  }

  predicate Excluded(cfg: Config, p: Handle) {
    p.executable.Some? && p.executable.value in cfg.excludeRealtime
  }

  /** `set_scheduler`: two calls, the second only if the first succeeds. */
  function SetScheduler(policy: Policy, nice: int, priority: int, resetOnFork: bool): seq<Call> {
    [SetNice(nice), SetAttr(policy, nice, priority, resetOnFork)]
  }

  /** The calls that `set_realtime`, `set_boosted`, `set_normal` and `set_low_priority` make for one thread. */
  function Calls(cfg: Config, class_: Class, p: Handle): seq<Call> {
    match class_
    case Untouched => []
    case Realtime =>
      (if p.executable.Some? && !Excluded(cfg, p) then
         SetScheduler(Fifo, REALTIME_NICE, RealtimePriority(cfg, p.executable.value), !(p.pid == cfg.lemondPid && cfg.selfRealtime))
       else [])
      + [SetAutogroup(REALTIME_NICE), SetNice(REALTIME_NICE)]
    case Boosted => SetScheduler(Other, BOOST_NICE, 0, false)
    case LowPriority => SetScheduler(Idle, LOW_PRIORITY_NICE, 0, false)
    case Normal => if Excluded(cfg, p) then [SetNice(REALTIME_NICE)] else SetScheduler(Other, 0, 0, false)
  }

  function ApplyCall(call: Call, t: ThreadSched, autogroup: int): (ThreadSched, int) {
    match call
    case SetNice(n) => (t.(nice := n), autogroup)
    case SetAttr(policy, n, priority, reset) => (ThreadSched(t.tid, policy, priority, n, reset), autogroup)
    case SetAutogroup(n) => (t, n)
  }

  /** The first `n` of the calls, the rest having been cut off by an error. */
  function Perform(t: ThreadSched, autogroup: int, calls: seq<Call>, n: nat): (ThreadSched, int)
    decreases |calls|
  {
    if n == 0 || calls == [] then (t, autogroup)
    else var (t', g') := ApplyCall(calls[0], t, autogroup); Perform(t', g', calls[1..], n - 1)
  }

  /** How many of the calls for a thread the kernel grants before it refuses one. */
  type Grants = nat -> nat

  ghost predicate AllGranted(grants: Grants) {
    forall tid :: 4 <= grants(tid)
  }

  /** `set_all` from thread `i` on: the first error ends it, leaving later threads alone. */
  function SetAllFrom(ps: ProcessSched, calls: seq<Call>, grants: Grants, i: nat): (r: (ProcessSched, bool))
    requires i <= |ps.threads|
    ensures |r.0.threads| == |ps.threads| && r.0.threads[..i] == ps.threads[..i]
    decreases |ps.threads| - i
  {
    if i == |ps.threads| then (ps, true)
    else
      var n := grants(ps.threads[i].tid);
      var (t, g) := Perform(ps.threads[i], ps.autogroup, calls, n);
      var ps' := ProcessSched(ps.threads[i := t], g);
      if n < |calls| then (ps', false) else SetAllFrom(ps', calls, grants, i + 1)
  }

  /** `try_set_all` on the whole table: a process that is gone lists no threads. */
  function Reclassify(cfg: Config, class_: Class, p: Handle, table: Table, grants: Grants): Table {
    if p.procDir in table then
      table[p.procDir := SetAllFrom(table[p.procDir], Calls(cfg, class_, p), grants, 0).0]
    else table
  }

  // ---- what a class dictates, said without the calls

  function Dictated(cfg: Config, class_: Class, p: Handle, t: ThreadSched): ThreadSched {
    match class_
    case Untouched => t
    case Realtime =>
      if p.executable.None? || Excluded(cfg, p) then t.(nice := REALTIME_NICE)
      else t.(policy := Fifo, nice := REALTIME_NICE, priority := RealtimePriority(cfg, p.executable.value),
              resetOnFork := !(p.pid == cfg.lemondPid && cfg.selfRealtime))
    case Boosted => t.(policy := Other, nice := BOOST_NICE, priority := 0, resetOnFork := false)
    case LowPriority => t.(policy := Idle, nice := LOW_PRIORITY_NICE, priority := 0, resetOnFork := false)
    case Normal =>
      if Excluded(cfg, p) then t.(nice := REALTIME_NICE)
      else t.(policy := Other, nice := 0, priority := 0, resetOnFork := false)
  }

  /** Every thread has what the class dictates; the autogroup is written by realtime only. */
  ghost predicate Obeys(cfg: Config, class_: Class, p: Handle, before: ProcessSched, after: ProcessSched) {
    && |after.threads| == |before.threads|
    && (forall i | 0 <= i < |after.threads| :: after.threads[i] == Dictated(cfg, class_, p, before.threads[i]))
    && after.autogroup == (if class_ == Realtime && before.threads != [] then REALTIME_NICE else before.autogroup)
  }

  lemma PerformStep(t: ThreadSched, g: int, calls: seq<Call>, n: nat)
    requires 0 < n && calls != []
    ensures Perform(t, g, calls, n) == (var (t', g') := ApplyCall(calls[0], t, g); Perform(t', g', calls[1..], n - 1))
  {
  }

  /** One thread for which every call is granted ends with exactly what its class dictates. */
  lemma CallsMeetDictate(cfg: Config, class_: Class, p: Handle, t: ThreadSched, g: int, n: nat)
    requires |Calls(cfg, class_, p)| <= n
    ensures Perform(t, g, Calls(cfg, class_, p), n).0 == Dictated(cfg, class_, p, t)
    ensures Perform(t, g, Calls(cfg, class_, p), n).1 == if class_ == Realtime then REALTIME_NICE else g
  {
    var calls := Calls(cfg, class_, p);
    if calls != [] {
      var (t1, g1) := ApplyCall(calls[0], t, g);
      PerformStep(t, g, calls, n);
      if calls[1..] != [] {
        var (t2, g2) := ApplyCall(calls[1], t1, g1);
        PerformStep(t1, g1, calls[1..], n - 1);
        assert calls[1..][1..] == calls[2..];
        if calls[2..] != [] {
          var (t3, g3) := ApplyCall(calls[2], t2, g2);
          PerformStep(t2, g2, calls[2..], n - 2);
          assert calls[2..][1..] == calls[3..];
          PerformStep(t3, g3, calls[3..], n - 3);
          assert calls[3..][1..] == [];
        }
      }
    }
  }

  lemma {:induction false} SetAllMeetsDictateFrom(cfg: Config, class_: Class, p: Handle, ps: ProcessSched, grants: Grants, i: nat)
    requires i <= |ps.threads|
    ensures AllGranted(grants) ==> SetAllFrom(ps, Calls(cfg, class_, p), grants, i).1
    ensures var r := SetAllFrom(ps, Calls(cfg, class_, p), grants, i);
            r.1 ==>
            && |r.0.threads| == |ps.threads|
            && (forall j | i <= j < |ps.threads| :: r.0.threads[j] == Dictated(cfg, class_, p, ps.threads[j]))
            && r.0.autogroup == (if class_ == Realtime && i < |ps.threads| then REALTIME_NICE else ps.autogroup)
    decreases |ps.threads| - i
  {
    if i < |ps.threads| {
      var calls := Calls(cfg, class_, p);
      var n := grants(ps.threads[i].tid);
      if |calls| <= n { CallsMeetDictate(cfg, class_, p, ps.threads[i], ps.autogroup, n); }
      var (t, g) := Perform(ps.threads[i], ps.autogroup, calls, n);
      var ps' := ProcessSched(ps.threads[i := t], g);
      SetAllMeetsDictateFrom(cfg, class_, p, ps', grants, i + 1);
      var r := SetAllFrom(ps', calls, grants, i + 1);
      assert r.0.threads[..i + 1][i] == ps'.threads[..i + 1][i];
    }
  }

  /** With every call granted `set_all` succeeds, and when it succeeds its loop has refined the dictate. */
  lemma SetAllMeetsDictate(cfg: Config, class_: Class, p: Handle, ps: ProcessSched, grants: Grants)
    ensures AllGranted(grants) ==> SetAllFrom(ps, Calls(cfg, class_, p), grants, 0).1
    ensures SetAllFrom(ps, Calls(cfg, class_, p), grants, 0).1 ==> Obeys(cfg, class_, p, ps, SetAllFrom(ps, Calls(cfg, class_, p), grants, 0).0)
  {
    SetAllMeetsDictateFrom(cfg, class_, p, ps, grants, 0);
  }

  // ---- what a refusal leaves behind

  /** How many calls a class makes for one thread. */
  function CallCount(cfg: Config, class_: Class, p: Handle): nat {
    match class_
    case Untouched => 0
    case Realtime => if p.executable.Some? && p.executable.value !in cfg.excludeRealtime then 4 else 2
    case Boosted => 2
    case LowPriority => 2
    case Normal => if p.executable.Some? && p.executable.value in cfg.excludeRealtime then 1 else 2
  }

  /** The thread and the autogroup after the first `n` calls, when that is not all of them. */
  ghost predicate Received(cfg: Config, class_: Class, p: Handle, n: nat, t: ThreadSched, g: int, t': ThreadSched, g': int) {
    match class_
    case Untouched => false
    case Realtime =>
      if p.executable.Some? && p.executable.value !in cfg.excludeRealtime then
        && t' == (if n == 0 then t else if n == 1 then t.(nice := -20) else Dictated(cfg, Realtime, p, t))
        && g' == (if n < 3 then g else -20)
      else t' == t && g' == (if n == 0 then g else -20)
    case Boosted => g' == g && t' == (if n == 0 then t else t.(nice := -7))
    case LowPriority => g' == g && t' == (if n == 0 then t else t.(nice := 19))
    case Normal => g' == g && t' == (if n == 0 then t else t.(nice := 0))
  }

  lemma CallsReceived(cfg: Config, class_: Class, p: Handle, t: ThreadSched, g: int, n: nat)
    requires n < |Calls(cfg, class_, p)|
    ensures var (t', g') := Perform(t, g, Calls(cfg, class_, p), n); t'.tid == t.tid && Received(cfg, class_, p, n, t, g, t', g')
  {
    var calls := Calls(cfg, class_, p);
    if n > 0 {
      var (t1, g1) := ApplyCall(calls[0], t, g);
      PerformStep(t, g, calls, n);
      if n > 1 {
        var (t2, g2) := ApplyCall(calls[1], t1, g1);
        PerformStep(t1, g1, calls[1..], n - 1);
        assert calls[1..][1..] == calls[2..];
        if n > 2 { PerformStep(t2, g2, calls[2..], n - 2); }
      }
    }
  }

  /** Thread `k` is the first, from `from` on, that is not granted all its calls. */
  ghost predicate FirstRefused(cfg: Config, class_: Class, p: Handle, ps: ProcessSched, grants: Grants, from: nat, k: nat) {
    && from <= k < |ps.threads|
    && grants(ps.threads[k].tid) < CallCount(cfg, class_, p)
    && forall j | from <= j < k :: CallCount(cfg, class_, p) <= grants(ps.threads[j].tid)
  }

  /** The loop went through the threads before `k`, broke off in `k`, and has not touched those after it. */
  ghost predicate BrokenOffAt(cfg: Config, class_: Class, p: Handle, ps: ProcessSched, grants: Grants, from: nat, k: nat, ps': ProcessSched)
    requires from <= k < |ps.threads|
  {
    && |ps'.threads| == |ps.threads|
    && (forall j | from <= j < k :: ps'.threads[j] == Dictated(cfg, class_, p, ps.threads[j]))
    && (forall j | k < j < |ps.threads| :: ps'.threads[j] == ps.threads[j])
    && Received(cfg, class_, p, grants(ps.threads[k].tid), ps.threads[k],
                if class_ == Realtime && from < k then -20 else ps.autogroup, ps'.threads[k], ps'.autogroup)
  }

  /** The loop from thread `i` on succeeds exactly if every thread is granted all its calls, and otherwise breaks off at the first that is not. */
  lemma {:induction false} SetAllBreaksOffFrom(cfg: Config, class_: Class, p: Handle, ps: ProcessSched, grants: Grants, i: nat)
    requires i <= |ps.threads|
    ensures SetAllFrom(ps, Calls(cfg, class_, p), grants, i).1 <==>
            forall j | i <= j < |ps.threads| :: CallCount(cfg, class_, p) <= grants(ps.threads[j].tid)
    ensures var r := SetAllFrom(ps, Calls(cfg, class_, p), grants, i);
            !r.1 ==> exists k :: FirstRefused(cfg, class_, p, ps, grants, i, k) && BrokenOffAt(cfg, class_, p, ps, grants, i, k, r.0)
    decreases |ps.threads| - i
  {
    if i < |ps.threads| {
      var calls := Calls(cfg, class_, p);
      var n := grants(ps.threads[i].tid);
      assert |calls| == CallCount(cfg, class_, p);
      if n < |calls| {
        CallsReceived(cfg, class_, p, ps.threads[i], ps.autogroup, n);
        assert FirstRefused(cfg, class_, p, ps, grants, i, i);
      } else {
        CallsMeetDictate(cfg, class_, p, ps.threads[i], ps.autogroup, n);
        var (t, g) := Perform(ps.threads[i], ps.autogroup, calls, n);
        var ps' := ProcessSched(ps.threads[i := t], g);
        SetAllBreaksOffFrom(cfg, class_, p, ps', grants, i + 1);
        assert forall j | i < j < |ps.threads| :: ps'.threads[j] == ps.threads[j];
        var r := SetAllFrom(ps', calls, grants, i + 1);
        if !r.1 {
          var k :| FirstRefused(cfg, class_, p, ps', grants, i + 1, k) && BrokenOffAt(cfg, class_, p, ps', grants, i + 1, k, r.0);
          BreakOffEarlier(cfg, class_, p, ps, grants, i, ps', r.0, k);
        }
      }
    }
  }

  lemma BreakOffEarlier(cfg: Config, class_: Class, p: Handle, ps: ProcessSched, grants: Grants, i: nat,
                        ps': ProcessSched, r: ProcessSched, k: nat)
    requires i < |ps.threads| && CallCount(cfg, class_, p) <= grants(ps.threads[i].tid)
    requires ps' == ProcessSched(ps.threads[i := Dictated(cfg, class_, p, ps.threads[i])], if class_ == Realtime then -20 else ps.autogroup)
    requires |r.threads| == |ps'.threads| && r.threads[..i + 1] == ps'.threads[..i + 1]
    requires FirstRefused(cfg, class_, p, ps', grants, i + 1, k) && BrokenOffAt(cfg, class_, p, ps', grants, i + 1, k, r)
    ensures FirstRefused(cfg, class_, p, ps, grants, i, k) && BrokenOffAt(cfg, class_, p, ps, grants, i, k, r)
  {
    assert r.threads[i] == r.threads[..i + 1][i] == ps'.threads[..i + 1][i];
    assert forall j | i < j < |ps.threads| :: ps'.threads[j] == ps.threads[j];
  }

  // ---- what one update gives, said without the classes

  /** The part of the path after its last slash, or the whole path, is this name. */
  ghost predicate LastPart(path: string, name: string) {
    '/' !in name && (path == name || (|name| < |path| && path[|path| - |name| - 1..] == "/" + name))
  }

  predicate EndsWith(path: string, name: string) {
    |name| <= |path| && path[|path| - |name|..] == name
  }

  lemma LongerEndHasSlash(path: string, part: string, longer: string)
    requires EndsWith(path, "/" + part) && EndsWith(path, longer) && |part| < |longer|
    ensures '/' in longer
  {
    assert longer[|longer| - |part| - 1] == ("/" + part)[0];
  }

  /** A path has at most one last part. */
  lemma LastPartUnique(path: string, a: string, b: string)
    requires LastPart(path, a) && LastPart(path, b)
    ensures a == b
  {
    LastPartEnds(path, a);
    LastPartEnds(path, b);
    if EndsWith(path, "/" + a) && |a| < |b| {
      LongerEndHasSlash(path, a, b);
    } else if EndsWith(path, "/" + b) && |b| < |a| {
      LongerEndHasSlash(path, b, a);
    }
  }

  lemma LastPartEnds(path: string, name: string)
    requires LastPart(path, name)
    ensures EndsWith(path, name) && (path == name || EndsWith(path, "/" + name))
  {
    if path != name {
      assert ("/" + name)[1..] == name == path[|path| - |name| - 1..][1..];
    }
  }

  lemma BaseNameIsLastPart(path: string, name: string)
    ensures LastPart(path, name) <==> name == BaseName(path)
  {
    assert LastPart(path, BaseName(path));
    if LastPart(path, name) { LastPartUnique(path, name, BaseName(path)); }
  }

  ghost predicate HasCriticalAncestor(cfg: Config, state: State, ancestors: seq<Handle>) {
    exists j :: 0 <= j < |ancestors| && IsCritical(cfg, ancestors[j], Some(state))
  }

  ghost predicate InForeground(state: State, p: Handle, ancestors: seq<Handle>) {
    state.foregroundPid == Some(p.pid) || exists j :: 0 <= j < |ancestors| && state.foregroundPid == Some(ancestors[j].pid)
  }

  ghost predicate LowPriorityName(cfg: Config, path: string) {
    exists name | name in cfg.lowPriority :: LastPart(path, name)
  }

  /** What one update makes of a thread, case by case. */
  ghost predicate ThreadGets(cfg: Config, state: State, p: Handle, ancestors: seq<Handle>, t: ThreadSched, t': ThreadSched) {
    if p.executable.None? then t' == t
    else
      var exe := p.executable.value;
      if IsCritical(cfg, p, Some(state)) then
        if exe in cfg.excludeRealtime then t' == t.(nice := -20)
        else t' == ThreadSched(t.tid, Fifo, RealtimePriority(cfg, exe), -20, !(p.pid == cfg.lemondPid && cfg.selfRealtime))
      else if !HasCriticalAncestor(cfg, state, ancestors) then t' == t
      else if InForeground(state, p, ancestors) then t' == ThreadSched(t.tid, Other, 0, -7, false)
      else if LowPriorityName(cfg, exe) then t' == ThreadSched(t.tid, Idle, 0, 19, false)
      else if exe in cfg.excludeRealtime then t' == t.(nice := -20)
      else t' == ThreadSched(t.tid, Other, 0, 0, false)
  }

  /** What it makes of the process: its threads, and the autogroup of a critical one. */
  ghost predicate ProcessGets(cfg: Config, state: State, p: Handle, ancestors: seq<Handle>, ps: ProcessSched, ps': ProcessSched) {
    && |ps'.threads| == |ps.threads|
    && (forall i | 0 <= i < |ps.threads| :: ThreadGets(cfg, state, p, ancestors, ps.threads[i], ps'.threads[i]))
    && ps'.autogroup == (if p.executable.Some? && IsCritical(cfg, p, Some(state)) && ps.threads != [] then -20 else ps.autogroup)
  }

  /** An update with all calls granted gives every thread what its case says. */
  lemma UpdateGives(cfg: Config, state: State, p: Handle, cache: ProcessCache, ps: ProcessSched, grants: Grants)
    requires AllGranted(grants)
    ensures ProcessGets(cfg, state, p, Ancestors(p, cache), ps, SetAllFrom(ps, Calls(cfg, ClassIn(cfg, state, p, cache), p), grants, 0).0)
  {
    var class_, c := ClassIn(cfg, state, p, cache), Ancestors(p, cache);
    SetAllMeetsDictate(cfg, class_, p, ps, grants);
    assert HasCriticalAncestor(cfg, state, c) <==> HasCritical(cfg, Some(state), c);
    assert InForeground(state, p, c) <==> Under(p, c, state.foregroundPid);
    if p.executable.Some? {
      BaseNameIsLastPart(p.executable.value, BaseName(p.executable.value));
      forall name | LastPart(p.executable.value, name) ensures name == BaseName(p.executable.value) {
        BaseNameIsLastPart(p.executable.value, name);
      }
    }
  }

  /** As shipped: a compiler below the desktop shell runs in the background, a browser there runs normally, and the shell itself only gets its nice value. */
  lemma ShippedGives(lemondPid: Pid, shell: Handle, child: Handle, cache: ProcessCache, t: ThreadSched, t': ThreadSched)
    requires lemondPid !in {shell.pid, child.pid} && shell.executable == Some("/usr/bin/gnome-shell")
    requires WalkEnds(child, cache) && Present(cache, child.parentPid) && cache[child.parentPid].value == shell
    requires ThreadGets(Shipped(lemondPid), State(None, None), child, Ancestors(child, cache), t, t')
    ensures child.executable == Some("/usr/bin/rustc") ==> t' == ThreadSched(t.tid, Idle, 0, 19, false)
    ensures child.executable == Some("/usr/bin/firefox") ==> t' == ThreadSched(t.tid, Other, 0, 0, false)
    ensures child.executable == Some("/usr/bin/pipewire") ==> t' == ThreadSched(t.tid, Fifo, 99, -20, true)
    ensures child.executable == Some("/usr/bin/gnome-shell") ==> t' == t.(nice := -20)
  {
    var cfg, c := Shipped(lemondPid), Ancestors(child, cache);
    ShippedShell(lemondPid);
    assert Link(child, c, 0) == child.parentPid;
    assert c[0] == shell && IsCritical(cfg, shell, Some(State(None, None)));
    if child.executable == Some("/usr/bin/rustc") { RustcIsLow(lemondPid); RustcIsNotCritical(lemondPid); }
    if child.executable == Some("/usr/bin/firefox") { FirefoxIsNot(lemondPid); FirefoxIsNotCritical(lemondPid); }
    if child.executable == Some("/usr/bin/pipewire") { ShippedPipewire(lemondPid); }
  }

  lemma ShippedShell(lemondPid: Pid)
    ensures "/usr/bin/gnome-shell" in Shipped(lemondPid).critical && "/usr/bin/gnome-shell" in Shipped(lemondPid).excludeRealtime
  {
    var cfg := Shipped(lemondPid);
    assert cfg.critical[9] == "/usr/bin/gnome-shell" && cfg.excludeRealtime[0] == "/usr/bin/gnome-shell";
  }

  lemma ShippedPipewire(lemondPid: Pid)
    ensures var cfg := Shipped(lemondPid);
            && "/usr/bin/pipewire" in cfg.critical && "/usr/bin/pipewire" !in cfg.excludeRealtime
            && RealtimePriority(cfg, "/usr/bin/pipewire") == 99
  {
    assert Shipped(lemondPid).critical[0] == "/usr/bin/pipewire";
  }

  lemma RustcIsNotCritical(lemondPid: Pid)
    ensures "/usr/bin/rustc" !in Shipped(lemondPid).critical
  {
  }

  lemma FirefoxIsNotCritical(lemondPid: Pid)
    ensures "/usr/bin/firefox" !in Shipped(lemondPid).critical && "/usr/bin/firefox" !in Shipped(lemondPid).excludeRealtime
  {
  }

  lemma RustcIsLow(lemondPid: Pid)
    ensures LowPriorityName(Shipped(lemondPid), "/usr/bin/rustc")
  {
    var path, name := "/usr/bin/rustc", "rustc";
    assert Shipped(lemondPid).lowPriority[0] == name;
    assert path[|path| - |name| - 1..] == "/" + name;
    assert LastPart(path, name) && name in Shipped(lemondPid).lowPriority;
  }

  lemma FirefoxIsNot(lemondPid: Pid)
    ensures !LowPriorityName(Shipped(lemondPid), "/usr/bin/firefox")
  {
    var path := "/usr/bin/firefox";
    assert path[|path| - |"firefox"| - 1..] == "/" + "firefox";
    BaseNameIsLastPart(path, "firefox");
    forall name | name in Shipped(lemondPid).lowPriority ensures !LastPart(path, name) {
      BaseNameIsLastPart(path, name);
      assert name != "firefox";
    }
  }

  // ---- realtime priorities

  /** The program at its first place on the list gets the priority that belongs to the place, and more than any program that comes only later. */
  lemma EarlierIsHigher(cfg: Config, i: nat, j: nat)
    requires i < j < |cfg.critical| && cfg.critical[i] !in cfg.critical[..i] && cfg.critical[j] !in cfg.critical[..j]
    ensures RealtimePriority(cfg, cfg.critical[i]) == 99 - i
    ensures RealtimePriority(cfg, cfg.critical[j]) < RealtimePriority(cfg, cfg.critical[i])
  {
    PriorityIsPlace(cfg, i);
    PriorityIsPlace(cfg, j);
  }

  lemma PriorityIsPlace(cfg: Config, i: nat)
    requires i < |cfg.critical| && cfg.critical[i] !in cfg.critical[..i]
    ensures RealtimePriority(cfg, cfg.critical[i]) == 99 - i
  {
    assert cfg.critical[i] in cfg.critical;
  }

  /** A program that is not on the list ranks with the eleventh that is. */
  lemma UnlistedPriority(cfg: Config, exe: string)
    requires exe !in cfg.critical && 10 < |cfg.critical| && cfg.critical[10] !in cfg.critical[..10]
    ensures RealtimePriority(cfg, exe) == RealtimePriority(cfg, cfg.critical[10])
  {
    PriorityIsPlace(cfg, 10);
  }

  /** The kernel allows priorities from 1 to 99; the shipped list keeps to them, also for programs that are not on it. */
  lemma ShippedPriorities(lemondPid: Pid, exe: string)
    ensures 1 <= RealtimePriority(Shipped(lemondPid), exe) <= 99
  {
  }

  /** Doing it again changes nothing. */
  lemma DictateIdempotent(cfg: Config, class_: Class, p: Handle, a: ProcessSched, b: ProcessSched)
    requires Obeys(cfg, class_, p, a, b)
    ensures Obeys(cfg, class_, p, b, b)
  {
  }

  /** For an executable excluded from realtime, two classes that differ may ask for the same. */
  predicate SameInEffect(cfg: Config, a: Class, b: Class, p: Handle, ps: ProcessSched) {
    && Excluded(cfg, p)
    && ((a == Realtime && b == Normal) || (a == Normal && b == Realtime && ps.autogroup == REALTIME_NICE))
  }

  /** A process that obeys one class obeys another one only if they are the same in effect: any thread tells them apart. */
  lemma ClassesDiffer(cfg: Config, a: Class, b: Class, p: Handle, ps: ProcessSched)
    requires Obeys(cfg, a, p, ps, ps) && ps.threads != [] && p.executable.Some?
    requires a != Untouched && b != Untouched
    ensures Obeys(cfg, b, p, ps, ps) <==> a == b || SameInEffect(cfg, a, b, p, ps)
  {
    assert ps.threads[0] == Dictated(cfg, a, p, ps.threads[0]);
  }

  /** An outcome that obeys the class is unique. */
  lemma ObeysUnique(cfg: Config, class_: Class, p: Handle, a: ProcessSched, b: ProcessSched, b': ProcessSched)
    requires Obeys(cfg, class_, p, a, b) && Obeys(cfg, class_, p, a, b')
    ensures b == b'
  {
  }
}
