/** How the OOM thread measures processes and picks the one to kill. */
module Oom {
  import opened Wrappers
  import opened Kernel
  import opened ProcessHandles
  import opened Ancestry
  import opened Config
  import opened Scheduling
  import opened Text

  /** What reading `status` through a handle's directory gives: no file, a file whose process went away before it was read, or text. */
  datatype Reading = NoFile | Broken | Contents(text: string)

  /** VmData plus VmSwap in kB, if there is a VmData field. */
  function MemoryUsed(text: string): Option<nat> {
    match ExtractNum(text, "VmData:")
    case None => None
    case Some(data) =>
      var swap := match ExtractNum(text, "VmSwap:") case None => 0 case Some(n) => n;
      Some((data + swap) % USIZE)
  }

  function Used(reading: Reading): Option<nat> {
    if reading.Contents? then MemoryUsed(reading.text) else None
  }

  /** The order on keys: unreadable below everything. */
  predicate AtMost(a: Option<nat>, b: Option<nat>) {
    a.None? || (b.Some? && a.value <= b.value)
  }

  datatype Candidate = Candidate(handle: Handle, used: Option<nat>)

  /** One step of `max_by_key`, which prefers the later of two equal keys. */
  function Better(best: Option<Candidate>, next: Candidate): Candidate {
    if best.None? || AtMost(best.value.used, next.used) then next else best.value
  }

  predicate Eligible(cfg: Config, cache: ProcessCache, pid: Pid) {
    Present(cache, pid) && !IsCritical(cfg, cache[pid].value, None)
  }

  // ---- what the figure is

  const DATA: string := "VmData:"
  const SWAP: string := "VmSwap:"

  /** The lines of a status file: the two fields that matter, each of which can be missing, and any others. */
  datatype Status = Status(before: seq<string>, data: Option<Field>, between: seq<string>, swap: Option<Field>, rest: seq<string>)

  function StatusText(st: Status): string {
    Unlines(st.before + FieldLines(DATA, st.data) + st.between + FieldLines(SWAP, st.swap) + st.rest)
  }

  ghost predicate Others(lines: seq<string>) {
    NoneStarts(lines, DATA) && NoneStarts(lines, SWAP)
  }

  ghost predicate StatusOk(st: Status) {
    && FieldPrinted(DATA, st.data) && FieldPrinted(SWAP, st.swap)
    && Others(st.before) && Others(st.between) && Others(st.rest)
  }

  /** The number printed in a field, nothing for a field that is missing. */
  function NumberIn(field: Option<Field>): nat {
    match field case None => 0 case Some(f) => f.n
  }

  function NumberOf(field: Option<Field>): Option<nat> {
    match field case None => None case Some(f) => Some(f.n)
  }

  lemma FieldLinesElsewhere(key: string, field: Option<Field>, other: string)
    requires FieldPrinted(key, field) && |key| == |other| && key != other
    ensures NoneStarts(FieldLines(key, field), other)
  {
    if field.Some? {
      FieldLineIsLine(key, field.value.gap, field.value.n, field.value.unit);
      assert FieldLine(key, field.value.gap, field.value.n, field.value.unit)[..|key|] == key;
    }
  }

  lemma DataRead(st: Status)
    requires StatusOk(st)
    ensures ExtractNum(StatusText(st), DATA) == NumberOf(st.data)
  {
    var rest := st.between + FieldLines(SWAP, st.swap) + st.rest;
    FieldLinesElsewhere(SWAP, st.swap, DATA);
    NoneStartsConcat(st.between, FieldLines(SWAP, st.swap), DATA);
    NoneStartsConcat(st.between + FieldLines(SWAP, st.swap), st.rest, DATA);
    assert st.before + FieldLines(DATA, st.data) + st.between + FieldLines(SWAP, st.swap) + st.rest
        == st.before + FieldLines(DATA, st.data) + rest;
    ExtractNumReads(st.before, DATA, st.data, rest);
  }

  lemma SwapRead(st: Status)
    requires StatusOk(st)
    ensures ExtractNum(StatusText(st), SWAP) == NumberOf(st.swap)
  {
    FieldLinesElsewhere(DATA, st.data, SWAP);
    NoneStartsConcat(st.before, FieldLines(DATA, st.data), SWAP);
    NoneStartsConcat(st.before + FieldLines(DATA, st.data), st.between, SWAP);
    ExtractNumReads(st.before + FieldLines(DATA, st.data) + st.between, SWAP, st.swap, st.rest);
  }

  lemma MemoryFrom(text: string, data: Option<nat>, swap: Option<nat>)
    requires ExtractNum(text, DATA) == data && ExtractNum(text, SWAP) == swap
    ensures MemoryUsed(text) == match data case None => None case Some(n) => Some((n + if swap.Some? then swap.value else 0) % USIZE)
  {
  }

  /**
   The memory of a process is the sum of the two printed numbers, in the width of
   a machine word; without a VmSwap line it is the first number, and without a
   VmData line it is unknown.
   */
  lemma MemoryIsSum(st: Status)
    requires StatusOk(st)
    ensures MemoryUsed(StatusText(st)) == match st.data case None => None case Some(f) => Some((f.n + NumberIn(st.swap)) % USIZE)
  {
    DataRead(st);
    SwapRead(st);
    MemoryFrom(StatusText(st), NumberOf(st.data), NumberOf(st.swap));
  }

  /** The kernel prints a tab, blanks, the number and the unit. */
  lemma KernelPrints(n: nat, gap: string)
    requires n < USIZE && forall c | c in gap :: c == ' '
    ensures FieldOk(DATA, "\t" + gap, n, " kB") && FieldOk(SWAP, "\t" + gap, n, " kB")
  {
  }

  lemma SmallModulo(n: nat)
    requires n < USIZE
    ensures n % USIZE == n
  {
  }

  /** A VmData line that cannot be read leaves the figure unknown, whatever VmSwap says. */
  lemma UnreadableDataIsUnknown(before: seq<string>, line: string, after: seq<string>)
    requires NoneStarts(before, DATA) && IsLine(line) && DATA <= line && forall l | l in after :: IsLine(l)
    requires |Words(line)| < 2 || ParseUsize(Words(line)[1]).None?
    ensures MemoryUsed(Unlines(before + [line] + after)) == None
  {
    var text := Unlines(before + [line] + after);
    NoNumeralNoNum(before, DATA, line, after);
    MemoryFrom(text, None, ExtractNum(text, SWAP));
  }

  ghost predicate PrintedAt(i: Instance, readings: Instance -> Reading, statuses: Instance -> Status) {
    && StatusOk(statuses(i)) && readings(i) == Contents(StatusText(statuses(i)))
    && NumberIn(statuses(i).data) + NumberIn(statuses(i).swap) < USIZE
  }

  /** Every eligible entry of the cache can be read, and its status is printed like this, with a sum in range. */
  ghost predicate Printed(cfg: Config, cache: ProcessCache, readings: Instance -> Reading, statuses: Instance -> Status) {
    forall pid | Eligible(cfg, cache, pid) :: PrintedAt(cache[pid].value.procDir, readings, statuses)
  }

  /** Said of the printed numbers: `b` is measured, and at least as large as `a`, if `a` is measured. */
  ghost predicate NotMore(a: Status, b: Status) {
    a.data.Some? ==> b.data.Some? && a.data.value.n + NumberIn(a.swap) <= b.data.value.n + NumberIn(b.swap)
  }

  /** The key by which victims are compared, of a status whose sum is in range. */
  lemma UsedIsSum(st: Status)
    requires StatusOk(st) && NumberIn(st.data) + NumberIn(st.swap) < USIZE
    ensures Used(Contents(StatusText(st))) == match st.data case None => None case Some(f) => Some(f.n + NumberIn(st.swap))
  {
    MemoryIsSum(st);
    SmallModulo(NumberIn(st.data) + NumberIn(st.swap));
    UsedIsMemory(StatusText(st), match st.data case None => None case Some(f) => Some(f.n + NumberIn(st.swap)));
  }

  lemma UsedIsMemory(text: string, used: Option<nat>)
    requires MemoryUsed(text) == used
    ensures Used(Contents(text)) == used
  {
  }

  lemma AtMostMeansNotMore(a: Instance, b: Instance, readings: Instance -> Reading, statuses: Instance -> Status)
    requires PrintedAt(a, readings, statuses) && PrintedAt(b, readings, statuses)
    requires AtMost(Used(readings(a)), Used(readings(b)))
    ensures NotMore(statuses(a), statuses(b))
  {
    UsedIsSum(statuses(a));
    UsedIsSum(statuses(b));
  }

  /** The two ways in which the selection panics, and with it the daemon ends. */
  datatype Choice = Victim(candidate: Candidate) | Panic

  /**
   The selection, over the cache in the order in which the map yields its
   entries. The victim's memory is the largest among all eligible entries, the
   last such entry is taken, and it is unreadable only if all of them are. Where
   the readings are status files as the kernel prints them, that memory is the sum
   of the two printed numbers.
   */
  method SelectVictim(cfg: Config, cache: ProcessCache, order: seq<Pid>, readings: Instance -> Reading,
                      ghost statuses: Instance -> Status)
    returns (r: Choice)
    requires forall pid | pid in cache :: pid in order
    requires forall i | 0 <= i < |order| :: order[i] in cache
    ensures r.Panic? <==>
            || (forall pid :: !Eligible(cfg, cache, pid))
            || (exists pid :: Eligible(cfg, cache, pid) && readings(cache[pid].value.procDir).Broken?)
    ensures r.Victim? ==>
              exists i | 0 <= i < |order| ::
                && Eligible(cfg, cache, order[i])
                && r.candidate == Candidate(cache[order[i]].value, Used(readings(cache[order[i]].value.procDir)))
                && (forall j | 0 <= j < |order| && Eligible(cfg, cache, order[j]) ::
                      var other := Used(readings(cache[order[j]].value.procDir));
                      AtMost(other, r.candidate.used) && (i < j ==> other != r.candidate.used))
    ensures r.Victim? && r.candidate.used.None? ==>
              forall pid | Eligible(cfg, cache, pid) :: Used(readings(cache[pid].value.procDir)).None?
    ensures r.Victim? && Printed(cfg, cache, readings, statuses) ==>
              forall pid | Eligible(cfg, cache, pid) ::
                   NotMore(statuses(cache[pid].value.procDir), statuses(r.candidate.handle.procDir))
  {
    var best: Option<Candidate> := None;
    ghost var at := 0;
    var n := 0;
    while n < |order|
      invariant n <= |order|
      invariant forall j | 0 <= j < n && Eligible(cfg, cache, order[j]) :: !readings(cache[order[j]].value.procDir).Broken?
      invariant best.None? ==> forall j | 0 <= j < n :: !Eligible(cfg, cache, order[j])
      invariant best.Some? ==>
                  && at < n && Eligible(cfg, cache, order[at])
                  && best.value == Candidate(cache[order[at]].value, Used(readings(cache[order[at]].value.procDir)))
                  && (forall j | 0 <= j < n && Eligible(cfg, cache, order[j]) ::
                        var other := Used(readings(cache[order[j]].value.procDir));
                        AtMost(other, best.value.used) && (at < j ==> other != best.value.used))
    {
      var entry := cache[order[n]];
      if entry.Some? && !IsCritical(cfg, entry.value, None) {
        var reading := readings(entry.value.procDir);
        if reading.Broken? { return Panic; }
        var next := Candidate(entry.value, Used(reading));
        if best.None? || AtMost(best.value.used, next.used) { at := n; }
        best := Some(Better(best, next));
      }
      n := n + 1;
    }
    if best.None? { return Panic; }
    r := Victim(best.value);
    if Printed(cfg, cache, readings, statuses) {
      forall pid | Eligible(cfg, cache, pid)
        ensures NotMore(statuses(cache[pid].value.procDir), statuses(r.candidate.handle.procDir))
      {
        AtMostMeansNotMore(cache[pid].value.procDir, r.candidate.handle.procDir, readings, statuses);
      }
    }
  }
}
