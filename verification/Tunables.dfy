/** `kernel_tweaks`: writing kernel tunables at start and putting them back at the end. */
module Tunables {
  import opened Wrappers

  /** A tunable holds one value, or offers options of which one is chosen; the latter shows as `a [b] c`. */
  datatype Tunable = Plain(value: string) | Selector(options: seq<string>, chosen: nat)

  predicate OptionName(s: string) {
    s != "" && '[' !in s && ']' !in s && '\n' !in s
  }

  ghost predicate WellFormed(t: Tunable) {
    match t
    case Plain(value) => value == "" || value[|value| - 1] != '\n'
    case Selector(options, chosen) =>
      && chosen < |options|
      && (forall i | 0 <= i < |options| :: OptionName(options[i]))
      && (forall i, j | 0 <= i < j < |options| :: options[i] != options[j])
  }

  /** The options separated by blanks, the chosen one (if it is among these) in brackets. */
  function ShownOptions(options: seq<string>, chosen: int): string {
    if options == [] then ""
    else
      (if chosen == 0 then "[" + options[0] + "]" else options[0])
      + (if |options| == 1 then "" else " " + ShownOptions(options[1..], chosen - 1))
  }

  /** What reading the file gives. */
  function Shown(t: Tunable): string {
    match t
    case Plain(value) => if value == "" then "" else value + "\n"
    case Selector(options, chosen) => ShownOptions(options, chosen) + "\n"
  }

  function StripNewline(s: string): string {
    if s != "" && s[|s| - 1] == '\n' then s[..|s| - 1] else s
  }

  function IndexOfOption(options: seq<string>, s: string): (r: Option<nat>)
    ensures r.Some? ==> r.value < |options| && options[r.value] == s
    ensures r.None? ==> s !in options
  {
    if options == [] then None
    else if options[0] == s then Some(0)
    else match IndexOfOption(options[1..], s) case None => None case Some(i) => Some(i + 1)
  }

  /** What the kernel makes of text written to the file; `None` if it is not one of the options. */
  function Written(t: Tunable, s: string): Option<Tunable> {
    match t
    case Plain(_) => Some(Plain(StripNewline(s)))
    case Selector(options, _) =>
      match IndexOfOption(options, StripNewline(s))
      case None => None
      case Some(i) => Some(Selector(options, i))
  }

  // ---- taking the chosen option out of the text

  function DropTo(s: string, c: char): string {
    if s == "" || s[0] == c then s else DropTo(s[1..], c)
  }

  function TakeTo(s: string, c: char): string {
    if s == "" || s[0] == c then "" else [s[0]] + TakeTo(s[1..], c)
  }

  /** `skip_while(.. != '[')`, `skip(1)`, `take_while(.. != ']')`. */
  function Bracketed(s: string): string {
    var t := DropTo(s, '[');
    TakeTo(if t == "" then "" else t[1..], ']')
  }

  function Restorable(text: string): string {
    if '[' in text then Bracketed(text) else text
  }

  lemma {:induction false} DropToSkips(front: string, s: string, c: char)
    requires c !in front
    ensures DropTo(front + s, c) == DropTo(s, c)
  {
    if front == "" {
      assert front + s == s;
    } else {
      DropToSkips(front[1..], s, c);
      assert (front + s)[1..] == front[1..] + s;
    }
  }

  lemma {:induction false} TakeToStops(front: string, c: char, rest: string)
    requires c !in front
    ensures TakeTo(front + [c] + rest, c) == front
  {
    if front == "" {
    } else {
      TakeToStops(front[1..], c, rest);
      assert (front + [c] + rest)[1..] == front[1..] + [c] + rest;
    }
  }

  lemma {:induction false} ShownOptionsBracketed(options: seq<string>, chosen: nat, tail: string)
    requires chosen < |options| && forall i | 0 <= i < |options| :: OptionName(options[i])
    ensures '[' in ShownOptions(options, chosen)
    ensures Bracketed(ShownOptions(options, chosen) + tail) == options[chosen]
  {
    var rest := ShownOptions(options[1..], chosen - 1);
    var more := if |options| == 1 then "" else " " + rest;
    if chosen == 0 {
      var s := ShownOptions(options, chosen) + tail;
      assert s == "[" + (options[0] + [']'] + (more + tail));
      assert s[1..] == options[0] + [']'] + (more + tail);
      TakeToStops(options[0], ']', more + tail);
    } else {
      ShownOptionsBracketed(options[1..], chosen - 1, tail);
      var front := options[0] + " ";
      assert ShownOptions(options, chosen) == front + rest;
      assert ShownOptions(options, chosen) + tail == front + (rest + tail);
      DropToSkips(front, rest + tail, '[');
    }
  }

  lemma {:induction false} TakeToShrinks(s: string, c: char)
    ensures |TakeTo(s, c)| <= |s| && TakeTo(s, c) == s[..|TakeTo(s, c)|]
  {
    if s != "" && s[0] != c { TakeToShrinks(s[1..], c); }
  }

  lemma {:induction false} DropToShrinks(s: string, c: char)
    ensures |DropTo(s, c)| <= |s| && DropTo(s, c) == s[|s| - |DropTo(s, c)|..]
    ensures |DropTo(s, c)| == |s| ==> s == "" || s[0] == c
  {
    if s != "" && s[0] != c { DropToShrinks(s[1..], c); }
  }

  predicate SameKind(a: Tunable, b: Tunable) {
    a.Plain? == b.Plain? && (a.Selector? ==> a.options == b.options)
  }

  /** A plain value containing an opening bracket comes back as something else. */
  lemma BracketedDiffers(value: string)
    requires '[' in value && value[|value| - 1] != '\n'
    ensures StripNewline(Bracketed(value + "\n")) != value
  {
    var s := value + "\n";
    var t := DropTo(s, '[');
    DropToShrinks(s, '[');
    var u := if t == "" then "" else t[1..];
    TakeToShrinks(u, ']');
  }

  lemma PlainRestoresIff(value: string)
    requires WellFormed(Plain(value)) && value != ""
    ensures StripNewline(Restorable(value + "\n")) == value <==> '[' !in value
  {
    if '[' in value {
      BracketedDiffers(value);
    } else {
      assert StripNewline(value + "\n") == value;
    }
  }

  lemma SelectorRestores(options: seq<string>, chosen: nat)
    requires WellFormed(Selector(options, chosen))
    ensures IndexOfOption(options, StripNewline(Restorable(Shown(Selector(options, chosen))))) == Some(chosen)
  {
    ShownOptionsBracketed(options, chosen, "\n");
    var name := options[chosen];
    assert OptionName(name);
    assert StripNewline(name) == name;
    var i := IndexOfOption(options, name);
    assert i.Some? && options[i.value] == options[chosen];
  }

  /**
   Writing back what the file showed restores its value whatever it holds in
   the meantime, exactly when it is a selector or its value has no opening
   bracket. Files that show nothing are never written back.
   */
  lemma RestoresIff(original: Tunable, now: Tunable)
    requires WellFormed(original) && SameKind(original, now) && Shown(original) != ""
    ensures Written(now, Restorable(Shown(original))) == Some(original) <==> (original.Plain? ==> '[' !in original.value)
  {
    match original {
      case Plain(value) => PlainRestoresIff(value);
      case Selector(options, chosen) => SelectorRestores(options, chosen);
    }
  }

  // ---- apply and revert

  type Files = map<string, Tunable>
  type Tweak = (string, string)

  predicate DistinctPaths(values: seq<Tweak>) {
    forall i, j | 0 <= i < j < |values| :: values[i].0 != values[j].0
  }

  /** The values that the daemon sets. */
  const TWEAKS: seq<Tweak> := [
    ("/proc/sys/vm/min_free_kbytes", "1048576"),
    ("/proc/sys/kernel/sched_autogroup_enabled", "0"),
    ("/proc/sys/vm/page-cluster", "0"),
    ("/sys/module/zswap/parameters/enabled", "N"),
    ("/proc/sys/vm/swappiness", "180"),
    ("/proc/sys/vm/dirty_bytes", "268435456"),
    ("/proc/sys/vm/dirty_background_bytes", "134217728")
  ]

  lemma TweaksAreDistinct()
    ensures DistinctPaths(TWEAKS)
  {
  }

  /** The text of a file, nothing for a file that does not exist. */
  function TextOf(files: Files, path: string): string {
    if path in files then Shown(files[path]) else ""
  }

  /** The earlier text of each file. */
  ghost predicate Saved(files: Files, values: seq<Tweak>, prev: seq<string>) {
    |prev| == |values| && forall i | 0 <= i < |values| :: prev[i] == TextOf(files, values[i].0)
  }

  lemma SavedStep(files: Files, values: seq<Tweak>, n: nat, prev: seq<string>)
    requires n < |values| && Saved(files, values[..n], prev)
    ensures Saved(files, values[..n + 1], prev + [TextOf(files, values[n].0)])
  {
  }

  /** The tweak goes through: its file is missing, or can be read and takes the value. */
  predicate TweakOk(files: Files, unreadable: set<string>, refused: set<string>, tweak: Tweak) {
    tweak.0 in files ==> tweak.0 !in unreadable && Accepts(files, refused, tweak.0, tweak.1)
  }

  /** The first `n` tweaks are in place, nothing else has changed. */
  ghost predicate AppliedUpTo(before: Files, values: seq<Tweak>, n: nat, after: Files) {
    && after.Keys == before.Keys
    && (forall i | 0 <= i < n && i < |values| && values[i].0 in before ::
          Written(before[values[i].0], values[i].1) == Some(after[values[i].0]))
    && (forall i | n <= i < |values| && values[i].0 in before :: after[values[i].0] == before[values[i].0])
    && (forall p | p in before && (forall i | 0 <= i < |values| :: values[i].0 != p) :: after[p] == before[p])
  }

  lemma AppliedStep(before: Files, values: seq<Tweak>, n: nat, mid: Files, after: Files)
    requires DistinctPaths(values) && n < |values| && AppliedUpTo(before, values, n, mid)
    requires var (path, value) := values[n];
             if path in before then Written(before[path], value).Some? && after == mid[path := Written(before[path], value).value]
             else after == mid
    ensures AppliedUpTo(before, values, n + 1, after)
  {
  }

  predicate Accepts(files: Files, refused: set<string>, path: string, text: string) {
    path in files && path !in refused && Written(files[path], text).Some?
  }

  /** The first `n` tweaks are taken back; a write that the kernel refuses is only reported. */
  ghost predicate RevertedUpTo(before: Files, values: seq<Tweak>, prev: seq<string>, refused: set<string>, n: nat, after: Files)
    requires |prev| == |values|
  {
    && after.Keys == before.Keys
    && (forall i | 0 <= i < |values| && values[i].0 in before ::
          var path := values[i].0;
          if i < n && prev[i] != "" && Accepts(before, refused, path, Restorable(prev[i]))
          then Written(before[path], Restorable(prev[i])) == Some(after[path])
          else after[path] == before[path])
    && (forall p | p in before && (forall i | 0 <= i < |values| :: values[i].0 != p) :: after[p] == before[p])
  }

  lemma RevertedStep(before: Files, values: seq<Tweak>, prev: seq<string>, refused: set<string>, n: nat, mid: Files, after: Files)
    requires DistinctPaths(values) && n < |values| && |prev| == |values|
    requires RevertedUpTo(before, values, prev, refused, n, mid)
    requires var path := values[n].0;
             if prev[n] != "" && Accepts(mid, refused, path, Restorable(prev[n]))
             then after == mid[path := Written(mid[path], Restorable(prev[n])).value]
             else after == mid
    ensures RevertedUpTo(before, values, prev, refused, n + 1, after)
  {
  }

  ghost predicate AllWellFormed(files: Files) {
    forall path | path in files :: WellFormed(files[path])
  }

  /** A file that is still there is of the same kind; the values may be any. */
  ghost predicate KindsKept(original: Files, meanwhile: Files) {
    forall path | path in original && path in meanwhile :: SameKind(original[path], meanwhile[path])
  }

  /** Writing back what the file showed brings its value back. */
  predicate Recoverable(t: Tunable) {
    t.Plain? ==> '[' !in t.value
  }

  /**
   Which files end as they were at the start, when the first `m` tweaks have been
   taken back and `refused` could not be written: of those that showed text, the
   recoverable ones among the written, and of the others those that happened to
   hold their value. Files that showed nothing, were missing at the start, or are
   not in the list, are left as they were meanwhile.
   */
  ghost predicate RestoredExactly(original: Files, meanwhile: Files, values: seq<Tweak>, refused: set<string>, m: nat, final: Files) {
    && final.Keys == meanwhile.Keys
    && (forall k | 0 <= k < |values| && values[k].0 in original && values[k].0 in meanwhile ::
          RestoredAt(original, meanwhile, values[k].0, k < m && values[k].0 !in refused, final))
    && (forall path | path in meanwhile && (path !in original || forall k | 0 <= k < |values| :: values[k].0 != path) ::
          final[path] == meanwhile[path])
  }

  predicate RestoredAt(original: Files, meanwhile: Files, path: string, written: bool, final: Files)
    requires path in original && path in meanwhile && path in final
  {
    if Shown(original[path]) == "" then final[path] == meanwhile[path]
    else if written then final[path] == original[path] <==> Recoverable(original[path])
    else final[path] == meanwhile[path]
  }

  /**
   Whatever tweaks were made and whatever others do to the values in between:
   taking back the first `m` tweaks, with some writes refused, restores exactly
   the files stated.
   */
  lemma RoundTrip(values: seq<Tweak>, original: Files, meanwhile: Files, reverted: Files, prev: seq<string>, refused: set<string>, m: nat)
    requires AllWellFormed(original) && KindsKept(original, meanwhile) && Saved(original, values, prev)
    requires RevertedUpTo(meanwhile, values, prev, refused, m, reverted)
    ensures RestoredExactly(original, meanwhile, values, refused, m, reverted)
  {
    forall k | 0 <= k < |values| && values[k].0 in original && values[k].0 in meanwhile
      ensures RestoredAt(original, meanwhile, values[k].0, k < m && values[k].0 !in refused, reverted)
    {
      var path := values[k].0;
      assert prev[k] == Shown(original[path]);
      if prev[k] != "" {
        RestoresIff(original[path], meanwhile[path]);
        assert meanwhile[path].Plain? ==> Written(meanwhile[path], Restorable(prev[k])).Some?;
      }
    }
  }

  /** A start that fails half way leaves tweaks in place that exit does not take back: the first of the list, if the second is refused. */
  lemma FailedStartKeepsTweaks()
    ensures exists before: Files, refused: set<string> ::
              && AllWellFormed(before)
              && TweakOk(before, {}, refused, TWEAKS[0]) && !TweakOk(before, {}, refused, TWEAKS[1])
              && TWEAKS[0].0 in before
              && forall applied | AppliedUpTo(before, TWEAKS, 1, applied) :: applied[TWEAKS[0].0] != before[TWEAKS[0].0]
  {
    var before: Files := map[TWEAKS[0].0 := Plain("1"), TWEAKS[1].0 := Plain("1")];
    var refused := {TWEAKS[1].0};
    forall applied | AppliedUpTo(before, TWEAKS, 1, applied) ensures applied[TWEAKS[0].0] != before[TWEAKS[0].0] {
      assert Written(before[TWEAKS[0].0], TWEAKS[0].1) == Some(applied[TWEAKS[0].0]);
    }
    assert !TweakOk(before, {}, refused, TWEAKS[1]);
  }

  datatype Outcome = Done | Failed | Panicked

  class Sysfs {
    var files: Files

    constructor (files: Files)
      ensures this.files == files
    {
      this.files := files;
    }

    /** `kernel_tweaks(None)`. An error leaves the tweaks made so far in place and loses the saved texts. */
    method Apply(values: seq<Tweak>, unreadable: set<string>, refused: set<string>) returns (r: Result<seq<string>>, ghost n: nat)
      requires DistinctPaths(values)
      modifies this
      ensures n <= |values| && AppliedUpTo(old(files), values, n, files)
      ensures r.Ok? ==> n == |values| && Saved(old(files), values, r.value)
      ensures r.Ok? ==> forall i | 0 <= i < |values| :: TweakOk(old(files), unreadable, refused, values[i])
      ensures r.Err? ==> n < |values| && !TweakOk(old(files), unreadable, refused, values[n])
    {
      var prev := [];
      n := 0;
      for i := 0 to |values|
        invariant n == i && AppliedUpTo(old(files), values, i, files)
        invariant Saved(old(files), values[..i], prev)
        invariant forall j | 0 <= j < i :: TweakOk(old(files), unreadable, refused, values[j])
      {
        var (path, value) := values[i];
        assert path in files ==> path in old(files) && files[path] == old(files)[path];
        SavedStep(old(files), values, i, prev);
        if path in files {
          if path in unreadable { return Err, n; }
          prev := prev + [Shown(files[path])];
          if path in refused || Written(files[path], value).None? { return Err, n; }
          ghost var mid := files;
          files := files[path := Written(files[path], value).value];
          AppliedStep(old(files), values, i, mid, files);
        } else {
          prev := prev + [""];
          AppliedStep(old(files), values, i, files, files);
        }
        n := i + 1;
      }
      assert values[..|values|] == values;
      return Ok(prev), n;
    }

    /** `kernel_tweaks(Some(prev))`. A file that has gone missing ends it early. */
    method Revert(values: seq<Tweak>, prev: seq<string>, refused: set<string>) returns (r: Outcome, ghost n: nat)
      requires DistinctPaths(values)
      modifies this
      ensures r.Panicked? <==> |prev| != |values|
      ensures r.Panicked? ==> files == old(files)
      ensures !r.Panicked? ==> n <= |values| && RevertedUpTo(old(files), values, prev, refused, n, files)
      ensures r.Done? ==> n == |values|
      ensures r.Failed? ==> n < |values| && values[n].0 !in files && prev[n] != ""
      ensures r.Done? ==> forall i | 0 <= i < |values| && prev[i] != "" :: values[i].0 in files
    {
      n := 0;
      if |prev| != |values| { return Panicked, n; }
      for i := 0 to |values|
        invariant n == i && RevertedUpTo(old(files), values, prev, refused, i, files)
        invariant forall j | 0 <= j < i && prev[j] != "" :: values[j].0 in files
      {
        var path := values[i].0;
        var value := prev[i];
        ghost var mid := files;
        if value != "" {
          if '[' in value { value := Bracketed(value); }
          if path !in files { return Failed, n; }
          if path !in refused && Written(files[path], value).Some? {
            files := files[path := Written(files[path], value).value];
          }
        }
        RevertedStep(old(files), values, prev, refused, i, mid, files);
        n := i + 1;
      }
      return Done, n;
    }

    /**
     The whole life of the daemon: the tweaks at start, whatever `others` do to
     the files in between, and at exit the way back, which is taken only if the
     start went through. `m` tweaks are taken back.
     */
    method WholeLife(values: seq<Tweak>, unreadable: set<string>, refused: set<string>, others: Files -> Files, refusedAtExit: set<string>)
      returns (ok: bool, ghost applied: Files, ghost n: nat, ghost m: nat)
      requires DistinctPaths(values)
      modifies this
      ensures n <= |values| && AppliedUpTo(old(files), values, n, applied)
      ensures ok <==> forall i | 0 <= i < |values| :: TweakOk(old(files), unreadable, refused, values[i])
      ensures !ok ==> m == 0 && files == others(applied) && n < |values| && !TweakOk(old(files), unreadable, refused, values[n])
      ensures ok ==> n == |values| && m <= |values|
      ensures ok && m < |values| ==> values[m].0 !in others(applied)
      ensures AllWellFormed(old(files)) && KindsKept(old(files), others(applied)) ==>
                RestoredExactly(old(files), others(applied), values, refusedAtExit, m, files)
    {
      var saved;
      saved, n := Apply(values, unreadable, refused);
      applied := files;
      files := others(files);
      ok := saved.Ok?;
      if !ok {
        m := 0;
        return;
      }
      var outcome;
      outcome, m := Revert(values, saved.value, refusedAtExit);
      if AllWellFormed(old(files)) && KindsKept(old(files), others(applied)) {
        RoundTrip(values, old(files), others(applied), files, saved.value, refusedAtExit, m);
      }
    }
  }
}
