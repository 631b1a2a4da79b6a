/** `PsiReader`: stall totals read from the pressure file and turned into deltas. */
module Psi {
  import opened Wrappers
  import opened Text

  /** The part after the last `=`. */
  function AfterLastEquals(line: string): (r: Option<string>)
    ensures r.None? <==> '=' !in line
    ensures r.Some? ==> '=' !in r.value && |r.value| < |line| && line[|line| - |r.value| - 1..] == "=" + r.value
  {
    if line == "" then None
    else
      var n := |line| - 1;
      assert line == line[..n] + [line[n]];
      if line[n] == '=' then Some("")
      else match AfterLastEquals(line[..n])
        case None => None
        case Some(tail) => Some(tail + [line[n]])
  }

  /** The inner `get`; `None` where it would panic. */
  function Total(text: string, key: string): Option<nat> {
    match Find(Lines(text), l => Contains(l, key))
    case None => None
    case Some(line) =>
      match AfterLastEquals(line)
      case None => None
      case Some(total) => ParseUsize(total)
  }

  /** `usize` subtraction as compiled for release: it wraps around. */
  function WrappingSub(a: nat, b: nat): nat {
    (a as int - b as int) % USIZE
  }

  /** The subtraction is exact precisely when the total did not fall. */
  lemma NoUnderflowIff(a: nat, b: nat)
    requires a < USIZE && b < USIZE
    ensures WrappingSub(a, b) == a - b <==> b <= a
    ensures WrappingSub(a, b) == 0 <==> a == b
  {
    if b <= a {
    } else {
      assert WrappingSub(a, b) == a - b + USIZE;
    }
  }

  datatype PsiDelta = PsiDelta(some: nat, full: nat)

  lemma TotalBound(text: string, key: string)
    requires Total(text, key).Some?
    ensures Total(text, key).value < USIZE
  {
  }

  // ---- accounting over many readings

  /** The deltas that successive readings report. */
  function Deltas(prev: nat, totals: seq<nat>): seq<nat>
    decreases |totals|
  {
    if totals == [] then [] else [WrappingSub(totals[0], prev)] + Deltas(totals[0], totals[1..])
  }

  function Sum(s: seq<nat>): nat {
    if s == [] then 0 else s[0] + Sum(s[1..])
  }

  function Last(prev: nat, totals: seq<nat>): nat {
    if totals == [] then prev else totals[|totals| - 1]
  }

  /** No total is below the one before it. */
  ghost predicate Rising(prev: nat, totals: seq<nat>)
    decreases |totals|
  {
    totals != [] ==> prev <= totals[0] && Rising(totals[0], totals[1..])
  }

  /** Over any readings whose totals never fall, no subtraction underflows and the deltas add up to the whole growth. */
  lemma {:induction false} DeltasTelescope(prev: nat, totals: seq<nat>)
    requires prev < USIZE && forall i | 0 <= i < |totals| :: totals[i] < USIZE
    requires Rising(prev, totals)
    ensures |Deltas(prev, totals)| == |totals|
    ensures forall i | 0 <= i < |totals| :: Deltas(prev, totals)[i] == totals[i] - (if i == 0 then prev else totals[i - 1])
    ensures Sum(Deltas(prev, totals)) == Last(prev, totals) - prev
    decreases |totals|
  {
    if totals == [] {
    } else {
      NoUnderflowIff(totals[0], prev);
      DeltasTelescope(totals[0], totals[1..]);
      var rest := Deltas(totals[0], totals[1..]);
      assert Deltas(prev, totals)[1..] == rest;
      assert Last(totals[0], totals[1..]) == Last(prev, totals);
    }
  }

  /** Whatever the totals do, the sum of the deltas is right up to a multiple of the word size. */
  lemma {:induction false} DeltasTelescopeModulo(prev: nat, totals: seq<nat>)
    ensures (Sum(Deltas(prev, totals)) - (Last(prev, totals) - prev)) % USIZE == 0
    decreases |totals|
  {
    if totals == [] {
    } else {
      DeltasTelescopeModulo(totals[0], totals[1..]);
      var rest := Deltas(totals[0], totals[1..]);
      assert Deltas(prev, totals)[1..] == rest;
      assert Last(totals[0], totals[1..]) == Last(prev, totals);
      var d := totals[0] as int - prev as int;
      assert (d % USIZE - d) % USIZE == 0;
      var e := Sum(rest) - (Last(prev, totals) - totals[0]);
      assert Sum(Deltas(prev, totals)) - (Last(prev, totals) - prev) == (d % USIZE - d) + e;
      SumOfMultiples(d % USIZE - d, e);
    }
  }

  lemma SumOfMultiples(a: int, b: int)
    requires a % USIZE == 0 && b % USIZE == 0
    ensures (a + b) % USIZE == 0
  {
  }

  lemma {:induction false} DeltasSnoc(prev: nat, totals: seq<nat>, next: nat)
    ensures Deltas(prev, totals + [next]) == Deltas(prev, totals) + [WrappingSub(next, Last(prev, totals))]
    decreases |totals|
  {
    if totals == [] {
    } else {
      DeltasSnoc(totals[0], totals[1..], next);
      assert (totals + [next])[1..] == totals[1..] + [next];
      assert Last(totals[0], totals[1..]) == Last(prev, totals);
    }
  }

  predicate Readable(texts: seq<string>) {
    forall i | 0 <= i < |texts| :: Total(texts[i], "some").Some? && Total(texts[i], "full").Some?
  }

  /** The totals that the texts contain; 0 for a text without one. */
  function Totals(texts: seq<string>, key: string): (r: seq<nat>)
    ensures |r| == |texts| && forall i | 0 <= i < |r| :: r[i] < USIZE
  {
    seq(|texts|, i requires 0 <= i < |texts| => match Total(texts[i], key) case None => 0 case Some(n) => n)
  }

  function Somes(deltas: seq<PsiDelta>): seq<nat> {
    seq(|deltas|, i requires 0 <= i < |deltas| => deltas[i].some)
  }

  function Fulls(deltas: seq<PsiDelta>): seq<nat> {
    seq(|deltas|, i requires 0 <= i < |deltas| => deltas[i].full)
  }

  /** Reading `texts` one after the other from stored totals `some` and `full` gives `deltas` and leaves `some'` and `full'` stored. */
  ghost predicate Reports(some: nat, full: nat, texts: seq<string>, deltas: seq<PsiDelta>, some': nat, full': nat) {
    && Readable(texts)
    && Somes(deltas) == Deltas(some, Totals(texts, "some")) && some' == Last(some, Totals(texts, "some"))
    && Fulls(deltas) == Deltas(full, Totals(texts, "full")) && full' == Last(full, Totals(texts, "full"))
  }

  lemma TotalsSnoc(texts: seq<string>, text: string, key: string, total: nat)
    requires Total(text, key) == Some(total)
    ensures Totals(texts + [text], key) == Totals(texts, key) + [total]
  {
  }

  lemma FieldsSnoc(deltas: seq<PsiDelta>, delta: PsiDelta)
    ensures Somes(deltas + [delta]) == Somes(deltas) + [delta.some]
    ensures Fulls(deltas + [delta]) == Fulls(deltas) + [delta.full]
  {
  }

  lemma ReportsSnoc(some: nat, full: nat, texts: seq<string>, deltas: seq<PsiDelta>, some': nat, full': nat,
                    text: string, some2: nat, full2: nat)
    requires Reports(some, full, texts, deltas, some', full')
    requires Total(text, "some") == Some(some2) && Total(text, "full") == Some(full2)
    ensures Reports(some, full, texts + [text], deltas + [PsiDelta(WrappingSub(some2, some'), WrappingSub(full2, full'))], some2, full2)
  {
    TotalsSnoc(texts, text, "some", some2);
    TotalsSnoc(texts, text, "full", full2);
    DeltasSnoc(some, Totals(texts, "some"), some2);
    DeltasSnoc(full, Totals(texts, "full"), full2);
    FieldsSnoc(deltas, PsiDelta(WrappingSub(some2, some'), WrappingSub(full2, full')));
  }

  lemma FirstOnes(texts: seq<string>, i: nat)
    requires i < |texts|
    ensures texts[..i + 1] == texts[..i] + [texts[i]]
  {
  }

  /** One more of the texts has been read. */
  lemma OneMoreRead(some: nat, full: nat, texts: seq<string>, i: nat, deltas: seq<PsiDelta>, some': nat, full': nat,
                    delta: PsiDelta, some2: nat, full2: nat)
    requires i < |texts| && Reports(some, full, texts[..i], deltas, some', full')
    requires Total(texts[i], "some") == Some(some2) && Total(texts[i], "full") == Some(full2)
    requires delta == PsiDelta(WrappingSub(some2, some'), WrappingSub(full2, full'))
    ensures Reports(some, full, texts[..i + 1], deltas + [delta], some2, full2)
  {
    FirstOnes(texts, i);
    ReportsSnoc(some, full, texts[..i], deltas, some', full', texts[i], some2, full2);
  }

  /** While the totals of the file do not fall, what was reported adds up to the growth of what is stored. */
  lemma ReportsAddUp(some: nat, full: nat, texts: seq<string>, deltas: seq<PsiDelta>, some': nat, full': nat)
    requires Reports(some, full, texts, deltas, some', full') && some < USIZE && full < USIZE
    ensures Rising(some, Totals(texts, "some")) ==> Sum(Somes(deltas)) == some' - some
    ensures Rising(full, Totals(texts, "full")) ==> Sum(Fulls(deltas)) == full' - full
  {
    if Rising(some, Totals(texts, "some")) { DeltasTelescope(some, Totals(texts, "some")); }
    if Rising(full, Totals(texts, "full")) { DeltasTelescope(full, Totals(texts, "full")); }
  }

  // ---- the reader

  class PsiReader {
    var someTotalPrev: nat
    var fullTotalPrev: nat
    var buf: string

    ghost predicate Valid()
      reads this
    {
      someTotalPrev < USIZE && fullTotalPrev < USIZE
    }

    /** `new`, up to its first `read`. */
    constructor ()
      ensures Valid() && someTotalPrev == 0 && fullTotalPrev == 0
    {
      someTotalPrev := 0;
      fullTotalPrev := 0;
      buf := "";
    }

    /** `read`, given what the file contains at this moment; an error stands for a panic. */
    method Read(text: string) returns (r: Result<PsiDelta>)
      requires Valid()
      modifies this
      ensures Valid() && buf == text
      ensures r.Ok? <==> Total(text, "some").Some? && Total(text, "full").Some?
      ensures r.Ok? ==>
                && Total(text, "some") == Some(someTotalPrev) && Total(text, "full") == Some(fullTotalPrev)
                && r.value == PsiDelta(WrappingSub(someTotalPrev, old(someTotalPrev)),
                                       WrappingSub(fullTotalPrev, old(fullTotalPrev)))
      ensures r.Err? ==> someTotalPrev == old(someTotalPrev) && fullTotalPrev == old(fullTotalPrev)
    {
      buf := text;
      var someTotal := Total(buf, "some");
      if someTotal.None? { return Err; }
      var fullTotal := Total(buf, "full");
      if fullTotal.None? { return Err; }
      TotalBound(buf, "some");
      TotalBound(buf, "full");
      r := Ok(PsiDelta(WrappingSub(someTotal.value, someTotalPrev), WrappingSub(fullTotal.value, fullTotalPrev)));
      someTotalPrev := someTotal.value;
      fullTotalPrev := fullTotal.value;
    }

    /** The same reader used for one reading after the other, as the OOM thread uses it. */
    method ReadEach(texts: seq<string>) returns (r: Result<seq<PsiDelta>>)
      requires Valid()
      modifies this
      ensures Valid()
      ensures r.Ok? <==> Readable(texts)
      ensures r.Ok? ==> Reports(old(someTotalPrev), old(fullTotalPrev), texts, r.value, someTotalPrev, fullTotalPrev)
    {
      var deltas := [];
      var i := 0;
      while i < |texts|
        invariant i <= |texts|
        invariant Valid()
        invariant Reports(old(someTotalPrev), old(fullTotalPrev), texts[..i], deltas, someTotalPrev, fullTotalPrev)
      {
        ghost var some, full := someTotalPrev, fullTotalPrev;
        var one := Read(texts[i]);
        if one.Err? { return Err; }
        OneMoreRead(old(someTotalPrev), old(fullTotalPrev), texts, i, deltas, some, full, one.value, someTotalPrev, fullTotalPrev);
        deltas := deltas + [one.value];
        i := i + 1;
      }
      assert texts[..i] == texts;
      return Ok(deltas);
    }
  }

  // ---- the file format

  /** The two lines of the pressure file, with whatever averages precede the totals. */
  function Rendered(someAverages: string, some: nat, fullAverages: string, full: nat): string {
    Unlines(["some" + someAverages + "=" + Decimal(some), "full" + fullAverages + "=" + Decimal(full)])
  }

  lemma AfterLastEqualsSnoc(s: string, c: char)
    requires c != '='
    ensures AfterLastEquals(s + [c]) ==
            match AfterLastEquals(s) case None => None case Some(tail) => Some(tail + [c])
  {
  }

  lemma {:induction false} AfterLastEqualsReads(front: string, number: string)
    requires '=' !in number
    ensures AfterLastEquals(front + "=" + number) == Some(number)
  {
    if number == "" {
    } else {
      var n := |number| - 1;
      AfterLastEqualsReads(front, number[..n]);
      AfterLastEqualsSnoc(front + "=" + number[..n], number[n]);
      assert number[..n] + [number[n]] == number;
      assert front + "=" + number[..n] + [number[n]] == front + "=" + number;
    }
  }

  lemma TotalLine(name: string, averages: string, n: nat)
    requires '\n' !in name && '\n' !in averages && n < USIZE
    ensures var line := name + averages + "=" + Decimal(n);
            IsLine(line) && name <= line && Contains(line, name) && AfterLastEquals(line) == Some(Decimal(n))
  {
    var line := name + averages + "=" + Decimal(n);
    assert forall c | c in Decimal(n) :: '0' <= c <= '9';
    AfterLastEqualsReads(name + averages, Decimal(n));
    assert line[|line| - 1] == Decimal(n)[|Decimal(n)| - 1];
    assert name <= line[0..];
  }

  lemma TwoLines(a: string, b: string)
    requires IsLine(a) && IsLine(b)
    ensures Lines(Unlines([a, b])) == [a, b]
  {
    LinesUnlines([a, b], "");
    assert Unlines([a, b]) + "" == Unlines([a, b]);
    assert [a, b] + [] == [a, b];
  }

  lemma TotalFromLine(text: string, before: seq<string>, line: string, after: seq<string>, key: string, n: nat)
    requires Lines(text) == before + ([line] + after) && n < USIZE
    requires forall l | l in before :: !Contains(l, key)
    requires Contains(line, key) && AfterLastEquals(line) == Some(Decimal(n))
    ensures Total(text, key) == Some(n)
  {
    var test := l => Contains(l, key);
    FindSkips(before, [line] + after, test);
    ParseNumeral(Decimal(n), 10, n);
  }

  /** The digits stand after the last equals sign of the line. */
  ghost predicate EndsIn(line: string, digits: string) {
    '=' !in digits && exists front :: line == front + ("=" + digits)
  }

  lemma EndsInIff(line: string, digits: string)
    ensures EndsIn(line, digits) <==> AfterLastEquals(line) == Some(digits)
  {
    if EndsIn(line, digits) {
      var front :| line == front + ("=" + digits);
      assert line == front + "=" + digits;
      AfterLastEqualsReads(front, digits);
    } else if AfterLastEquals(line) == Some(digits) {
      SplitBefore(line, "=" + digits);
    }
  }

  lemma SplitBefore(line: string, tail: string)
    requires |tail| <= |line| && line[|line| - |tail|..] == tail
    ensures line == line[..|line| - |tail|] + tail
  {
  }

  /** Line number `i` is the first with the key, and it ends in a number. */
  ghost predicate TotalAt(lines: seq<string>, key: string, i: nat, digits: string, n: nat) {
    && i < |lines| && Contains(lines[i], key) && (forall j | 0 <= j < i :: !Contains(lines[j], key))
    && EndsIn(lines[i], digits) && ParseUsize(digits) == Some(n)
  }

  lemma {:induction false} FirstExists(lines: seq<string>, key: string) returns (i: nat)
    requires exists l | l in lines :: Contains(l, key)
    ensures i < |lines| && Contains(lines[i], key) && forall j | 0 <= j < i :: !Contains(lines[j], key)
  {
    if Contains(lines[0], key) {
      i := 0;
    } else {
      i := FirstExists(lines[1..], key);
      i := i + 1;
    }
  }

  lemma TotalFrom(text: string, key: string, i: nat)
    requires var lines := Lines(text);
             i < |lines| && Contains(lines[i], key) && forall j | 0 <= j < i :: !Contains(lines[j], key)
    ensures Total(text, key) == match AfterLastEquals(Lines(text)[i]) case None => None case Some(digits) => ParseUsize(digits)
  {
    var lines, test := Lines(text), l => Contains(l, key);
    FindSkips(lines[..i], lines[i..], test);
    assert lines == lines[..i] + lines[i..];
  }

  /** Exactly when the file has a total for the key, and which; in every other case the source panics. */
  lemma TotalIff(text: string, key: string, n: nat)
    ensures Total(text, key) == Some(n) <==> exists i: nat, digits: string :: TotalAt(Lines(text), key, i, digits, n)
  {
    var lines := Lines(text);
    if Total(text, key) == Some(n) {
      var i := FirstExists(lines, key);
      TotalFrom(text, key, i);
      var digits := AfterLastEquals(lines[i]).value;
      EndsInIff(lines[i], digits);
      assert TotalAt(lines, key, i, digits, n);
    }
    if i: nat, digits: string :| TotalAt(lines, key, i, digits, n) {
      TotalFrom(text, key, i);
      EndsInIff(lines[i], digits);
    }
  }

  lemma NoFullInSome(someAverages: string, some: nat)
    requires 'f' !in someAverages
    ensures !Contains("some" + someAverages + "=" + Decimal(some), "full")
  {
    var line := "some" + someAverages + "=" + Decimal(some);
    assert forall c | c in Decimal(some) :: '0' <= c <= '9';
    assert 'f' !in line;
    assert forall i | 0 <= i < |line| :: line[i..][0] == line[i];
    assert "full"[0] == 'f';
  }

  /** Reading a rendered pressure file gives both totals back: the key words do not get in each other's way. */
  lemma TotalsRead(someAverages: string, some: nat, fullAverages: string, full: nat)
    requires '\n' !in someAverages && 'f' !in someAverages && '\n' !in fullAverages
    requires some < USIZE && full < USIZE
    ensures Total(Rendered(someAverages, some, fullAverages, full), "some") == Some(some)
    ensures Total(Rendered(someAverages, some, fullAverages, full), "full") == Some(full)
  {
    TotalLine("some", someAverages, some);
    TotalLine("full", fullAverages, full);
    NoFullInSome(someAverages, some);
    TwoTotals("some" + someAverages + "=" + Decimal(some), "some", some, "full" + fullAverages + "=" + Decimal(full), "full", full);
  }

  lemma TwoTotals(a: string, keyA: string, m: nat, b: string, keyB: string, n: nat)
    requires IsLine(a) && Contains(a, keyA) && AfterLastEquals(a) == Some(Decimal(m)) && m < USIZE
    requires IsLine(b) && Contains(b, keyB) && AfterLastEquals(b) == Some(Decimal(n)) && n < USIZE
    requires !Contains(a, keyB)
    ensures Total(Unlines([a, b]), keyA) == Some(m) && Total(Unlines([a, b]), keyB) == Some(n)
  {
    TwoLines(a, b);
    assert [a, b] == [] + ([a] + [b]) == [a] + ([b] + []);
    TotalFromLine(Unlines([a, b]), [], a, [b], keyA, m);
    TotalFromLine(Unlines([a, b]), [a], b, [], keyB, n);
  }
}
