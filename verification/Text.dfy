/** The text scanning that the daemon does on `/proc` files, with the printers it inverts. */
module Text {
  import opened Wrappers

  const USIZE: nat := 0x1_0000_0000_0000_0000

  // ---- lines

  /** Position of the first `c`, or the length. */
  function IndexOf(s: string, c: char): (i: nat)
    ensures i <= |s| && c !in s[..i] && (i < |s| ==> s[i] == c)
  {
    if s == "" || s[0] == c then 0 else 1 + IndexOf(s[1..], c)
  }

  function StripCr(line: string): string {
    if line != "" && line[|line| - 1] == '\r' then line[..|line| - 1] else line
  }

  /** `str::lines`: a final line break starts no further line. */
  function Lines(s: string): seq<string>
    decreases |s|
  {
    if s == "" then []
    else
      var i := IndexOf(s, '\n');
      if i == |s| then [s] else [StripCr(s[..i])] + Lines(s[i + 1..])
  }

  predicate IsLine(s: string) {
    '\n' !in s && (s != "" ==> s[|s| - 1] != '\r')
  }

  function Unlines(lines: seq<string>): string {
    if lines == [] then "" else lines[0] + "\n" + Unlines(lines[1..])
  }

  lemma {:induction false} IndexOfAt(a: string, c: char, b: string)
    requires c !in a
    ensures IndexOf(a + [c] + b, c) == |a|
  {
    if a == "" {
      assert (a + [c] + b)[0] == c;
    } else {
      IndexOfAt(a[1..], c, b);
      assert (a + [c] + b)[1..] == a[1..] + [c] + b;
    }
  }

  lemma LinesCons(line: string, rest: string)
    requires IsLine(line)
    ensures Lines(line + "\n" + rest) == [line] + Lines(rest)
  {
    IndexOfAt(line, '\n', rest);
    var s := line + ['\n'] + rest;
    assert s[..|line|] == line && s[|line| + 1..] == rest;
  }

  /** A line break can be preceded by a carriage return, which is no part of the line either. */
  lemma CarriageReturnGoes(line: string, rest: string)
    requires IsLine(line)
    ensures Lines(line + "\r\n" + rest) == [line] + Lines(rest)
  {
    IndexOfAt(line + "\r", '\n', rest);
    var s := line + "\r" + ['\n'] + rest;
    assert s == line + "\r\n" + rest;
    assert s[..|line| + 1] == line + "\r" && s[|line| + 2..] == rest;
  }

  lemma UnlinesSplit(lines: seq<string>, rest: string)
    requires lines != []
    ensures Unlines(lines) + rest == lines[0] + "\n" + (Unlines(lines[1..]) + rest)
  {
  }

  lemma PrependLine(line: string, lines: seq<string>, tail: string, more: seq<string>)
    requires IsLine(line) && Lines(tail) == lines + more
    ensures Lines(line + "\n" + tail) == [line] + lines + more
  {
    LinesCons(line, tail);
    assert [line] + (lines + more) == [line] + lines + more;
  }

  /** Text made of lines is read back as these lines. */
  lemma {:induction false} LinesUnlines(lines: seq<string>, rest: string)
    requires forall i | 0 <= i < |lines| :: IsLine(lines[i])
    ensures Lines(Unlines(lines) + rest) == lines + Lines(rest)
  {
    if lines == [] {
      assert "" + rest == rest;
      assert lines + Lines(rest) == Lines(rest);
    } else {
      LinesUnlines(lines[1..], rest);
      UnlinesSplit(lines, rest);
      PrependLine(lines[0], lines[1..], Unlines(lines[1..]) + rest, Lines(rest));
      assert [lines[0]] + lines[1..] == lines;
    }
  }

  /** `lines().find(..)`. */
  function Find(lines: seq<string>, test: string -> bool): (r: Option<string>)
    ensures r.Some? ==> r.value in lines && test(r.value)
    ensures r.None? ==> forall l | l in lines :: !test(l)
  {
    if lines == [] then None
    else if test(lines[0]) then Some(lines[0])
    else Find(lines[1..], test)
  }

  lemma {:induction false} FindSkips(before: seq<string>, after: seq<string>, test: string -> bool)
    requires forall l | l in before :: !test(l)
    ensures Find(before + after, test) == Find(after, test)
  {
    if before == [] {
      assert before + after == after;
    } else {
      FindSkips(before[1..], after, test);
      assert (before + after)[1..] == before[1..] + after;
    }
  }

  /** `str::contains` for a string. */
  predicate Contains(s: string, key: string) {
    exists i | 0 <= i <= |s| :: key <= s[i..]
  }

  /** It is the string between two others. */
  lemma ContainsIff(s: string, key: string)
    ensures Contains(s, key) <==> exists a, b :: s == a + key + b
  {
    if i :| 0 <= i <= |s| && key <= s[i..] {
      assert s == s[..i] + key + s[i + |key|..];
    }
    if a, b :| s == a + key + b {
      assert s[|a|..] == key + b;
    }
  }

  // ---- words

  predicate IsBlank(c: char) {
    c == ' ' || c == '\t' || c == '\n' || c == '\r' || c == 0xB as char || c == 0xC as char
  }

  predicate AllBlank(s: string) {
    forall c | c in s :: IsBlank(c)
  }

  predicate NoBlank(s: string) {
    forall c | c in s :: !IsBlank(c)
  }

  function SkipBlanks(s: string): (r: string)
    ensures |r| <= |s| && (r != "" ==> !IsBlank(r[0]))
  {
    if s != "" && IsBlank(s[0]) then SkipBlanks(s[1..]) else s
  }

  function WordLength(s: string): (n: nat)
    ensures n <= |s| && NoBlank(s[..n]) && (n < |s| ==> IsBlank(s[n]))
    ensures s != "" && !IsBlank(s[0]) ==> 0 < n
  {
    if s == "" || IsBlank(s[0]) then 0 else 1 + WordLength(s[1..])
  }

  /** `str::split_whitespace`. */
  function Words(s: string): seq<string>
    decreases |s|
  {
    var t := SkipBlanks(s);
    if t == "" then [] else var n := WordLength(t); [t[..n]] + Words(t[n..])
  }

  lemma {:induction false} WordLengthAt(word: string, rest: string)
    requires NoBlank(word)
    requires rest == "" || IsBlank(rest[0])
    ensures WordLength(word + rest) == |word|
  {
    if word == "" {
      assert word + rest == rest;
    } else {
      WordLengthAt(word[1..], rest);
      assert (word + rest)[1..] == word[1..] + rest;
    }
  }

  lemma WordsCons(gap: string, word: string, rest: string)
    requires AllBlank(gap) && NoBlank(word) && word != ""
    requires rest == "" || IsBlank(rest[0])
    ensures Words(gap + word + rest) == [word] + Words(rest)
  {
    var t := word + rest;
    SkipsGap(gap, t);
    assert gap + word + rest == gap + t;
    WordLengthAt(word, rest);
    assert t[..|word|] == word && t[|word|..] == rest;
  }

  lemma WordsFirst(s: string, word: string, rest: string, more: seq<string>)
    requires NoBlank(word) && word != "" && (rest == "" || IsBlank(rest[0]))
    requires s == word + rest && Words(rest) == more
    ensures Words(s) == [word] + more
  {
    WordsCons("", word, rest);
    assert "" + word + rest == word + rest;
  }

  lemma Assoc(a: string, b: string, c: string)
    ensures a + b + c == a + (b + c)
  {
  }

  lemma {:induction false} SkipsGap(gap: string, s: string)
    requires AllBlank(gap) && s != "" && !IsBlank(s[0])
    ensures SkipBlanks(gap + s) == s
  {
    if gap == "" {
      assert gap + s == s;
    } else {
      SkipsGap(gap[1..], s);
      assert (gap + s)[1..] == gap[1..] + s;
    }
  }

  // ---- numbers

  function DigitOf(c: char): Option<nat> {
    if '0' <= c <= '9' then Some(c as nat - '0' as nat)
    else if 'a' <= c <= 'f' then Some(c as nat - 'a' as nat + 10)
    else if 'A' <= c <= 'F' then Some(c as nat - 'A' as nat + 10)
    else None
  }

  predicate IsDigit(c: char, base: nat) {
    DigitOf(c).Some? && DigitOf(c).value < base
  }

  const DIGITS: string := "0123456789abcdef"
  const UPPER_DIGITS: string := "0123456789ABCDEF"

  /** The digit that stands for `v` is the one at place `v`, in either case. */
  lemma DigitIsPlace(c: char, v: nat)
    ensures DigitOf(c) == Some(v) <==> v < 16 && (c == DIGITS[v] || c == UPPER_DIGITS[v])
  {
  }

  function DigitsValue(s: string, base: nat): (r: Option<nat>)
    ensures r.Some? <==> forall c | c in s :: IsDigit(c, base)
  {
    if s == "" then Some(0)
    else
      var n := |s| - 1;
      assert s == s[..n] + [s[n]];
      match DigitsValue(s[..n], base)
      case None => None
      case Some(v) => if IsDigit(s[n], base) then Some(base * v + DigitOf(s[n]).value) else None
  }

  /** `usize::from_str_radix`: at least one digit, a leading plus sign allowed, out of range is an error. */
  function ParseRadix(s: string, base: nat): Option<nat> {
    var digits := if s != "" && s[0] == '+' then s[1..] else s;
    if digits == "" then None
    else match DigitsValue(digits, base)
      case None => None
      case Some(v) => if v < USIZE then Some(v) else None
  }

  /** `parse::<usize>`. */
  function ParseUsize(s: string): Option<nat> {
    ParseRadix(s, 10)
  }

  /** Digits, perhaps with leading zeros, that stand for `n`. */
  predicate IsNumeral(s: string, base: nat, n: nat) {
    s != "" && DigitsValue(s, base) == Some(n) && n < USIZE
  }

  lemma ParseNumeral(s: string, base: nat, n: nat)
    requires IsNumeral(s, base, n)
    ensures ParseRadix(s, base) == Some(n)
  {
    assert IsDigit(s[0], base);
  }

  /** Exactly these are read: numerals in range, and such with a plus sign before them. */
  lemma ParseRadixIff(s: string, base: nat, n: nat)
    ensures ParseRadix(s, base) == Some(n) <==> IsNumeral(s, base, n) || (s != "" && s[0] == '+' && IsNumeral(s[1..], base, n))
  {
    if s != "" && s[0] == '+' {
      assert !IsDigit('+', base);
    }
  }

  function Decimal(n: nat): (s: string)
    ensures s != "" && forall c | c in s :: '0' <= c <= '9'
    ensures DigitsValue(s, 10) == Some(n)
  {
    if n < 10 then
      var s := [(n + '0' as int) as char];
      assert DigitsValue(s[..0], 10) == Some(0);
      s
    else
      var s := Decimal(n / 10) + [(n % 10 + '0' as int) as char];
      assert s[..|s| - 1] == Decimal(n / 10);
      s
  }

  // ---- extract_num

  /** The number in the second word of the first line with this prefix. */
  function ExtractNum(s: string, prefix: string): Option<nat> {
    match Find(Lines(s), l => prefix <= l)
    case None => None
    case Some(line) => var words := Words(line); if |words| < 2 then None else ParseUsize(words[1])
  }

  /** A line the way the kernel prints it: the field's name, blanks, the number, the unit. */
  function FieldLine(key: string, gap: string, n: nat, unit: string): string {
    key + (gap + Decimal(n) + unit)
  }

  ghost predicate FieldOk(key: string, gap: string, n: nat, unit: string) {
    && key != "" && NoBlank(key)
    && gap != "" && AllBlank(gap) && '\n' !in gap
    && n < USIZE
    && (unit == "" || IsBlank(unit[0])) && IsLine(unit)
  }

  lemma FieldLineIsLine(key: string, gap: string, n: nat, unit: string)
    requires FieldOk(key, gap, n, unit)
    ensures IsLine(FieldLine(key, gap, n, unit)) && key <= FieldLine(key, gap, n, unit)
  {
  }

  lemma FieldLineWords(key: string, gap: string, n: nat, unit: string)
    requires FieldOk(key, gap, n, unit)
    ensures Words(FieldLine(key, gap, n, unit)) == [key] + ([Decimal(n)] + Words(unit))
  {
    var number := Decimal(n);
    assert NoBlank(number) by { assert forall c | c in number :: '0' <= c <= '9'; }
    var rest := gap + number + unit;
    WordsCons(gap, number, unit);
    assert rest[0] == gap[0];
    WordsFirst(key + rest, key, rest, [number] + Words(unit));
  }

  /**
   Whatever comes before and after it, a field printed the way the kernel prints
   it is read back, provided no earlier line starts the same way.
   */
  lemma ExtractNumReadsField(before: seq<string>, key: string, gap: string, n: nat, unit: string, after: string)
    requires FieldOk(key, gap, n, unit)
    requires forall l | l in before :: IsLine(l) && !(key <= l)
    ensures ExtractNum(Unlines(before) + (FieldLine(key, gap, n, unit) + "\n" + after), key) == Some(n)
  {
    var line := FieldLine(key, gap, n, unit);
    var test := l => key <= l;
    FieldLineIsLine(key, gap, n, unit);
    FieldLineWords(key, gap, n, unit);
    ParseNumeral(Decimal(n), 10, n);
    LinesUnlines(before, line + "\n" + after);
    LinesCons(line, after);
    FindSkips(before, [line] + Lines(after), test);
    assert Find([line] + Lines(after), test) == Some(line);
  }

  // ---- fields that may be missing

  /** Blanks, number and unit of a printed field. */
  datatype Field = Field(gap: string, n: nat, unit: string)

  function FieldLines(key: string, field: Option<Field>): seq<string> {
    match field case None => [] case Some(f) => [FieldLine(key, f.gap, f.n, f.unit)]
  }

  ghost predicate FieldPrinted(key: string, field: Option<Field>) {
    field.Some? ==> FieldOk(key, field.value.gap, field.value.n, field.value.unit)
  }

  ghost predicate NoneStarts(lines: seq<string>, key: string) {
    forall l | l in lines :: IsLine(l) && !(key <= l)
  }

  lemma NoneStartsConcat(a: seq<string>, b: seq<string>, key: string)
    requires NoneStarts(a, key) && NoneStarts(b, key)
    ensures NoneStarts(a + b, key)
  {
  }

  lemma NoFieldNoNum(lines: seq<string>, key: string)
    requires NoneStarts(lines, key)
    ensures ExtractNum(Unlines(lines), key) == None
  {
    LinesUnlines(lines, "");
    assert Unlines(lines) + "" == Unlines(lines) && lines + [] == lines;
  }

  lemma {:induction false} UnlinesConcat(a: seq<string>, b: seq<string>)
    ensures Unlines(a + b) == Unlines(a) + Unlines(b)
  {
    if a == [] {
      assert a + b == b;
    } else {
      UnlinesConcat(a[1..], b);
      assert (a + b)[1..] == a[1..] + b;
      assert a[0] + "\n" + (Unlines(a[1..]) + Unlines(b)) == a[0] + "\n" + Unlines(a[1..]) + Unlines(b);
    }
  }

  /** A field among other lines is read back if it is there, and only then is there a number. */
  lemma ExtractNumReads(before: seq<string>, key: string, field: Option<Field>, after: seq<string>)
    requires FieldPrinted(key, field) && NoneStarts(before, key) && NoneStarts(after, key)
    ensures ExtractNum(Unlines(before + FieldLines(key, field) + after), key) ==
            match field case None => None case Some(f) => Some(f.n)
  {
    match field {
      case None =>
        assert before + [] + after == before + after;
        NoFieldNoNum(before + after, key);
      case Some(f) =>
        var line := FieldLine(key, f.gap, f.n, f.unit);
        assert before + [line] + after == before + ([line] + after);
        UnlinesConcat(before, [line] + after);
        assert Unlines([line] + after) == line + "\n" + Unlines(after) by { assert ([line] + after)[1..] == after; }
        ExtractNumReadsField(before, key, f.gap, f.n, f.unit, Unlines(after));
    }
  }

  lemma FirstWithPrefix(before: seq<string>, key: string, line: string, after: seq<string>)
    requires NoneStarts(before, key) && IsLine(line) && key <= line && forall l | l in after :: IsLine(l)
    ensures Find(Lines(Unlines(before + [line] + after)), l => key <= l) == Some(line)
  {
    var lines, test := before + [line] + after, l => key <= l;
    LinesUnlines(lines, "");
    assert Unlines(lines) + "" == Unlines(lines) && lines + [] == lines == before + ([line] + after);
    FindSkips(before, [line] + after, test);
    assert Find([line] + after, test) == Some(line);
  }

  /** A line with the prefix but without a number in its second word gives none. */
  lemma NoNumeralNoNum(before: seq<string>, key: string, line: string, after: seq<string>)
    requires NoneStarts(before, key) && IsLine(line) && key <= line && forall l | l in after :: IsLine(l)
    requires |Words(line)| < 2 || ParseUsize(Words(line)[1]).None?
    ensures ExtractNum(Unlines(before + [line] + after), key) == None
  {
    FirstWithPrefix(before, key, line, after);
  }
}
