/** `maps`: the memory regions listed in `/proc/<pid>/maps`. */
module Maps {
  import opened Wrappers
  import opened Text

  datatype Region = Region(
    address: nat, len: nat,
    canRead: bool, canWrite: bool, canExec: bool, isPrivate: bool,
    offset: nat, dev: string, inode: nat, pathname: Option<string>)

  // ---- the parser

  /** `trim_end`. */
  function TrimEnd(s: string): string {
    if s != "" && IsBlank(s[|s| - 1]) then TrimEnd(s[..|s| - 1]) else s
  }

  /** `start-end` as the start and the length. */
  function ParseAddress(addr: string): Option<(nat, nat)> {
    var dash := IndexOf(addr, '-');
    if dash == |addr| then None
    else match (ParseRadix(addr[..dash], 16), ParseRadix(addr[dash + 1..], 16))
      case (Some(start), Some(end)) => Some((start, (end as int - start as int) % USIZE))
      case _ => None
  }

  /** The words of one line; `None` where the source panics. */
  function ParseWords(parts: seq<string>): Option<Region> {
    if |parts| < 5 then None
    else match (ParseAddress(parts[0]), ParseRadix(parts[2], 16), ParseUsize(parts[4]))
      case (Some(range), Some(offset), Some(inode)) =>
        Some(Region(range.0, range.1, 'r' in parts[1], 'w' in parts[1], 'x' in parts[1], 'p' in parts[1],
                    offset, parts[3], inode, if |parts| > 5 then Some(parts[5]) else None))
      case _ => None
  }

  function ParseLine(line: string): Option<Region> {
    ParseWords(Words(line))
  }

  function ParseLines(lines: seq<string>): Option<seq<Region>> {
    if lines == [] then Some([])
    else match ParseLine(lines[0])
      case None => None
      case Some(r) => match ParseLines(lines[1..]) case None => None case Some(rest) => Some([r] + rest)
  }

  function ParseMaps(text: string): Option<seq<Region>> {
    ParseLines(Lines(TrimEnd(SkipBlanks(text))))
  }

  // ---- the format, as the kernel documents it

  function Permissions(r: Region): string {
    [if r.canRead then 'r' else '-', if r.canWrite then 'w' else '-',
     if r.canExec then 'x' else '-', if r.isPrivate then 'p' else 's']
  }

  /** What may follow the inode: nothing but blanks, or blanks and a path, of which the first word counts. */
  ghost predicate DescribesPath(rest: string, pathname: Option<string>) {
    match pathname
    case None => AllBlank(rest)
    case Some(path) =>
      path != "" && NoBlank(path)
      && exists gap, more :: PathPart(rest, gap, path, more)
  }

  ghost predicate PathPart(rest: string, gap: string, path: string, more: string) {
    rest == gap + path + more && gap != "" && AllBlank(gap) && (more == "" || IsBlank(more[0]))
  }

  /** Each word after a single blank. */
  function Joined(words: seq<string>): string {
    if words == [] then "" else " " + words[0] + Joined(words[1..])
  }

  /** The numbers of a line as they are written. */
  datatype Numerals = Numerals(start: string, end: string, offset: string, inode: string)

  predicate Stand(n: Numerals, r: Region) {
    && IsNumeral(n.start, 16, r.address) && IsNumeral(n.end, 16, r.address + r.len)
    && IsNumeral(n.offset, 16, r.offset) && IsNumeral(n.inode, 10, r.inode)
    && r.dev != "" && NoBlank(r.dev)
  }

  /** The five fixed fields of a line, separated by single blanks. */
  function Fields(n: Numerals, r: Region): string {
    n.start + "-" + n.end + Joined([Permissions(r), n.offset, r.dev, n.inode])
  }

  /** The line describes the region. */
  ghost predicate Describes(line: string, r: Region) {
    IsLine(line) && exists n, rest :: line == Fields(n, r) + rest && Stand(n, r) && DescribesPath(rest, r.pathname)
  }

  // ---- reading back

  lemma NumeralChars(s: string, base: nat, n: nat)
    requires IsNumeral(s, base, n)
    ensures NoBlank(s) && '-' !in s && IsDigit(s[|s| - 1], base)
  {
  }

  lemma {:induction false} BlankHasNoWords(s: string)
    requires AllBlank(s)
    ensures Words(s) == []
  {
    if s != "" {
      BlankHasNoWords(s[1..]);
      assert SkipBlanks(s) == SkipBlanks(s[1..]);
    }
  }

  predicate AreWords(words: seq<string>) {
    forall i | 0 <= i < |words| :: words[i] != "" && NoBlank(words[i])
  }

  lemma JoinedStep(word: string, tail: string, words: seq<string>, more: seq<string>)
    requires word != "" && NoBlank(word) && (tail == "" || IsBlank(tail[0]))
    requires Words(tail) == words + more
    ensures Words(" " + word + tail) == [word] + words + more
  {
    WordsCons(" ", word, tail);
  }

  lemma {:induction false} JoinedWords(words: seq<string>, rest: string)
    requires AreWords(words) && (rest == "" || IsBlank(rest[0]))
    ensures Words(Joined(words) + rest) == words + Words(rest)
    ensures Joined(words) + rest == "" || IsBlank((Joined(words) + rest)[0])
  {
    if words == [] {
      assert Joined(words) + rest == rest;
    } else {
      JoinedWords(words[1..], rest);
      JoinedStep(words[0], Joined(words[1..]) + rest, words[1..], Words(rest));
      Assoc(" " + words[0], Joined(words[1..]), rest);
      assert words == [words[0]] + words[1..];
    }
  }

  lemma PathWords(rest: string, pathname: Option<string>)
    requires DescribesPath(rest, pathname)
    ensures rest == "" || IsBlank(rest[0])
    ensures if pathname.Some? then |Words(rest)| > 0 && Words(rest)[0] == pathname.value else Words(rest) == []
  {
    match pathname {
      case None => BlankHasNoWords(rest);
      case Some(path) =>
        var gap, more :| PathPart(rest, gap, path, more);
        WordsCons(gap, path, more);
        assert rest[0] == gap[0];
    }
  }

  lemma AddressSplits(start: string, end: string)
    requires '-' !in start
    ensures var s := start + "-" + end; IndexOf(s, '-') == |start| && s[..|start|] == start && s[|start| + 1..] == end
  {
    IndexOfAt(start, '-', end);
    assert start + ['-'] + end == start + "-" + end;
  }

  lemma AddressOf(start: string, end: string, m: nat, len: nat)
    requires '-' !in start && m + len < USIZE
    requires ParseRadix(start, 16) == Some(m) && ParseRadix(end, 16) == Some(m + len)
    ensures ParseAddress(start + "-" + end) == Some((m, len))
  {
    AddressSplits(start, end);
  }

  lemma StandAreWords(n: Numerals, r: Region)
    requires Stand(n, r)
    ensures AreWords([n.start + "-" + n.end]) && AreWords([Permissions(r), n.offset, r.dev, n.inode])
    ensures '-' !in n.start && !IsBlank(n.start[0]) && !IsBlank(n.inode[|n.inode| - 1])
  {
    NumeralChars(n.start, 16, r.address);
    NumeralChars(n.end, 16, r.address + r.len);
    NumeralChars(n.offset, 16, r.offset);
    NumeralChars(n.inode, 10, r.inode);
  }

  lemma FieldWords(n: Numerals, rest: string, r: Region)
    requires Stand(n, r) && DescribesPath(rest, r.pathname)
    ensures Words(Fields(n, r) + rest) == [n.start + "-" + n.end] + ([Permissions(r), n.offset, r.dev, n.inode] + Words(rest))
  {
    StandAreWords(n, r);
    PathWords(rest, r.pathname);
    var addr := n.start + "-" + n.end;
    assert addr == [addr][0];
    var words := [Permissions(r), n.offset, r.dev, n.inode];
    JoinedWords(words, rest);
    Assoc(addr, Joined(words), rest);
    WordsFirst(Fields(n, r) + rest, addr, Joined(words) + rest, words + Words(rest));
  }

  lemma AddressParses(n: Numerals, r: Region)
    requires Stand(n, r)
    ensures ParseAddress(n.start + "-" + n.end) == Some((r.address, r.len))
  {
    NumeralChars(n.start, 16, r.address);
    ParseNumeral(n.start, 16, r.address);
    ParseNumeral(n.end, 16, r.address + r.len);
    AddressOf(n.start, n.end, r.address, r.len);
  }

  lemma PermissionsRead(r: Region)
    ensures var p := Permissions(r);
            ('r' in p <==> r.canRead) && ('w' in p <==> r.canWrite) && ('x' in p <==> r.canExec) && ('p' in p <==> r.isPrivate)
  {
  }

  lemma WordsParse(n: Numerals, parts: seq<string>, r: Region)
    requires Stand(n, r) && |parts| >= 5
    requires parts[0] == n.start + "-" + n.end && parts[1] == Permissions(r)
    requires parts[2] == n.offset && parts[3] == r.dev && parts[4] == n.inode
    requires if r.pathname.Some? then |parts| > 5 && parts[5] == r.pathname.value else |parts| == 5
    ensures ParseWords(parts) == Some(r)
  {
    AddressParses(n, r);
    PermissionsRead(r);
    ParseNumeral(n.offset, 16, r.offset);
    ParseNumeral(n.inode, 10, r.inode);
  }

  /** A line that describes a region is parsed into that region. */
  lemma LineReadsBack(line: string, r: Region)
    requires Describes(line, r)
    ensures ParseLine(line) == Some(r)
  {
    var n, rest :| line == Fields(n, r) + rest && Stand(n, r) && DescribesPath(rest, r.pathname);
    PathWords(rest, r.pathname);
    FieldWords(n, rest, r);
    WordsParse(n, Words(line), r);
  }

  // ---- what trimming the whole text does

  lemma {:induction false} TrimEndDrops(s: string, blanks: string)
    requires AllBlank(blanks)
    ensures TrimEnd(s + blanks) == TrimEnd(s)
  {
    if blanks == "" {
      assert s + blanks == s;
    } else {
      var n := |blanks| - 1;
      TrimEndDrops(s, blanks[..n]);
      assert (s + blanks)[..|s + blanks| - 1] == s + blanks[..n];
    }
  }

  lemma {:induction false} TrimEndKeeps(front: string, s: string)
    requires front != "" && !IsBlank(front[|front| - 1])
    ensures TrimEnd(front + s) == front + TrimEnd(s)
  {
    if s == "" {
      assert front + s == front;
    } else {
      var n := |s| - 1;
      assert (front + s)[|front + s| - 1] == s[n];
      if IsBlank(s[n]) {
        TrimEndKeeps(front, s[..n]);
        assert (front + s)[..|front + s| - 1] == front + s[..n];
      }
    }
  }

  lemma {:induction false} TrimEndPrefix(s: string)
    ensures TrimEnd(s) <= s && (TrimEnd(s) == "" || !IsBlank(TrimEnd(s)[|TrimEnd(s)| - 1]))
    ensures AllBlank(s) ==> TrimEnd(s) == ""
  {
    if s != "" && IsBlank(s[|s| - 1]) {
      TrimEndPrefix(s[..|s| - 1]);
    }
  }

  lemma DescribesPathIntro(gap: string, path: string, more: string)
    requires path != "" && NoBlank(path) && gap != "" && AllBlank(gap) && (more == "" || IsBlank(more[0]))
    ensures DescribesPath(gap + path + more, Some(path))
  {
    assert PathPart(gap + path + more, gap, path, more);
  }

  lemma GapPathTrims(gap: string, path: string, more: string)
    requires path != "" && NoBlank(path) && (more == "" || IsBlank(more[0]))
    ensures TrimEnd(gap + path + more) == gap + path + TrimEnd(more)
    ensures TrimEnd(more) == "" || IsBlank(TrimEnd(more)[0])
  {
    var front := gap + path;
    assert front[|front| - 1] == path[|path| - 1];
    TrimEndKeeps(front, more);
    TrimEndPrefix(more);
  }

  lemma PathTrims(rest: string, pathname: Option<string>)
    requires DescribesPath(rest, pathname)
    ensures DescribesPath(TrimEnd(rest), pathname)
  {
    match pathname {
      case None => TrimEndPrefix(rest);
      case Some(path) =>
        var gap, more :| PathPart(rest, gap, path, more);
        GapPathTrims(gap, path, more);
        DescribesPathIntro(gap, path, TrimEnd(more));
    }
  }

  lemma JoinedLast(words: seq<string>, last: string)
    requires last != ""
    ensures Joined(words + [last]) != "" && Joined(words + [last])[|Joined(words + [last])| - 1] == last[|last| - 1]
  {
    if words == [] {
    } else {
      assert (words + [last])[1..] == words[1..] + [last];
    }
  }

  lemma FieldsEnds(n: Numerals, r: Region)
    requires Stand(n, r)
    ensures var head := Fields(n, r); head != "" && !IsBlank(head[0]) && !IsBlank(head[|head| - 1])
  {
    StandAreWords(n, r);
    var words := [Permissions(r), n.offset, r.dev];
    JoinedLast(words, n.inode);
    assert words + [n.inode] == [Permissions(r), n.offset, r.dev, n.inode];
    assert Fields(n, r)[0] == n.start[0];
  }

  /** Trimming a line leaves what it describes. */
  lemma DescribesTrimmed(line: string, r: Region)
    requires Describes(line, r)
    ensures Describes(TrimEnd(line), r) && IsLine(line) && IsLine(TrimEnd(line))
    ensures line != "" && !IsBlank(line[0]) && TrimEnd(line) != ""
  {
    var n, rest :| line == Fields(n, r) + rest && Stand(n, r) && DescribesPath(rest, r.pathname);
    FieldsEnds(n, r);
    TrimEndKeeps(Fields(n, r), rest);
    PathTrims(rest, r.pathname);
    TrimEndPrefix(line);
    assert IsLine(TrimEnd(line)) by {
      assert forall c | c in TrimEnd(line) :: c in line;
    }
  }

  lemma {:induction false} ParseLinesReadsBack(lines: seq<string>, regions: seq<Region>)
    requires DescribeAll(lines, regions)
    ensures ParseLines(lines) == Some(regions)
  {
    if lines != [] {
      LineReadsBack(lines[0], regions[0]);
      ParseLinesReadsBack(lines[1..], regions[1..]);
      assert [regions[0]] + regions[1..] == regions;
    }
  }

  // ---- lines that no region can be read from

  /** Two hexadecimal numbers joined by a dash. */
  ghost predicate IsRange(addr: string, start: string, end: string) {
    addr == start + "-" + end && '-' !in start && ParseRadix(start, 16).Some? && ParseRadix(end, 16).Some?
  }

  lemma AddressIff(addr: string)
    ensures ParseAddress(addr).Some? <==> exists start, end :: IsRange(addr, start, end)
  {
    if ParseAddress(addr).Some? {
      var dash := IndexOf(addr, '-');
      assert addr == addr[..dash] + "-" + addr[dash + 1..];
      assert IsRange(addr, addr[..dash], addr[dash + 1..]);
    }
    if start, end :| IsRange(addr, start, end) {
      IndexOfAt(start, '-', end);
      assert addr == start + ['-'] + end;
      assert addr[..|start|] == start && addr[|start| + 1..] == end;
    }
  }

  /** A line can be read exactly if it begins with the fields of a region, permissions and device being any words; from any other the source panics. */
  lemma LineIsReadIff(line: string)
    ensures ParseLine(line).Some? <==>
            var words := Words(line);
            && |words| >= 5 && (exists start, end :: IsRange(words[0], start, end))
            && ParseRadix(words[2], 16).Some? && ParseUsize(words[4]).Some?
  {
    if |Words(line)| >= 5 { AddressIff(Words(line)[0]); }
  }

  /** A file is read line by line, or not at all. */
  lemma {:induction false} LinesAreReadIff(lines: seq<string>, regions: seq<Region>)
    ensures ParseLines(lines) == Some(regions) <==>
            |regions| == |lines| && forall i | 0 <= i < |lines| :: ParseLine(lines[i]) == Some(regions[i])
  {
    if lines != [] {
      if |regions| == |lines| {
        LinesAreReadIff(lines[1..], regions[1..]);
        assert regions == [regions[0]] + regions[1..];
      }
      if ParseLines(lines).Some? {
        LinesAreReadIff(lines[1..], ParseLines(lines[1..]).value);
      }
    }
  }

  lemma {:induction false} UnlinesSnoc(lines: seq<string>, last: string)
    ensures Unlines(lines + [last]) == Unlines(lines) + (last + "\n")
  {
    if lines == [] {
    } else {
      UnlinesSnoc(lines[1..], last);
      assert (lines + [last])[1..] == lines[1..] + [last];
      UnlinesSplit(lines, last + "\n");
    }
  }

  lemma SingleLine(line: string)
    requires IsLine(line) && line != ""
    ensures Lines(line) == [line]
  {
  }

  lemma TextTrims(front: string, last: string)
    requires last != "" && !IsBlank(last[0])
    ensures TrimEnd(front + (last + "\n")) == front + TrimEnd(last)
  {
    var t, tail := [last[0]], last[1..];
    assert front + (last + "\n") == front + last + "\n";
    TrimEndDrops(front + last, "\n");
    assert last == t + tail && front + last == front + t + tail;
    TrimEndKeeps(t, tail);
    TrimEndKeeps(front + t, tail);
    assert front + t + TrimEnd(tail) == front + (t + TrimEnd(tail));
  }

  lemma StartsWithText(init: seq<string>, last: string)
    requires forall i | 0 <= i < |init| :: init[i] != "" && !IsBlank(init[i][0])
    requires last != "" && !IsBlank(last[0])
    ensures SkipBlanks(Unlines(init) + (last + "\n")) == Unlines(init) + (last + "\n")
  {
  }

  /** The lines of the trimmed text: the last one has lost its trailing blanks, nothing else has changed. */
  lemma TrimmedLines(init: seq<string>, last: string)
    requires forall i | 0 <= i < |init| :: IsLine(init[i]) && init[i] != "" && !IsBlank(init[i][0])
    requires last != "" && !IsBlank(last[0]) && IsLine(TrimEnd(last)) && TrimEnd(last) != ""
    ensures Lines(TrimEnd(SkipBlanks(Unlines(init + [last])))) == init + [TrimEnd(last)]
  {
    UnlinesSnoc(init, last);
    StartsWithText(init, last);
    TextTrims(Unlines(init), last);
    LinesUnlines(init, TrimEnd(last));
    SingleLine(TrimEnd(last));
  }

  ghost predicate DescribeAll(lines: seq<string>, regions: seq<Region>) {
    |lines| == |regions| && forall i | 0 <= i < |lines| :: Describes(lines[i], regions[i])
  }

  lemma DescribeAllIff(init: seq<string>, last: string, regions: seq<Region>)
    ensures DescribeAll(init + [last], regions) <==>
            |regions| == |init| + 1 && DescribeAll(init, regions[..|init|]) && Describes(last, regions[|init|])
  {
    var lines := init + [last];
    if |regions| == |init| + 1 {
      assert lines[|init|] == last;
      assert forall i | 0 <= i < |init| :: lines[i] == init[i] && regions[..|init|][i] == regions[i];
    }
  }

  lemma DescribeAllTrimmed(init: seq<string>, last: string, regions: seq<Region>)
    requires DescribeAll(init + [last], regions)
    ensures DescribeAll(init + [TrimEnd(last)], regions)
    ensures forall i | 0 <= i < |init| :: IsLine(init[i]) && init[i] != "" && !IsBlank(init[i][0])
    ensures last != "" && !IsBlank(last[0]) && IsLine(TrimEnd(last)) && TrimEnd(last) != ""
  {
    DescribeAllIff(init, last, regions);
    DescribeAllIff(init, TrimEnd(last), regions);
    DescribesTrimmed(last, regions[|init|]);
    forall i | 0 <= i < |init| ensures IsLine(init[i]) && init[i] != "" && !IsBlank(init[i][0]) {
      DescribesTrimmed(init[i], regions[..|init|][i]);
    }
  }

  /** A maps file whose lines describe regions, one each, is parsed into exactly these regions. */
  lemma MapsReadBack(lines: seq<string>, regions: seq<Region>)
    requires DescribeAll(lines, regions)
    ensures ParseMaps(Unlines(lines)) == Some(regions)
  {
    if lines == [] {
    } else {
      var init, last := lines[..|lines| - 1], lines[|lines| - 1];
      assert init + [last] == lines;
      DescribeAllTrimmed(init, last, regions);
      TrimmedLines(init, last);
      ParseLinesReadsBack(init + [TrimEnd(last)], regions);
    }
  }
}
