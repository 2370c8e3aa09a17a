/** common/common.go: list membership, duration formatting and the reader
    of the excluded-instances file. */
module Common {
  import opened Wrappers
  import opened GoText
  import opened Seqs

  /** common/common.go:12-19. */
  method ElementInSlice(element: string, s: seq<string>) returns (found: bool)
    ensures found <==> element in s
  {
    for i := 0 to |s|
      invariant element !in s[..i]
    {
      if s[i] == element {
        return true;
      }
    }
    return false;
  }

  // time.Duration counts nanoseconds.
  const Second: int := 1_000_000_000
  const Minute: int := 60 * Second
  const Hour: int := 60 * Minute

  /** Hours, minutes and seconds of a duration. */
  datatype Clock = Clock(h: nat, m: nat, s: nat)

  /** The parts as FormatDuration computes them, by truncating division and
      subtraction (for `d >= 0` Go's truncation and Dafny's division agree). */
  function Parts(d: nat): Clock {
    var h := d / Hour;
    var d1 := d - h * Hour;
    var m := d1 / Minute;
    var d2 := d1 - m * Minute;
    Clock(h, m, d2 / Second)
  }

  /** The parts are the mixed-radix digits of the whole seconds of `d`. */
  lemma PartsDecompose(d: nat)
    ensures var c := Parts(d); c.h * 3600 + c.m * 60 + c.s == d / Second && c.m < 60 && c.s < 60
  {
    var c := Parts(d);
    var d1 := d - c.h * Hour;
    var d2 := d1 - c.m * Minute;
    assert 0 <= d1 < Hour;
    assert 0 <= d2 < Minute;
    assert d == c.h * Hour + c.m * Minute + d2;
  }

  /** The text FormatDuration builds from the parts. */
  function Layout(c: Clock): string {
    (if c.h > 0 then NatToString(c.h) + "h " else "")
    + (if c.m > 0 then NatToString(c.m) + "m " else "")
    + NatToString(c.s) + "s"
  }

  /** common/common.go:31-62. The text first assigned for the hours is
      overwritten before it is ever read. */
  method FormatDuration(d: int) returns (durationString: string)
    requires d >= 0
    ensures durationString == Layout(Parts(d))
  {
    var rest := d;
    durationString := "";
    var h := rest / Hour;
    rest := rest - h * Hour;
    if h > 0 {
      durationString := NatToString(h) + " hour";
    }
    var m := rest / Minute;
    rest := rest - m * Minute;
    var s := rest / Second;
    ghost var c := Parts(d);
    assert h == c.h && m == c.m && s == c.s;
    ghost var hs := if h > 0 then NatToString(h) + "h " else "";
    ghost var ms := if m > 0 then NatToString(m) + "m " else "";
    durationString := NatToString(s) + "s";
    if m > 0 {
      durationString := NatToString(m) + "m " + durationString;
    }
    assert durationString == ms + (NatToString(s) + "s");
    if h > 0 {
      durationString := NatToString(h) + "h " + durationString;
    }
    assert durationString == hs + (ms + (NatToString(s) + "s"));
    AppendAssoc(hs, ms, NatToString(s) + "s");
  }

  /** Every character of the layout is a digit or one of `h`, `m`, `s`, space. */
  lemma LayoutAlphabet(c: Clock)
    ensures forall i :: 0 <= i < |Layout(c)| ==> IsDigit(Layout(c)[i]) || Layout(c)[i] in "hms "
  {
    var hs := if c.h > 0 then NatToString(c.h) + "h " else "";
    var ms := if c.m > 0 then NatToString(c.m) + "m " else "";
    var ss := NatToString(c.s) + "s";
    assert Layout(c) == hs + ms + ss;
    assert forall i :: 0 <= i < |hs| ==> IsDigit(hs[i]) || hs[i] in "hms ";
    assert forall i :: 0 <= i < |ms| ==> IsDigit(ms[i]) || ms[i] in "hms ";
    assert forall i :: 0 <= i < |ss| ==> IsDigit(ss[i]) || ss[i] in "hms ";
  }

  /** The layout always ends in the seconds, has a minutes segment exactly
      when there are minutes and an hours prefix exactly when there are hours,
      and never contains the overwritten "hour". */
  lemma LayoutShape(c: Clock)
    ensures var r := Layout(c); |r| >= |NatToString(c.s)| + 1 && r[|r| - |NatToString(c.s)| - 1..] == NatToString(c.s) + "s"
    ensures 'h' in Layout(c) <==> c.h > 0
    ensures 'm' in Layout(c) <==> c.m > 0
    ensures !Contains(Layout(c), "hour")
  {
    LayoutTail(c);
    LayoutLetters(c);
    NoHour(c);
  }

  /** The layout ends in the seconds segment. */
  lemma LayoutTail(c: Clock)
    ensures var r := Layout(c); |r| >= |NatToString(c.s)| + 1 && r[|r| - |NatToString(c.s)| - 1..] == NatToString(c.s) + "s"
  {
    var hs := if c.h > 0 then NatToString(c.h) + "h " else "";
    var ms := if c.m > 0 then NatToString(c.m) + "m " else "";
    var ss := NatToString(c.s) + "s";
    var r := Layout(c);
    assert r == hs + ms + ss;
    assert r[|hs + ms|..] == ss;
  }

  /** The letters `h` and `m` mark the hours and the minutes segments. */
  lemma LayoutLetters(c: Clock)
    ensures 'h' in Layout(c) <==> c.h > 0
    ensures 'm' in Layout(c) <==> c.m > 0
  {
    var hs := if c.h > 0 then NatToString(c.h) + "h " else "";
    var ms := if c.m > 0 then NatToString(c.m) + "m " else "";
    var ss := NatToString(c.s) + "s";
    assert Layout(c) == hs + ms + ss;
    DigitsHaveNoLetters(NatToString(c.s));
    DigitsHaveNoLetters(NatToString(c.m));
    DigitsHaveNoLetters(NatToString(c.h));
    assert 'h' !in ss && 'm' !in ss;
    assert 'h' !in ms;
    assert 'm' !in hs;
    assert c.h > 0 ==> hs[|hs| - 2] == 'h';
    assert c.m > 0 ==> ms[|ms| - 2] == 'm';
  }

  lemma DigitsHaveNoLetters(s: string)
    requires forall i :: 0 <= i < |s| ==> IsDigit(s[i])
    ensures 'h' !in s && 'm' !in s
  {
  }

  lemma NoHour(c: Clock)
    ensures !Contains(Layout(c), "hour")
  {
    var r := Layout(c);
    LayoutAlphabet(c);
    assert 'o' !in r;
    AbsentCharNotContained(r, "hour", 1);
  }

  /** One hour is rendered as "1h 0s". */
  lemma OneHour()
    ensures Layout(Parts(Hour)) == "1h 0s"
  {
    assert Parts(Hour) == Clock(1, 0, 0);
  }

  /** Whether a file exists, and if so whether it can be read. */
  datatype FileState = Missing | Directory | Unopenable(reason: string) | Readable(content: string)

  /** `bufio.ScanLines` drops one carriage return before each newline. */
  function DropCR(line: string): string {
    if |line| > 0 && line[|line| - 1] == '\r' then line[..|line| - 1] else line
  }

  /** The lines `bufio.Scanner` with `ScanLines` yields: pieces between
      newlines, the last piece only when it is not empty. */
  function ScanLines(content: string): seq<string>
    decreases |content|
  {
    if content == [] then []
    else if '\n' !in content then [DropCR(content)]
    else
      var i := IndexOf(content, '\n');
      [DropCR(content[..i])] + ScanLines(content[i + 1..])
  }

  /** A file holding each line followed by a newline. */
  function JoinLines(lines: seq<string>): string {
    if lines == [] then [] else lines[0] + "\n" + JoinLines(lines[1..])
  }

  /** Writing one more line appends it and its newline. */
  lemma {:induction false} JoinLinesSnoc(lines: seq<string>, line: string)
    ensures JoinLines(lines + [line]) == JoinLines(lines) + line + "\n"
  {
    if lines == [] {
      assert lines + [line] == [line];
      assert JoinLines([line]) == line + "\n" + JoinLines([]);
    } else {
      assert (lines + [line])[1..] == lines[1..] + [line];
      JoinLinesSnoc(lines[1..], line);
    }
  }

  /** Reading back newline-terminated lines gives the lines again, provided
      none holds a newline or ends with a carriage return. */
  lemma {:induction false} ScanJoinedLines(lines: seq<string>)
    requires forall k :: 0 <= k < |lines| ==> '\n' !in lines[k]
    requires forall k :: 0 <= k < |lines| ==> DropCR(lines[k]) == lines[k]
    ensures ScanLines(JoinLines(lines)) == lines
  {
    if lines != [] {
      var c := JoinLines(lines);
      var l := lines[0];
      assert c == l + "\n" + JoinLines(lines[1..]);
      assert c[|l|] == '\n' && c[..|l|] == l;
      IndexOfFirst(c, '\n', |l|);
      assert c[|l| + 1..] == JoinLines(lines[1..]);
      ScanJoinedLines(lines[1..]);
    }
  }

  /** The longest prefix of `s` without whitespace (`\S*`). */
  function LeadingNonSpace(s: string): (r: string)
    ensures r <= s && (forall i :: 0 <= i < |r| ==> !IsSpace(r[i]))
    ensures |r| < |s| ==> IsSpace(s[|r|])
  {
    if s == [] || IsSpace(s[0]) then [] else [s[0]] + LeadingNonSpace(s[1..])
  }

  /** The longest prefix of `s` made of whitespace (`\s*`). */
  function LeadingSpace(s: string): (r: string)
    ensures r <= s && (forall i :: 0 <= i < |r| ==> IsSpace(r[i]))
    ensures |r| < |s| ==> !IsSpace(s[|r|])
  {
    if s == [] || !IsSpace(s[0]) then [] else [s[0]] + LeadingSpace(s[1..])
  }

  lemma {:induction false} LeadingNonSpaceOf(x: string, y: string)
    requires forall i :: 0 <= i < |x| ==> !IsSpace(x[i])
    requires y == [] || IsSpace(y[0])
    ensures LeadingNonSpace(x + y) == x
  {
    if x != [] {
      assert (x + y)[1..] == x[1..] + y;
      LeadingNonSpaceOf(x[1..], y);
    } else {
      assert x + y == y;
    }
  }

  lemma {:induction false} LeadingSpaceOf(x: string, y: string)
    requires forall i :: 0 <= i < |x| ==> IsSpace(x[i])
    requires y == [] || !IsSpace(y[0])
    ensures LeadingSpace(x + y) == x
  {
    if x != [] {
      assert (x + y)[1..] == x[1..] + y;
      LeadingSpaceOf(x[1..], y);
    } else {
      assert x + y == y;
    }
  }

  /** The capture of `^(\S+)\s+\(.*\)$` on one line, if the line matches. */
  function ExcludeLineName(line: string): Option<string> {
    var name := LeadingNonSpace(line);
    var rest := line[|name|..];
    var gap := LeadingSpace(rest);
    var tail := rest[|gap|..];
    if |name| > 0 && |gap| > 0 && |tail| >= 2 && tail[0] == '(' && tail[|tail| - 1] == ')' && '\n' !in tail
    then Some(name)
    else None
  }

  /** `line` is `<name><gap>(<note>)`: a way `^(\S+)\s+\(.*\)$` matches it. */
  ghost predicate ExcludeLineShape(line: string, name: string, gap: string, note: string) {
    && line == name + (gap + ("(" + note + ")"))
    && |name| > 0 && (forall i :: 0 <= i < |name| ==> !IsSpace(name[i]))
    && |gap| > 0 && (forall i :: 0 <= i < |gap| ==> IsSpace(gap[i]))
    && '\n' !in note
  }

  /** A name found is the capture of some match of the pattern ... */
  lemma ExcludeLineNameSound(line: string) returns (gap: string, note: string)
    requires ExcludeLineName(line).Some?
    ensures ExcludeLineShape(line, ExcludeLineName(line).value, gap, note)
  {
    var name := LeadingNonSpace(line);
    var rest := line[|name|..];
    gap := LeadingSpace(rest);
    var tail := rest[|gap|..];
    note := tail[1..|tail| - 1];
    assert tail == "(" + note + ")";
    assert rest == gap + tail;
    assert line == name + rest;
    assert '\n' !in note by { assert note <= tail[1..]; }
  }

  /** ... and every match yields its capture. */
  lemma ExcludeLineNameComplete(line: string, name: string, gap: string, note: string)
    requires ExcludeLineShape(line, name, gap, note)
    ensures ExcludeLineName(line) == Some(name)
  {
    var tail := "(" + note + ")";
    LeadingNonSpaceOf(name, gap + tail);
    assert line[|name|..] == gap + tail;
    LeadingSpaceOf(gap, tail);
    assert (gap + tail)[|gap|..] == tail;
    assert '\n' !in tail;
  }

  /** The names the exclude file lists, in file order. */
  function ExcludedNames(lines: seq<string>): seq<string> {
    FilterMap(lines, ExcludeLineName)
  }

  /** The matching loop of common/common.go:65-85 over the scanned lines. */
  method CollectExcludedNames(scanned: seq<string>) returns (lines: seq<string>)
    ensures lines == ExcludedNames(scanned)
  {
    lines := [];
    for i := 0 to |scanned|
      invariant lines == FilterMap(scanned[..i], ExcludeLineName)
    {
      var line := scanned[i];
      var m := ExcludeLineName(line);
      if m.Some? {
        lines := lines + [m.value];
      }
      FilterMapPrefix(scanned, i, ExcludeLineName);
    }
    assert scanned[..|scanned|] == scanned;
  }

  /** common/common.go:65-85: a missing path or a directory gives no names
      and no error; a file that cannot be opened gives its error. */
  method ReadExcludedInstancesList(file: FileState) returns (lines: seq<string>, err: Option<string>)
    ensures file.Readable? ==> lines == ExcludedNames(ScanLines(file.content)) && err == None
    ensures file.Unopenable? ==> lines == [] && err == Some(file.reason)
    ensures file.Missing? || file.Directory? ==> lines == [] && err == None
  {
    match file
    case Missing => lines, err := [], None;
    case Directory => lines, err := [], None;
    case Unopenable(reason) => lines, err := [], Some(reason);
    case Readable(content) =>
      lines := CollectExcludedNames(ScanLines(content));
      err := None;
  }
}
