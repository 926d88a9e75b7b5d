/** The media manifest of media_index.c: file paths, manifest lines and the body of a
    consumed request, each a string that is printed on one side and parsed on the other.
    Strings are C strings: characters before the terminating NUL. */
module MediaIndex {
  import opened Wrappers
  import opened CTypes
  import opened Decimal
  import opened TextLines
  import opened Sequences

  const NAME_MAX_LEN := 80

  datatype Entry = Entry(path: string, relTs: Uint32, boot: Uint32, kind: char)

  // ---- Printing ----

  const SNAPSHOTS := "/sdcard/snapshots/"
  const VIDEOS := "/sdcard/video/"

  function PathIn(dir: string, boot: Uint32, relTs: Uint32, n: Uint32, ext: string): string {
    dir + Text(boot) + "/" + Padded(relTs, 10) + "_" + Text(n) + ext
  }

  /** snprintf into `cap` bytes. */
  function Clipped(s: string, cap: nat): string { if |s| < cap then s else s[..if cap == 0 then 0 else cap - 1] }

  function SnapshotPath(cap: nat, boot: Uint32, relTs: Uint32, n: Uint32): string {
    Clipped(PathIn(SNAPSHOTS, boot, relTs, n, ".jpg"), cap)
  }

  function VideoPath(cap: nat, boot: Uint32, relTs: Uint32, n: Uint32): string {
    Clipped(PathIn(VIDEOS, boot, relTs, n, ".mjpeg"), cap)
  }

  /** A manifest line without its newline. */
  function LineText(e: Entry): string {
    e.path + "|" + Text(e.relTs) + "|" + Text(e.boot) + "|" + [e.kind]
  }

  function ManifestLine(cap: nat, e: Entry): string { Clipped(LineText(e) + "\n", cap) }

  // ---- Parsing ----

  predicate IsSpace(c: char) { c == ' ' || '\t' <= c <= '\r' }

  /** Where a run of spaces, of digits, or of characters other than '|' from i ends. */
  function SkipSpaces(s: string, i: nat): (e: nat)
    requires i <= |s|
    ensures i <= e <= |s|
    decreases |s| - i
  {
    if i < |s| && IsSpace(s[i]) then SkipSpaces(s, i + 1) else i
  }

  function SkipDigits(s: string, i: nat): (e: nat)
    requires i <= |s|
    ensures i <= e <= |s| && AllDigits(s[i..e])
    decreases |s| - i
  {
    if i < |s| && IsDigit(s[i]) then
      var e := SkipDigits(s, i + 1);
      assert s[i..e] == [s[i]] + s[i + 1..e];
      e
    else i
  }

  function SkipName(s: string, i: nat): (e: nat)
    requires i <= |s| && i < NAME_MAX_LEN
    ensures i <= e <= |s| && e < NAME_MAX_LEN && forall k :: i <= k < e ==> s[k] != '|'
    decreases |s| - i
  {
    if i < |s| && i < NAME_MAX_LEN - 1 && s[i] != '|' then SkipName(s, i + 1) else i
  }

  datatype Number = Number(value: Uint32, next: nat)

  /** scanf's %u: spaces, a sign, digits. A number too wide reads as the widest. */
  function ScanNumber(s: string, i: nat): (r: Option<Number>)
    requires i <= |s|
    ensures r.Some? ==> i < r.value.next <= |s|
  {
    var j := SkipSpaces(s, i);
    var signed := j < |s| && (s[j] == '-' || s[j] == '+');
    var k := if signed then j + 1 else j;
    var e := SkipDigits(s, k);
    if e == k then None
    else
      var v := Value(s[k..e]);
      var w: Uint32 := if v >= 0x1_0000_0000 then 0xFFFF_FFFF
                       else if signed && s[j] == '-' then (0x1_0000_0000 - v) % 0x1_0000_0000 else v;
      Some(Number(w, e))
  }

  predicate BarAt(s: string, i: nat) { i < |s| && s[i] == '|' }

  function ManifestParse(line: string): Option<Entry> {
    var n := SkipName(line, 0);
    if n == 0 || !BarAt(line, n) then None
    else
      match ScanNumber(line, n + 1)
      case None => None
      case Some(ts) =>
        if !BarAt(line, ts.next) then None
        else
          match ScanNumber(line, ts.next + 1)
          case None => None
          case Some(boot) =>
            if !BarAt(line, boot.next) || boot.next + 1 == |line| then None
            else
              var kind := line[boot.next + 1];
              if kind != 's' && kind != 'v' then None
              else Some(Entry(line[..n], ts.value, boot.value, kind))
  }

  // ---- The parser undoes the printer ----

  predicate GoodPath(path: string) { 1 <= |path| < NAME_MAX_LEN && '|' !in path }

  predicate GoodEntry(e: Entry) { GoodPath(e.path) && (e.kind == 's' || e.kind == 'v') }

  lemma {:induction false} SkipDigitsEnds(s: string, i: nat, e: nat)
    requires i <= e <= |s| && (forall k :: i <= k < e ==> IsDigit(s[k])) && (e < |s| ==> !IsDigit(s[e]))
    ensures SkipDigits(s, i) == e
    decreases e - i
  {
    if i < e { SkipDigitsEnds(s, i + 1, e); }
  }

  lemma {:induction false} SkipNameEnds(s: string, i: nat, e: nat)
    requires i <= e < |s| && e < NAME_MAX_LEN && (forall k :: i <= k < e ==> s[k] != '|') && s[e] == '|'
    ensures SkipName(s, i) == e
    decreases e - i
  {
    if i < e { SkipNameEnds(s, i + 1, e); }
  }

  lemma ScanReads(s: string, pre: string, n: Uint32, post: string)
    requires s == pre + Text(n) + "|" + post
    ensures ScanNumber(s, |pre|) == Some(Number(n, |pre| + |Text(n)|))
    ensures BarAt(s, |pre| + |Text(n)|)
  {
    ValueOfText(n);
    var i, e := |pre|, |pre| + |Text(n)|;
    assert s[e] == '|';
    assert s[i..e] == Text(n);
    assert forall k :: i <= k < e ==> s[k] == Text(n)[k - i];
    assert IsDigit(s[i]);
    SkipDigitsEnds(s, i, e);
  }

  lemma {:induction false} SkipSpacesEnds(s: string, i: nat, e: nat)
    requires i <= e <= |s| && (forall k :: i <= k < e ==> IsSpace(s[k])) && (e < |s| ==> !IsSpace(s[e]))
    ensures SkipSpaces(s, i) == e
    decreases e - i
  {
    if i < e { SkipSpacesEnds(s, i + 1, e); }
  }

  lemma ScanIs(s: string, i: nat, j: nat, signed: bool, e: nat, n: Uint32)
    requires i <= j <= |s| && SkipSpaces(s, i) == j
    requires signed <==> j < |s| && (s[j] == '-' || s[j] == '+')
    requires var k := if signed then j + 1 else j;
      k < e <= |s| && SkipDigits(s, k) == e && AllDigits(s[k..e]) && Value(s[k..e]) == n
    ensures ScanNumber(s, i) ==
      Some(Number(if signed && s[j] == '-' then (0x1_0000_0000 - n) % 0x1_0000_0000 else n, e))
  {
    hide SkipSpaces, SkipDigits, Value;
  }

  /** A field: white space, at most one sign, and a number, up to a bar. */
  function Field(spaces: string, sign: string, n: Uint32, post: string): string {
    spaces + (sign + (Text(n) + ("|" + post)))
  }

  lemma FieldHas(s: string, pre: string, spaces: string, sign: string, n: Uint32, post: string)
    requires s == pre + Field(spaces, sign, n, post) && |sign| <= 1
    ensures var j := |pre| + |spaces|;
      var e := j + |sign| + |Text(n)|;
      && e < |s| && s[|pre|..j] == spaces && s[j..j + |sign|] == sign && s[j + |sign|..e] == Text(n) && s[e] == '|'
      && Text(n) != [] && AllDigits(Text(n)) && Value(Text(n)) == n
  {
    ValueOfText(n);
    hide Text, Value, AllDigits;
    var text := Text(n);
    assert s == pre + spaces + sign + text + ("|" + post);
  }

  /** scanf's leniency: white space and one sign may stand before the digits, and a minus
      reads modulo 2^32. */
  lemma ScanAllows(s: string, pre: string, spaces: string, sign: string, n: Uint32, post: string)
    requires s == pre + Field(spaces, sign, n, post) && sign in {"", "+", "-"}
    requires forall k :: 0 <= k < |spaces| ==> spaces[k] in {' ', '\t', '\n', '\r'}
    ensures ScanNumber(s, |pre|) ==
      Some(Number(if sign == "-" then (0x1_0000_0000 - n) % 0x1_0000_0000 else n,
                  |pre| + |spaces| + |sign| + |Text(n)|))
  {
    hide *;
    FieldHas(s, pre, spaces, sign, n, post);
    var i, j := |pre|, |pre| + |spaces|;
    var k := j + |sign|;
    var e := k + |Text(n)|;
    SignAt(s, j, k, e, sign);
    SpacesFrom(s, i, j, spaces);
    DigitsFrom(s, k, e);
    ScanIs(s, i, j, sign != "", e, n);
  }

  lemma SignAt(s: string, j: nat, k: nat, e: nat, sign: string)
    requires j <= k < e <= |s| && s[j..k] == sign && sign in {"", "+", "-"} && AllDigits(s[k..e])
    ensures !IsSpace(s[j]) && k == (if sign != "" then j + 1 else j)
    ensures sign != "" <==> s[j] == '-' || s[j] == '+'
    ensures sign == "-" <==> s[j] == '-'
  {
    assert |sign| == k - j;
    assert s[k] == s[k..e][0];
    assert IsDigit(s[k]);
    if sign != "" { assert s[j] == s[j..k][0]; }
  }

  lemma SpacesFrom(s: string, i: nat, j: nat, spaces: string)
    requires i <= j <= |s| && s[i..j] == spaces && (j < |s| ==> !IsSpace(s[j]))
    requires forall k :: 0 <= k < |spaces| ==> spaces[k] in {' ', '\t', '\n', '\r'}
    ensures SkipSpaces(s, i) == j
  {
    assert forall x :: i <= x < j ==> s[x] == s[i..j][x - i];
    SkipSpacesEnds(s, i, j);
    hide SkipSpaces;
  }

  lemma DigitsFrom(s: string, k: nat, e: nat)
    requires k < e < |s| && AllDigits(s[k..e]) && s[e] == '|'
    ensures SkipDigits(s, k) == e
  {
    assert forall x :: k <= x < e ==> s[x] == s[k..e][x - k];
    SkipDigitsEnds(s, k, e);
    hide SkipDigits;
  }

  /** The line as each field in turn sees it. */
  lemma FieldsNest(path: string, a: string, b: string, kind: string, rest: string)
    ensures var line := path + "|" + a + "|" + b + "|" + kind + rest;
      && line == path + "|" + (a + "|" + b + "|" + (kind + rest))
      && line == path + "|" + a + "|" + (b + "|" + (kind + rest))
      && line == path + "|" + a + "|" + b + "|" + (kind + rest)
  {
  }

  lemma ParseSteps(line: string, e: Entry, n: nat, m: nat, k: nat)
    requires 0 < n && SkipName(line, 0) == n && BarAt(line, n) && line[..n] == e.path
    requires ScanNumber(line, n + 1) == Some(Number(e.relTs, m)) && BarAt(line, m)
    requires ScanNumber(line, m + 1) == Some(Number(e.boot, k)) && BarAt(line, k)
    requires k + 1 < |line| && line[k + 1] == e.kind && (e.kind == 's' || e.kind == 'v')
    ensures ManifestParse(line) == Some(e)
  {
    hide ScanNumber, SkipName, BarAt;
  }

  lemma NameStops(path: string, tail: string)
    requires GoodPath(path)
    ensures SkipName(path + "|" + tail, 0) == |path|
  {
    var line := path + "|" + tail;
    assert line[|path|] == '|';
    forall k | 0 <= k < |path| ensures line[k] != '|' { assert line[k] == path[k]; }
    SkipNameEnds(line, 0, |path|);
  }

  /** Whatever follows the line, and in particular its newline, parsing what was printed
      gives back the entry. */
  lemma ParseUndoesPrint(e: Entry, rest: string)
    requires GoodEntry(e)
    ensures ManifestParse(LineText(e) + rest) == Some(e)
  {
    hide ScanNumber, SkipName, Text, ManifestParse;
    var line := LineText(e) + rest;
    var a, b := Text(e.relTs), Text(e.boot);
    var tail := [e.kind] + rest;
    FieldsNest(e.path, a, b, [e.kind], rest);
    NameStops(e.path, a + "|" + b + "|" + tail);
    var p1 := e.path + "|";
    ScanReads(line, p1, e.relTs, b + "|" + tail);
    var p2 := p1 + a + "|";
    ScanReads(line, p2, e.boot, tail);
    var k := |p2| + |b|;
    assert line[k + 1..] == tail;
    assert line[k + 1] == tail[0];
    assert line[..|e.path|] == e.path && line[|e.path|] == '|';
    ParseSteps(line, e, |e.path|, |p1| + |a|, k);
  }

  /** The line buffer of 112 bytes that the capture tasks use never clips a line. */
  lemma LineFits(e: Entry, cap: nat)
    requires GoodEntry(e) && cap >= NAME_MAX_LEN + 32
    ensures ManifestLine(cap, e) == LineText(e) + "\n" && ManifestParse(ManifestLine(cap, e)) == Some(e)
  {
    Uint32Length(e.relTs);
    Uint32Length(e.boot);
    ParseUndoesPrint(e, "\n");
  }

  /** A parsed path is the text before the line's first bar. */
  lemma ParsedPath(line: string)
    ensures match ManifestParse(line)
      case None => true
      case Some(e) => GoodEntry(e) && e.path + "|" <= line
  {
    var n := SkipName(line, 0);
    if n != 0 && BarAt(line, n) {
      assert line[..n] + "|" == line[..n + 1];
      assert forall c :: c in line[..n] ==> c != '|';
    }
  }

  // ---- Generated paths ----

  lemma PathFits(dir: string, boot: Uint32, relTs: Uint32, n: Uint32, ext: string)
    requires |dir| <= 18 && |ext| <= 6
    ensures |PathIn(dir, boot, relTs, n, ext)| <= 56
  {
    Uint32Length(boot);
    Uint32Length(relTs);
    Uint32Length(n);
  }

  /** No bar, newline or NUL. */
  predicate Clean(s: string) { '|' !in s && '\n' !in s && '\0' !in s }

  lemma DigitsClean(s: string)
    requires AllDigits(s)
    ensures Clean(s)
  {
  }

  lemma PathClean(dir: string, boot: Uint32, relTs: Uint32, n: Uint32, ext: string)
    requires Clean(dir) && Clean(ext)
    ensures Clean(PathIn(dir, boot, relTs, n, ext))
  {
    ValueOfText(boot);
    ValueOfText(n);
    ValueOfPadded(relTs, 10);
    DigitsClean(Text(boot));
    DigitsClean(Text(n));
    DigitsClean(Padded(relTs, 10));
    hide Text, Padded, Value, AllDigits;
  }

  /** Generated paths are never clipped and can stand in a manifest line. */
  lemma PathsAreGood(cap: nat, boot: Uint32, relTs: Uint32, n: Uint32)
    requires cap >= NAME_MAX_LEN
    ensures SnapshotPath(cap, boot, relTs, n) == PathIn(SNAPSHOTS, boot, relTs, n, ".jpg")
    ensures VideoPath(cap, boot, relTs, n) == PathIn(VIDEOS, boot, relTs, n, ".mjpeg")
    ensures GoodPath(SnapshotPath(cap, boot, relTs, n)) && Clean(SnapshotPath(cap, boot, relTs, n))
    ensures GoodPath(VideoPath(cap, boot, relTs, n)) && Clean(VideoPath(cap, boot, relTs, n))
  {
    hide PathIn;
    PathIsGood(SNAPSHOTS, boot, relTs, n, ".jpg");
    PathIsGood(VIDEOS, boot, relTs, n, ".mjpeg");
  }

  lemma PathIsGood(dir: string, boot: Uint32, relTs: Uint32, n: Uint32, ext: string)
    requires 1 <= |dir| <= 18 && |ext| <= 6 && Clean(dir) && Clean(ext)
    ensures var path := PathIn(dir, boot, relTs, n, ext);
      |path| <= 56 && GoodPath(path) && Clean(path)
  {
    PathFits(dir, boot, relTs, n, ext);
    PathClean(dir, boot, relTs, n, ext);
    assert PathIn(dir, boot, relTs, n, ext)[0] == dir[0];
  }

  /** A path names one boot, time and sequence number. */
  lemma PathInjective(dir: string, ext: string, boot: Uint32, relTs: Uint32, n: Uint32,
                      boot': Uint32, relTs': Uint32, n': Uint32)
    ensures PathIn(dir, boot, relTs, n, ext) == PathIn(dir, boot', relTs', n', ext) <==>
      boot == boot' && relTs == relTs' && n == n'
  {
    var p, q := PathIn(dir, boot, relTs, n, ext), PathIn(dir, boot', relTs', n', ext);
    if p == q {
      ValueOfText(boot);
      ValueOfText(boot');
      ValueOfText(n);
      ValueOfText(n');
      ValueOfPadded(relTs, 10);
      ValueOfPadded(relTs', 10);
      hide Text, Padded, Value;
      var a, a' := dir + Text(boot) + "/" + Padded(relTs, 10), dir + Text(boot') + "/" + Padded(relTs', 10);
      assert p[..|p| - |ext|] == a + "_" + Text(n) && q[..|q| - |ext|] == a' + "_" + Text(n');
      LastFieldInjective(a, a', '_', Text(n), Text(n'));
      LastFieldInjective(dir + Text(boot), dir + Text(boot'), '/', Padded(relTs, 10), Padded(relTs', 10));
      assert (dir + Text(boot))[|dir|..] == Text(boot) && (dir + Text(boot'))[|dir|..] == Text(boot');
    }
  }

  lemma KindsDiffer(boot: Uint32, relTs: Uint32, n: Uint32, boot': Uint32, relTs': Uint32, n': Uint32)
    ensures PathIn(SNAPSHOTS, boot, relTs, n, ".jpg") != PathIn(VIDEOS, boot', relTs', n', ".mjpeg")
  {
    assert PathIn(SNAPSHOTS, boot, relTs, n, ".jpg")[8] == 's';
    assert PathIn(VIDEOS, boot', relTs', n', ".mjpeg")[8] == 'v';
  }

  /** Within a boot, paths with different times sort as strings in order of time. */
  lemma PathsSortByTime(dir: string, ext: string, boot: Uint32, relTs: Uint32, n: Uint32, relTs': Uint32, n': Uint32)
    requires relTs != relTs'
    ensures Less(PathIn(dir, boot, relTs, n, ext), PathIn(dir, boot, relTs', n', ext)) <==> relTs < relTs'
  {
    var a, b := Padded(relTs, 10), Padded(relTs', 10);
    var x, y := "_" + Text(n) + ext, "_" + Text(n') + ext;
    var pre := dir + Text(boot) + "/";
    Uint32Length(relTs);
    Uint32Length(relTs');
    ValueOfPadded(relTs, 10);
    ValueOfPadded(relTs', 10);
    hide Text, Padded, Value, Less;
    assert PathIn(dir, boot, relTs, n, ext) == pre + (a + x);
    assert PathIn(dir, boot, relTs', n', ext) == pre + (b + y);
    LessAfterPrefix(pre, a + x, b + y);
    LessBeforeSuffix(a, b, x, y);
    LessIsNumeric(a, b);
  }

  lemma NumbersLook()
    ensures Text(42) == "42" && Text(13) == "13" && Text(7) == "7" && Text(3) == "3"
    ensures Padded(42, 10) == "0000000042"
  {
    assert Text(42) == "42";
    hide Text;
    assert seq(8, _ => '0') == "00000000";
  }

  /** Two paths and a line, in full. */
  lemma PathsLook()
    ensures SnapshotPath(80, 7, 42, 3) == "/sdcard/snapshots/7/0000000042_3.jpg"
    ensures VideoPath(80, 7, 42, 13) == "/sdcard/video/7/0000000042_13.mjpeg"
    ensures LineText(Entry("/sdcard/a.jpg", 42, 7, 's')) == "/sdcard/a.jpg|42|7|s"
  {
    NumbersLook();
    hide Text, Padded;
  }

  // ---- The consumed body ----

  function NonEmpty(ls: seq<string>): seq<string> {
    if ls == [] then [] else (if ls[0] == "" then [] else [ls[0]]) + NonEmpty(ls[1..])
  }

  predicate Short(names: seq<string>) { forall i :: 0 <= i < |names| ==> |names[i]| < NAME_MAX_LEN }

  /** The body's non-empty lines, if each is short enough and there are at most `max`. */
  function NamesIn(body: string, max: nat): Option<seq<string>> {
    var names := NonEmpty(Lines(body));
    if Short(names) && |names| <= max then Some(names) else None
  }

  lemma NonEmptyFrom(s: string, p: nat)
    requires p < |s|
    ensures var name := s[p..LineEnd(s, p)];
      NonEmpty(Lines(s[p..])) == (if name == "" then [] else [name]) + NonEmpty(Lines(s[NextLine(s, p)..]))
  {
    LinesFrom(s, p);
  }

  /** These names were read from the first p characters. */
  ghost predicate ReadUpTo(body: string, p: nat, names: seq<string>) {
    p <= |body| && NonEmpty(Lines(body)) == names + NonEmpty(Lines(body[p..]))
  }

  lemma ReadStarts(body: string)
    ensures ReadUpTo(body, 0, [])
  {
    assert body[0..] == body;
  }

  lemma ReadMore(body: string, p: nat, names: seq<string>)
    requires p < |body| && ReadUpTo(body, p, names)
    ensures var name := body[p..LineEnd(body, p)];
      ReadUpTo(body, NextLine(body, p), names + if name == "" then [] else [name])
  {
    hide NonEmpty, Lines, LineEnd, NextLine;
    NonEmptyFrom(body, p);
    var name := body[p..LineEnd(body, p)];
    Associates(names, if name == "" then [] else [name], NonEmpty(Lines(body[NextLine(body, p)..])));
  }

  lemma ReadIsPrefix(body: string, p: nat, names: seq<string>)
    requires ReadUpTo(body, p, names)
    ensures names <= NonEmpty(Lines(body))
  {
  }

  lemma ReadEnds(body: string, names: seq<string>)
    requires ReadUpTo(body, |body|, names)
    ensures NonEmpty(Lines(body)) == names
  {
    assert body[|body|..] == "";
  }

  method ConsumedParse(body: string, max: nat) returns (r: Option<seq<string>>)
    ensures r == NamesIn(body, max)
  {
    hide ReadUpTo, NonEmpty, Lines;
    var names: seq<string> := [];
    var p := 0;
    ReadStarts(body);
    while p < |body|
      invariant ReadUpTo(body, p, names) && p <= |body|
      invariant Short(names) && |names| <= max
    {
      var nl := LineEnd(body, p);
      ReadMore(body, p, names);
      var name := body[p..nl];
      if name != "" {
        ReadIsPrefix(body, NextLine(body, p), names + [name]);
        if |name| >= NAME_MAX_LEN || |names| >= max {
          assert NonEmpty(Lines(body))[|names|] == name;
          return None;
        }
        names := names + [name];
      } else {
        assert names + [] == names;
      }
      p := if nl == |body| then nl else nl + 1;
    }
    ReadEnds(body, names);
    return Some(names);
  }

  /** What a caller lists, one short name to a line, is what the device reads. */
  lemma ConsumedRoundTrip(names: seq<string>, max: nat)
    requires |names| <= max
    requires forall name :: name in names ==> 1 <= |name| < NAME_MAX_LEN && '\n' !in name
    ensures NamesIn(Joined(names), max) == Some(names)
  {
    LinesOfJoined(names);
    NonEmptyAll(names);
  }

  /** Blank lines are passed over. */
  lemma {:induction false} BlankLinesSkipped(xs: seq<string>, ys: seq<string>)
    ensures NonEmpty(xs + [""] + ys) == NonEmpty(xs) + NonEmpty(ys)
  {
    if xs == [] {
      assert [] + [""] + ys == [""] + ys;
      assert ([""] + ys)[1..] == ys;
    } else {
      assert (xs + [""] + ys)[1..] == xs[1..] + [""] + ys;
      BlankLinesSkipped(xs[1..], ys);
    }
  }

  lemma {:induction false} NonEmptyAll(ls: seq<string>)
    requires "" !in ls
    ensures NonEmpty(ls) == ls
  {
    if ls != [] { NonEmptyAll(ls[1..]); }
  }
}
