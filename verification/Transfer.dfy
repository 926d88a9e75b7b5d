/** The POST /consumed handler of transfer.c: parse the names, delete the files, and
    rewrite the manifest without their lines inside one fixed buffer. */
module Transfer {
  import opened Wrappers
  import opened Arithmetic
  import opened Decimal
  import opened TextLines
  import opened Sequences
  import opened MediaIndex

  const MANIFEST_BUF_CAP := 8192
  const CONSUMED_BODY_CAP := 4096
  const CONSUMED_MAX_NAMES := 32
  const LINE_BUF_CAP := 128

  /** A byte buffer as a C string: up to its first NUL. */
  function CString(s: string): string {
    if s == "" || s[0] == '\0' then "" else [s[0]] + CString(s[1..])
  }

  /** Does the line survive? Unparseable and over-long lines do. */
  predicate Stays(line: string, names: seq<string>) {
    && line != ""
    && (|line| < LINE_BUF_CAP ==>
         match ManifestParse(CString(line))
         case None => true
         case Some(e) => e.path !in names)
  }

  function One(line: string, names: seq<string>): seq<string> { if Stays(line, names) then [line] else [] }

  function Kept(ls: seq<string>, names: seq<string>): seq<string> {
    if ls == [] then [] else One(ls[0], names) + Kept(ls[1..], names)
  }

  function Trimmed(manifest: string, names: seq<string>): string { Joined(Kept(Lines(manifest), names)) }

  predicate CutShort(manifest: string) {
    |manifest| == MANIFEST_BUF_CAP && manifest[MANIFEST_BUF_CAP - 1] != '\n'
  }

  method Memcpy(dst: array<char>, at: nat, src: array<char>, from: nat, n: nat)
    requires dst != src && at + n <= dst.Length && from + n <= src.Length
    modifies dst
    ensures dst[..] == old(dst[..at]) + src[from..from + n] + old(dst[at + n..])
  {
    for i := 0 to n
      invariant dst[..at] == old(dst[..at])
      invariant dst[at..at + i] == src[from..from + i]
      invariant dst[at + i..] == old(dst[at + i..])
    {
      dst[at + i] := src[from + i];
      assert dst[at..at + i + 1] == dst[at..at + i] + [src[from + i]];
      assert src[from..from + i + 1] == src[from..from + i] + [src[from + i]];
    }
    assert dst[..] == dst[..at] + dst[at..at + n] + dst[at + n..];
  }

  /** What a line adds to the trimmed manifest. */
  function Piece(line: string, names: seq<string>): string { if Stays(line, names) then line + "\n" else "" }

  lemma KeptFrom(s: string, p: nat, names: seq<string>)
    requires p < |s|
    ensures Trimmed(s[p..], names) == Piece(s[p..LineEnd(s, p)], names) + Trimmed(s[NextLine(s, p)..], names)
  {
    var line, rest := s[p..LineEnd(s, p)], Lines(s[NextLine(s, p)..]);
    LinesFrom(s, p);
    hide Lines, LineEnd, Kept;
    KeptHead(line, rest, names);
    PieceIs(line, names);
    JoinedJoins(One(line, names), Kept(rest, names));
  }

  lemma PieceIs(line: string, names: seq<string>)
    ensures Joined(One(line, names)) == Piece(line, names)
  {
    hide Stays;
    assert [line][1..] == [];
    assert Joined([line]) == line + "\n" + "" == line + "\n";
  }

  /** `done` is the trimmed manifest but for what its rest from p adds. */
  ghost predicate TrimmedTo(m: string, names: seq<string>, p: nat, done: string) {
    p <= |m| && Trimmed(m, names) == done + Trimmed(m[p..], names)
  }

  lemma TrimStarts(m: string, names: seq<string>)
    ensures TrimmedTo(m, names, 0, "")
  {
    assert m[0..] == m;
  }

  lemma TrimMore(m: string, names: seq<string>, p: nat, done: string)
    requires p < |m| && TrimmedTo(m, names, p, done)
    ensures TrimmedTo(m, names, NextLine(m, p), done + Piece(m[p..LineEnd(m, p)], names))
  {
    hide Trimmed, Piece, LineEnd, NextLine;
    KeptFrom(m, p, names);
    Associates(done, Piece(m[p..LineEnd(m, p)], names), Trimmed(m[NextLine(m, p)..], names));
  }

  lemma TrimEnds(m: string, names: seq<string>, done: string)
    requires TrimmedTo(m, names, |m|, done)
    ensures done == Trimmed(m, names)
  {
    assert m[|m|..] == "";
  }

  /** A manifest that fills the buffer ends its last line, so there is room for the
      newline the loop adds to a last line that has none. */
  lemma LastLineFits(m: string, p: nat)
    requires p < |m| <= MANIFEST_BUF_CAP && !CutShort(m)
    ensures LineEnd(m, p) < |m| || |m| < MANIFEST_BUF_CAP
  {
  }

  /** Copies a line and ends it. */
  method AppendLine(out: array<char>, at: nat, src: array<char>, from: nat, n: nat) returns (len: nat)
    requires out != src && at + n < out.Length && from + n <= src.Length
    modifies out
    ensures len == at + n + 1
    ensures out[..len] == old(out[..at]) + (src[from..from + n] + "\n")
  {
    Memcpy(out, at, src, from, n);
    len := at + n;
    out[len] := '\n';
    len := len + 1;
    assert out[..len] == out[..at + n] + "\n";
  }

  method Keeps(line: string, names: seq<string>) returns (keep: bool)
    ensures keep == Stays(line, names)
  {
    if 0 < |line| < LINE_BUF_CAP {
      var parsed := ManifestParse(CString(line));
      if parsed.None? {
        return true;
      }
      for i := 0 to |names|
        invariant forall j :: 0 <= j < i ==> names[j] != parsed.value.path
      {
        if parsed.value.path == names[i] {
          return false;
        }
      }
      return true;
    }
    return 0 < |line|;
  }

  lemma SameSlice(a: string, n: nat, i: nat, j: nat)
    requires i <= j <= n <= |a|
    ensures a[..n][i..j] == a[i..j]
  {
  }

  /** The trim loop; it never writes past the buffer. */
  method TrimLoop(manifest: array<char>, manLen: nat, names: seq<string>, out: array<char>) returns (newLen: nat)
    requires manifest != out && manifest.Length == out.Length == MANIFEST_BUF_CAP && manLen <= MANIFEST_BUF_CAP
    requires !CutShort(manifest[..manLen])
    modifies out
    ensures newLen <= MANIFEST_BUF_CAP && out[..newLen] == Trimmed(manifest[..manLen], names)
  {
    hide TrimmedTo, Trimmed, Stays, LineEnd, CutShort;
    ghost var m := manifest[..manLen];
    ghost var done := "";
    newLen := 0;
    var p := 0;
    TrimStarts(m, names);
    while p < manLen
      invariant p <= manLen && m == manifest[..manLen]
      invariant newLen <= MANIFEST_BUF_CAP && (newLen <= p || p == manLen)
      invariant out[..newLen] == done && TrimmedTo(m, names, p, done)
    {
      var nl := LineEnd(manifest[..manLen], p);
      SameSlice(manifest[..], manLen, p, nl);
      LastLineFits(m, p);
      TrimMore(m, names, p, done);
      var keep := Keeps(manifest[p..nl], names);
      if keep {
        newLen := AppendLine(out, newLen, manifest, p, nl - p);
        done := done + Piece(m[p..nl], names);
      } else {
        assert done + "" == done;
      }
      p := if nl == manLen then nl else nl + 1;
    }
    TrimEnds(m, names, done);
  }

  /** A manifest that fills the buffer without ending a line is taken for cut short and
      left alone. */
  method Trim(manifest: array<char>, manLen: nat, names: seq<string>, out: array<char>) returns (newLen: nat)
    requires manifest != out && manifest.Length == out.Length == MANIFEST_BUF_CAP && manLen <= MANIFEST_BUF_CAP
    modifies out
    ensures newLen <= MANIFEST_BUF_CAP
    ensures CutShort(manifest[..manLen]) ==> newLen == manLen
    ensures !CutShort(manifest[..manLen]) ==> out[..newLen] == Trimmed(manifest[..manLen], names)
  {
    var truncated := manLen == MANIFEST_BUF_CAP && manLen > 0 && manifest[manLen - 1] != '\n';
    assert truncated == CutShort(manifest[..manLen]);
    if truncated {
      newLen := manLen;
    } else {
      newLen := TrimLoop(manifest, manLen, names, out);
    }
  }

  // ---- What trimming means ----

  lemma {:induction false} KeptSelects(ls: seq<string>, names: seq<string>)
    ensures forall line :: line in Kept(ls, names) <==> line in ls && Stays(line, names)
  {
    if ls != [] {
      KeptSelects(ls[1..], names);
      assert ls == [ls[0]] + ls[1..];
    }
  }

  /** The trimmed manifest, read back as lines, is the lines that stay, in order. */
  lemma TrimmedLines(manifest: string, names: seq<string>)
    ensures Lines(Trimmed(manifest, names)) == Kept(Lines(manifest), names)
  {
    LinesAreLines(manifest);
    KeptSelects(Lines(manifest), names);
    LinesOfJoined(Kept(Lines(manifest), names));
  }

  lemma KeptHead(line: string, rest: seq<string>, names: seq<string>)
    ensures Kept([line] + rest, names) == One(line, names) + Kept(rest, names)
  {
    hide One;
    assert ([line] + rest)[1..] == rest;
  }

  lemma StaysBoth(line: string, a: seq<string>, b: seq<string>)
    ensures Stays(line, a + b) <==> Stays(line, a) && Stays(line, b)
  {
    hide ManifestParse, CString;
  }

  lemma {:induction false} KeptTwice(ls: seq<string>, a: seq<string>, b: seq<string>)
    ensures Kept(Kept(ls, a), b) == Kept(ls, a + b)
  {
    if ls != [] {
      KeptTwice(ls[1..], a, b);
      KeptTwiceStep(ls[0], ls[1..], a, b);
      assert ls == [ls[0]] + ls[1..];
    }
  }

  lemma KeptTwiceStep(x: string, r: seq<string>, a: seq<string>, b: seq<string>)
    requires Kept(Kept(r, a), b) == Kept(r, a + b)
    ensures Kept(Kept([x] + r, a), b) == Kept([x] + r, a + b)
  {
    hide Kept, Stays;
    StaysBoth(x, a, b);
    KeptHead(x, r, a);
    KeptHead(x, r, a + b);
    KeptHead(x, Kept(r, a), b);
    assert Stays(x, a) ==> One(x, a) == [x];
    assert !Stays(x, a) ==> One(x, a) + Kept(r, a) == Kept(r, a);
    assert !Stays(x, a) ==> One(x, a + b) + Kept(r, a + b) == Kept(r, a + b);
  }

  /** Trimming twice is trimming once with both lists; so a repeated request is harmless
      and the order of requests does not matter to what is left. */
  lemma TrimComposes(manifest: string, a: seq<string>, b: seq<string>)
    ensures Trimmed(Trimmed(manifest, a), b) == Trimmed(manifest, a + b)
  {
    TrimmedLines(manifest, a);
    KeptTwice(Lines(manifest), a, b);
  }

  lemma {:induction false} KeptJoins(xs: seq<string>, ys: seq<string>, names: seq<string>)
    ensures Kept(xs + ys, names) == Kept(xs, names) + Kept(ys, names)
  {
    if xs == [] {
      assert xs + ys == ys;
    } else {
      KeptJoins(xs[1..], ys, names);
      KeptJoinsStep(xs[0], xs[1..], ys, names);
      assert xs == [xs[0]] + xs[1..];
    }
  }

  lemma KeptJoinsStep(x: string, r: seq<string>, ys: seq<string>, names: seq<string>)
    requires Kept(r + ys, names) == Kept(r, names) + Kept(ys, names)
    ensures Kept([x] + r + ys, names) == Kept([x] + r, names) + Kept(ys, names)
  {
    hide Kept, One;
    assert [x] + r + ys == [x] + (r + ys);
    KeptHead(x, r, names);
    KeptHead(x, r + ys, names);
  }

  /** What the handler reads of a manifest file. */
  function ReadBack(file: string): string { file[..Min(|file|, MANIFEST_BUF_CAP)] }

  /** What the manifest file becomes. */
  function Rewritten(file: string, names: seq<string>): string {
    if CutShort(ReadBack(file)) then file else Trimmed(ReadBack(file), names)
  }

  /** The file's lines that should stay. */
  function Staying(file: string, names: seq<string>): seq<string> { Kept(Lines(file), names) }

  lemma {:induction false} KeptAll(ls: seq<string>, names: seq<string>)
    requires forall line :: line in ls ==> Stays(line, names)
    ensures Kept(ls, names) == ls
  {
    if ls != [] {
      assert ls[0] in ls && forall line :: line in ls[1..] ==> line in ls;
      hide Stays;
      KeptAll(ls[1..], names);
      assert ls == [ls[0]] + ls[1..];
    }
  }

  lemma StayingAfterTrim(manifest: string, names: seq<string>)
    ensures Staying(Trimmed(manifest, names), names) == Staying(manifest, names)
  {
    TrimmedLines(manifest, names);
    KeptSelects(Lines(manifest), names);
    hide Stays, Lines, Trimmed;
    KeptAll(Kept(Lines(manifest), names), names);
  }

  lemma StayingSplits(file: string, names: seq<string>)
    requires |file| > MANIFEST_BUF_CAP && file[MANIFEST_BUF_CAP - 1] == '\n'
    ensures Staying(file, names) == Staying(ReadBack(file), names) + Staying(file[MANIFEST_BUF_CAP..], names)
  {
    var head, tail := ReadBack(file), file[MANIFEST_BUF_CAP..];
    assert file == head + tail;
    LinesSplit(head, tail);
    hide Lines, LineEnd, Kept;
    KeptJoins(Lines(head), Lines(tail), names);
  }

  lemma ReadBackOf(file: string)
    ensures |file| <= MANIFEST_BUF_CAP ==> ReadBack(file) == file
    ensures |file| > MANIFEST_BUF_CAP ==> (CutShort(ReadBack(file)) <==> file[MANIFEST_BUF_CAP - 1] != '\n')
  {
  }

  /** Every line that should stay does, except when the file outgrows the buffer just after
      a newline: that is not recognised as cut short, and the rest of the file is dropped,
      with whatever in it should have stayed. */
  lemma TailLostIff(file: string, names: seq<string>)
    ensures Staying(Rewritten(file, names), names) != Staying(file, names) <==>
      && |file| > 8192 && file[8191] == '\n'
      && Staying(file[8192..], names) != []
  {
    ReadBackOf(file);
    hide Staying, Trimmed, CutShort, ReadBack;
    StayingAfterTrim(ReadBack(file), names);
    if |file| > MANIFEST_BUF_CAP && file[MANIFEST_BUF_CAP - 1] == '\n' {
      StayingSplits(file, names);
    }
  }

  // ---- Manifests as lists of entries ----

  function Texts(es: seq<Entry>): seq<string> { if es == [] then [] else [LineText(es[0])] + Texts(es[1..]) }

  function Manifest(es: seq<Entry>): string { Joined(Texts(es)) }

  function Unconsumed(es: seq<Entry>, names: seq<string>): seq<Entry> {
    if es == [] then []
    else (if es[0].path in names then [] else [es[0]]) + Unconsumed(es[1..], names)
  }

  /** What the capture tasks list. */
  predicate Listable(e: Entry) { GoodEntry(e) && Clean(e.path) }

  lemma {:induction false} CStringWhole(s: string)
    requires '\0' !in s
    ensures CString(s) == s
  {
    if s != "" {
      assert s == [s[0]] + s[1..];
      CStringWhole(s[1..]);
    }
  }

  lemma LineNormal(e: Entry)
    requires Listable(e)
    ensures 0 < |LineText(e)| < LINE_BUF_CAP && '\n' !in LineText(e) && '\0' !in LineText(e)
  {
    ValueOfText(e.relTs);
    ValueOfText(e.boot);
    Uint32Length(e.relTs);
    Uint32Length(e.boot);
    DigitsClean(Text(e.relTs));
    DigitsClean(Text(e.boot));
    hide Text, AllDigits;
  }

  lemma EntryStays(e: Entry, names: seq<string>)
    requires Listable(e)
    ensures Stays(LineText(e), names) <==> e.path !in names
  {
    LineNormal(e);
    CStringWhole(LineText(e));
    ParseUndoesPrint(e, "");
    assert LineText(e) + "" == LineText(e);
    hide LineText, ManifestParse, CString;
  }

  lemma TextsHead(e: Entry, es: seq<Entry>)
    ensures Texts([e] + es) == [LineText(e)] + Texts(es)
  {
    assert ([e] + es)[1..] == es;
  }

  lemma {:induction false} KeptEntries(es: seq<Entry>, names: seq<string>)
    requires forall e :: e in es ==> Listable(e)
    ensures Kept(Texts(es), names) == Texts(Unconsumed(es, names))
  {
    if es != [] {
      KeptEntries(es[1..], names);
      KeptEntriesStep(es[0], es[1..], names);
      assert es == [es[0]] + es[1..];
    }
  }

  lemma KeptEntriesStep(e: Entry, r: seq<Entry>, names: seq<string>)
    requires Listable(e) && Kept(Texts(r), names) == Texts(Unconsumed(r, names))
    ensures Kept(Texts([e] + r), names) == Texts(Unconsumed([e] + r, names))
  {
    EntryStays(e, names);
    assert ([e] + r)[1..] == r;
    assert Unconsumed([e] + r, names) == if e.path in names then Unconsumed(r, names) else [e] + Unconsumed(r, names);
    hide Stays, LineText, Kept, Texts, Unconsumed;
    TextsHead(e, r);
    TextsHead(e, Unconsumed(r, names));
    KeptHead(LineText(e), Texts(r), names);
  }

  lemma {:induction false} TextsAreLines(es: seq<Entry>)
    requires forall e :: e in es ==> Listable(e)
    ensures forall line :: line in Texts(es) ==> '\n' !in line
  {
    if es != [] {
      TextsAreLines(es[1..]);
      LineNormal(es[0]);
      hide LineText;
    }
  }

  /** Trimming a manifest of printed entries removes exactly the entries named. */
  lemma ManifestTrims(es: seq<Entry>, names: seq<string>)
    requires forall e :: e in es ==> Listable(e)
    ensures Trimmed(Manifest(es), names) == Manifest(Unconsumed(es, names))
  {
    TextsAreLines(es);
    LinesOfJoined(Texts(es));
    KeptEntries(es, names);
  }

  lemma {:induction false} ManifestEnded(es: seq<Entry>)
    ensures Ended(Manifest(es)) && (Manifest(es) == "" <==> es == [])
  {
    if es != [] { ManifestEnded(es[1..]); }
  }

  lemma ManifestGrows(es: seq<Entry>, e: Entry)
    ensures Manifest(es + [e]) == Manifest(es) + (LineText(e) + "\n")
  {
    TextsJoin(es, [e]);
    JoinedJoins(Texts(es), Texts([e]));
    assert Texts([e]) == [LineText(e)];
    assert Joined([LineText(e)]) == LineText(e) + "\n";
  }

  lemma {:induction false} TextsJoin(xs: seq<Entry>, ys: seq<Entry>)
    ensures Texts(xs + ys) == Texts(xs) + Texts(ys)
  {
    if xs == [] {
      assert xs + ys == ys;
    } else {
      assert (xs + ys)[1..] == xs[1..] + ys;
      TextsJoin(xs[1..], ys);
    }
  }

  // ---- The card ----

  datatype State = State(manifest: string, files: set<string>)

  datatype Reply = BadRequest | Done(teardown: bool)

  function AsSet(names: seq<string>): set<string> { set name | name in names }

  /** The names of a request: at most 4095 bytes of its body are read. */
  function Requested(posted: string): Option<seq<string>> {
    NamesIn(CString(posted[..Min(|posted|, CONSUMED_BODY_CAP - 1)]), CONSUMED_MAX_NAMES)
  }

  function Consumed(s: State, posted: string): (State, Reply) {
    match Requested(posted)
    case None => (s, BadRequest)
    case Some(names) =>
      var left := Rewritten(s.manifest, names);
      (State(left, s.files - AsSet(names)), Done(left == ""))
  }

  /** A capture writes its file, then appends its line. */
  function Captured(s: State, e: Entry): State {
    State(s.manifest + ManifestLine(NAME_MAX_LEN + 32, e), s.files + {e.path})
  }

  class Card {
    var manifest: string
    var files: set<string>

    function Now(): State
      reads this
    {
      State(manifest, files)
    }

    method DeleteFiles(names: seq<string>)
      modifies this`files
      ensures files == old(files) - AsSet(names)
    {
      for i := 0 to |names|
        invariant files == old(files) - AsSet(names[..i])
      {
        assert names[..i + 1] == names[..i] + [names[i]];
        files := files - {names[i]};
      }
      assert names[..|names|] == names;
    }

    method Consume(posted: string) returns (reply: Reply)
      modifies this
      ensures (Now(), reply) == Consumed(old(Now()), posted)
    {
      var body := CString(posted[..Min(|posted|, CONSUMED_BODY_CAP - 1)]);
      var names := ConsumedParse(body, CONSUMED_MAX_NAMES);
      if names.None? {
        return BadRequest;
      }
      DeleteFiles(names.value);
      var manLen := Min(|manifest|, MANIFEST_BUF_CAP);
      var buf := new char[MANIFEST_BUF_CAP](
        i requires 0 <= i reads this => if i < |manifest| then manifest[i] else '\0');
      var out := new char[MANIFEST_BUF_CAP];
      assert buf[..manLen] == ReadBack(manifest);
      var newLen := Trim(buf, manLen, names.value, out);
      if !CutShort(ReadBack(manifest)) {
        manifest := out[..newLen];
      }
      return Done(newLen == 0);
    }
  }

  // ---- Whole lives of the card ----

  datatype Event = Capture(e: Entry) | Post(body: string)

  function Step(s: State, ev: Event): State {
    match ev
    case Capture(e) => Captured(s, e)
    case Post(body) => Consumed(s, body).0
  }

  function Run(evs: seq<Event>): State {
    if evs == [] then State("", {}) else Step(Run(evs[..|evs| - 1]), evs[|evs| - 1])
  }

  /** What was captured and not consumed since. */
  function Listed(evs: seq<Event>): seq<Entry> {
    if evs == [] then []
    else
      var es := Listed(evs[..|evs| - 1]);
      match evs[|evs| - 1]
      case Capture(e) => es + [e]
      case Post(body) => if Requested(body).None? then es else Unconsumed(es, Requested(body).value)
  }

  /** Captures are listable, and the manifest fits the buffer whenever it is read. */
  ghost predicate Ordinary(evs: seq<Event>) {
    forall i :: 0 <= i < |evs| ==>
      match evs[i]
      case Capture(e) => Listable(e)
      case Post(_) => |Run(evs[..i]).manifest| <= MANIFEST_BUF_CAP
  }

  lemma {:induction false} UnconsumedSelects(es: seq<Entry>, names: seq<string>)
    ensures forall e :: e in Unconsumed(es, names) <==> e in es && e.path !in names
  {
    if es != [] {
      UnconsumedSelects(es[1..], names);
      assert es == [es[0]] + es[1..];
    }
  }

  /** Over any ordinary life of the card the manifest is the printed list of what was
      captured and not consumed since, in order, and every file it lists is on the card. */
  lemma {:induction false} CardHolds(evs: seq<Event>)
    requires Ordinary(evs)
    ensures Run(evs).manifest == Manifest(Listed(evs))
    ensures forall e :: e in Listed(evs) ==> Listable(e) && e.path in Run(evs).files
    decreases |evs|
  {
    if evs != [] {
      var n := |evs| - 1;
      assert forall i :: 0 <= i < n ==> evs[..n][..i] == evs[..i];
      CardHolds(evs[..n]);
      match evs[n]
      case Capture(e) => CaptureHolds(Run(evs[..n]), Listed(evs[..n]), e);
      case Post(body) => PostHolds(Run(evs[..n]), Listed(evs[..n]), body);
    }
  }

  ghost predicate Holds(s: State, es: seq<Entry>) {
    s.manifest == Manifest(es) && forall e :: e in es ==> Listable(e) && e.path in s.files
  }

  lemma CaptureHolds(s: State, es: seq<Entry>, e: Entry)
    requires Holds(s, es) && Listable(e)
    ensures Holds(Captured(s, e), es + [e])
  {
    LineFits(e, NAME_MAX_LEN + 32);
    ManifestGrows(es, e);
    hide Manifest, Listable, ManifestLine, LineText;
  }

  /** One request: the named entries go, from the list and from the card; teardown is
      signalled exactly when nothing is left to fetch. */
  lemma PostHolds(s: State, es: seq<Entry>, body: string)
    requires Holds(s, es) && |s.manifest| <= MANIFEST_BUF_CAP
    ensures match Requested(body)
      case None => Consumed(s, body) == (s, BadRequest)
      case Some(names) =>
        var left := Unconsumed(es, names);
        Holds(Consumed(s, body).0, left) && Consumed(s, body).1 == Done(left == [])
  {
    if Requested(body).Some? {
      var names := Requested(body).value;
      hide Requested;
      assert ReadBack(s.manifest) == s.manifest;
      RequestHolds(s, es, names);
    }
  }

  lemma RequestHolds(s: State, es: seq<Entry>, names: seq<string>)
    requires Holds(s, es)
    ensures !CutShort(s.manifest)
    ensures Holds(State(Trimmed(s.manifest, names), s.files - AsSet(names)), Unconsumed(es, names))
    ensures Trimmed(s.manifest, names) == "" <==> Unconsumed(es, names) == []
  {
    ManifestTrims(es, names);
    ManifestEnded(es);
    ManifestEnded(Unconsumed(es, names));
    UnconsumedSelects(es, names);
    hide Manifest, Listable, Trimmed, Unconsumed;
  }

  // ---- Requests, files and lines in full ----

  lemma {:induction false} CStringEnds(s: string, rest: string)
    requires '\0' !in s
    ensures CString(s + "\0" + rest) == s
  {
    var t := s + "\0" + rest;
    if s != "" {
      assert s == [s[0]] + s[1..];
      CStringEnds(s[1..], rest);
      assert t[1..] == s[1..] + "\0" + rest;
    }
  }

  /** A request that lists names, one to a line, within 4095 bytes, is understood exactly
      when there are at most 32 of them and none is longer than 79 characters; whatever
      follows a NUL is ignored. */
  lemma RequestIs(names: seq<string>, rest: string)
    requires forall name :: name in names ==> name != "" && '\n' !in name && '\0' !in name
    requires |Joined(names)| <= 4095
    ensures Requested(Joined(names)) ==
      if |names| <= 32 && forall i :: 0 <= i < |names| ==> |names[i]| <= 79 then Some(names) else None
    ensures |Joined(names) + "\0" + rest| <= 4095 ==>
      Requested(Joined(names) + "\0" + rest) == Requested(Joined(names))
  {
    var body := Joined(names);
    JoinedHasNone(names);
    CStringWhole(body);
    CStringEnds(body, rest);
    LinesOfJoined(names);
    NonEmptyAll(names);
    assert body[..|body|] == body;
    var long := body + "\0" + rest;
    assert long[..|long|] == long;
    hide Joined, Lines, CString, NonEmpty;
  }

  lemma {:induction false} JoinedHasNone(ls: seq<string>)
    requires forall line :: line in ls ==> '\0' !in line
    ensures '\0' !in Joined(ls)
  {
    if ls != [] {
      assert ls[0] in ls && forall line :: line in ls[1..] ==> line in ls;
      JoinedHasNone(ls[1..]);
    }
  }

  /** Whatever is on the card, an understood request deletes exactly the files it names; one
      that is not understood changes nothing. A manifest that fills the buffer without
      ending a line is left as it is, and no teardown is signalled. */
  lemma ConsumedIs(s: State, posted: string)
    ensures match Requested(posted)
      case None => Consumed(s, posted) == (s, BadRequest)
      case Some(names) =>
        var t, reply := Consumed(s, posted).0, Consumed(s, posted).1;
        && (forall f :: f in t.files <==> f in s.files && f !in names)
        && (|s.manifest| >= 8192 && s.manifest[8191] != '\n' ==> t.manifest == s.manifest && reply == Done(false))
        && (|s.manifest| < 8192 ==> t.manifest == Trimmed(s.manifest, names))
        && (reply == Done(true) <==> t.manifest == "")
  {
    hide Requested, Trimmed;
    assert |s.manifest| < 8192 ==> ReadBack(s.manifest) == s.manifest;
  }

  /** What stays of a manifest: every line but the blank ones and those that parse and name
      a consumed path; a line of 128 characters or more is never parsed. */
  lemma StaysIs(line: string, names: seq<string>)
    requires '\0' !in line
    ensures Stays(line, names) <==>
      line != "" && (|line| >= 128 || ManifestParse(line).None? || ManifestParse(line).value.path !in names)
  {
    CStringWhole(line);
    hide ManifestParse, CString;
  }
}
