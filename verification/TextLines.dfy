/** Text as lines, as strchr and memchr walks over '\n' see it. */
module TextLines {

  /** Where the line starting at p ends: its newline, or the end of the text. */
  function LineEnd(s: string, p: nat): (e: nat)
    requires p <= |s|
    ensures p <= e <= |s| && (forall k :: p <= k < e ==> s[k] != '\n') && (e < |s| ==> s[e] == '\n')
    decreases |s| - p
  {
    if p < |s| && s[p] != '\n' then LineEnd(s, p + 1) else p
  }

  /** The lines; an unterminated one at the end counts if it is not empty. */
  function Lines(s: string): (ls: seq<string>)
    decreases |s|
  {
    if s == "" then []
    else
      var e := LineEnd(s, 0);
      if e == |s| then [s] else [s[..e]] + Lines(s[e + 1..])
  }

  function Joined(ls: seq<string>): string {
    if ls == [] then "" else ls[0] + "\n" + Joined(ls[1..])
  }

  lemma LineEndIs(s: string, p: nat, e: nat)
    requires p <= e <= |s| && (forall k :: p <= k < e ==> s[k] != '\n') && (e < |s| ==> s[e] == '\n')
    ensures LineEnd(s, p) == e
  {
  }

  /** Where the next line starts. */
  function NextLine(s: string, p: nat): (q: nat)
    requires p < |s|
    ensures p < q <= |s|
  {
    var e := LineEnd(s, p);
    if e == |s| then e else e + 1
  }

  lemma LinesOfLine(line: string, rest: string)
    requires '\n' !in line
    ensures Lines(line + "\n" + rest) == [line] + Lines(rest)
  {
    var s := line + "\n" + rest;
    LineEndIs(s, 0, |line|);
    assert s[..|line|] == line && s[|line| + 1..] == rest;
  }

  lemma Cut(s: string, p: nat, e: nat)
    requires p <= e < |s| && s[e] == '\n'
    ensures s[p..] == s[p..e] + "\n" + s[e + 1..]
  {
  }

  lemma LastLine(line: string)
    requires '\n' !in line && line != ""
    ensures Lines(line) == [line]
  {
    LineEndIs(line, 0, |line|);
  }

  lemma LineHasNone(s: string, p: nat)
    requires p <= |s|
    ensures '\n' !in s[p..LineEnd(s, p)]
  {
  }

  lemma LinesFromMiddle(s: string, p: nat)
    requires p < |s| && LineEnd(s, p) < |s|
    ensures Lines(s[p..]) == [s[p..LineEnd(s, p)]] + Lines(s[LineEnd(s, p) + 1..])
  {
    hide Lines, LineEnd;
    LineHasNone(s, p);
    Cut(s, p, LineEnd(s, p));
    LinesOfLine(s[p..LineEnd(s, p)], s[LineEnd(s, p) + 1..]);
  }

  lemma LinesFromLast(s: string, p: nat)
    requires p < |s| && LineEnd(s, p) == |s|
    ensures Lines(s[p..]) == [s[p..|s|]] + Lines(s[|s|..])
  {
    LineHasNone(s, p);
    assert s[|s|..] == "" && Lines("") == [];
    hide Lines, LineEnd;
    assert s[p..] == s[p..|s|];
    LastLine(s[p..|s|]);
  }

  /** The first line and the rest, from p. */
  lemma LinesFrom(s: string, p: nat)
    requires p < |s|
    ensures Lines(s[p..]) == [s[p..LineEnd(s, p)]] + Lines(s[NextLine(s, p)..])
  {
    hide Lines, LineEnd;
    if LineEnd(s, p) < |s| {
      LinesFromMiddle(s, p);
    } else {
      LinesFromLast(s, p);
    }
  }

  /** Splitting undoes joining. */
  lemma {:induction false} LinesOfJoined(ls: seq<string>)
    requires forall line :: line in ls ==> '\n' !in line
    ensures Lines(Joined(ls)) == ls
  {
    if ls != [] {
      LinesOfJoined(ls[1..]);
      LinesOfLine(ls[0], Joined(ls[1..]));
    }
  }

  lemma {:induction false} LinesAreLines(s: string)
    ensures forall line :: line in Lines(s) ==> '\n' !in line
    decreases |s|
  {
    hide LineEnd;
    if s != "" {
      var e := LineEnd(s, 0);
      if e < |s| { LinesAreLines(s[e + 1..]); }
    }
  }

  ghost predicate Ended(s: string) { s == "" || s[|s| - 1] == '\n' }

  lemma FirstLine(s: string) returns (line: string, rest: string)
    requires s != "" && Ended(s)
    ensures s == line + "\n" + rest && '\n' !in line && Ended(rest)
  {
    var e := LineEnd(s, 0);
    line, rest := s[..e], s[e + 1..];
  }

  lemma SplitStep(line: string, rest: string, b: string)
    requires '\n' !in line && Lines(rest + b) == Lines(rest) + Lines(b)
    ensures Lines(line + "\n" + rest + b) == Lines(line + "\n" + rest) + Lines(b)
  {
    hide Lines;
    LinesOfLine(line, rest);
    LinesOfLine(line, rest + b);
    assert line + "\n" + rest + b == line + "\n" + (rest + b);
  }

  /** Text cut right after a newline falls into the lines of both halves. */
  lemma {:induction false} LinesSplit(a: string, b: string)
    requires Ended(a)
    ensures Lines(a + b) == Lines(a) + Lines(b)
    decreases |a|
  {
    if a == "" {
      assert a + b == b;
    } else {
      var line, rest := FirstLine(a);
      LinesSplit(rest, b);
      SplitStep(line, rest, b);
    }
  }

  lemma {:induction false} JoinedJoins(xs: seq<string>, ys: seq<string>)
    ensures Joined(xs + ys) == Joined(xs) + Joined(ys)
  {
    if xs == [] {
      assert xs + ys == ys;
    } else {
      assert (xs + ys)[1..] == xs[1..] + ys;
      JoinedJoins(xs[1..], ys);
    }
  }

  /** Joining what was split gives the text back, with its last line ended. */
  lemma {:induction false} JoinedOfLines(s: string)
    ensures Joined(Lines(s)) == if Ended(s) then s else s + "\n"
    decreases |s|
  {
    if s != "" {
      var e := LineEnd(s, 0);
      if e < |s| {
        JoinedOfLines(s[e + 1..]);
        assert s == s[..e] + "\n" + s[e + 1..];
      }
    }
  }
}
