/** The five lexical states of the migration splitter, as a recursive lexer. */
module SqlLexer {

  datatype State = Default | LineComment | BlockComment | Quoted | Dollar(tag: string)

  predicate TagStart(c: char) {
    'A' <= c <= 'Z' || 'a' <= c <= 'z' || c == '_'
  }

  predicate TagChar(c: char) {
    TagStart(c) || '0' <= c <= '9'
  }

  /** How many tag characters a string starts with. */
  function IdentLength(s: string): (n: nat)
    ensures n <= |s|
  {
    if s == "" || !TagChar(s[0]) then 0 else 1 + IdentLength(s[1..])
  }

  /** The length of the dollar tag a string starts with, or 0. */
  function TagLength(s: string): (n: nat)
    ensures n <= |s|
  {
    if |s| < 2 || s[0] != '$' then 0
    else if s[1] == '$' then 2
    else if !TagStart(s[1]) then 0
    else
      var n := IdentLength(s[1..]);
      if 1 + n < |s| && s[1 + n] == '$' then n + 2 else 0
  }

  /** Whether `s` opens with the two characters `a`, `b`. */
  predicate Opens(s: string, a: char, b: char) {
    |s| >= 2 && s[0] == a && s[1] == b
  }

  /** What is consumed next from a state, and the state it leads to. */
  function Step(st: State, s: string): (r: (nat, State))
    requires s != ""
    ensures 0 <= r.0 <= |s|
  {
    match st
    case LineComment => (1, if s[0] == '\n' then Default else LineComment)
    case BlockComment => if Opens(s, '*', '/') then (2, Default) else (1, BlockComment)
    case Dollar(tag) => if tag <= s then (|tag|, Default) else (1, st)
    case Quoted =>
      if s[0] != '\'' then (1, Quoted)
      else if Opens(s, '\'', '\'') then (2, Quoted)
      else (1, Default)
    case Default =>
      if Opens(s, '-', '-') then (2, LineComment)
      else if Opens(s, '/', '*') then (2, BlockComment)
      else if s[0] == '\'' then (1, Quoted)
      else if TagLength(s) > 0 then (TagLength(s), Dollar(s[..TagLength(s)]))
      else (1, Default)
  }

  /** A tag is never empty and is made of dollars and tag characters. */
  predicate Sound(st: State) {
    st.Dollar? ==> |st.tag| >= 2 && forall i :: 0 <= i < |st.tag| ==> st.tag[i] == '$' || TagChar(st.tag[i])
  }

  lemma {:induction false} IdentIsTagChars(s: string)
    ensures forall i :: 0 <= i < IdentLength(s) ==> TagChar(s[i])
  {
    if s != "" && TagChar(s[0]) {
      IdentIsTagChars(s[1..]);
      assert forall i :: 0 < i < IdentLength(s) ==> s[i] == s[1..][i - 1];
    }
  }

  lemma StepIsSound(st: State, s: string)
    requires Sound(st) && s != ""
    ensures Step(st, s).0 >= 1 && Sound(Step(st, s).1)
  {
    if st.Default? && |s| >= 2 {
      IdentIsTagChars(s[1..]);
      assert forall i :: 0 <= i < IdentLength(s[1..]) ==> s[1 + i] == s[1..][i];
    }
  }

  predicate Cuts(st: State, s: string) {
    st.Default? && s != "" && s[0] == ';'
  }

  function Prepend(p: string, fs: seq<string>): seq<string>
    requires fs != []
  {
    [p + fs[0]] + fs[1..]
  }

  /** The raw pieces between the semicolons read in the default state. */
  function Fragments(st: State, s: string): (fs: seq<string>)
    requires Sound(st)
    ensures fs != []
    decreases |s|
  {
    if s == "" then [""]
    else if Cuts(st, s) then [""] + Fragments(Default, s[1..])
    else
      StepIsSound(st, s);
      var (n, next) := Step(st, s);
      Prepend(s[..n], Fragments(next, s[n..]))
  }

  function EndState(st: State, s: string): (e: State)
    requires Sound(st)
    ensures Sound(e)
    decreases |s|
  {
    if s == "" then st
    else
      StepIsSound(st, s);
      EndState(Step(st, s).1, s[Step(st, s).0..])
  }

  // ---------------------------------------------------------------- nothing is lost, nothing else is cut

  function Join(fs: seq<string>, sep: string): string {
    if fs == [] then "" else if |fs| == 1 then fs[0] else fs[0] + (sep + Join(fs[1..], sep))
  }

  lemma JoinPrepend(p: string, fs: seq<string>, sep: string)
    requires fs != []
    ensures Join(Prepend(p, fs), sep) == p + Join(fs, sep)
  {
    assert Prepend(p, fs)[1..] == fs[1..];
    if |fs| > 1 {
      assert p + fs[0] + (sep + Join(fs[1..], sep)) == p + (fs[0] + (sep + Join(fs[1..], sep)));
    }
  }

  lemma JoinCut(fs: seq<string>, sep: string)
    requires fs != []
    ensures Join([""] + fs, sep) == sep + Join(fs, sep)
  {
    assert ([""] + fs)[1..] == fs;
    assert "" + (sep + Join(fs, sep)) == sep + Join(fs, sep);
  }

  /** The raw pieces rejoined with semicolons give the script back unchanged. */
  lemma {:induction false} FragmentsLoseNothing(st: State, s: string)
    requires Sound(st)
    ensures Join(Fragments(st, s), ";") == s
    decreases |s|
  {
    if s != "" {
      if Cuts(st, s) {
        FragmentsLoseNothing(Default, s[1..]);
        JoinCut(Fragments(Default, s[1..]), ";");
        assert s == ";" + s[1..];
      } else {
        StepIsSound(st, s);
        var (n, next) := Step(st, s);
        FragmentsLoseNothing(next, s[n..]);
        JoinPrepend(s[..n], Fragments(next, s[n..]), ";");
        assert s == s[..n] + s[n..];
      }
    }
  }

  /** A string is closed when reading it from the default state meets no cut and ends in the default
      state. */
  predicate Closed(s: string) {
    Fragments(Default, s) == [s] && EndState(Default, s).Default?
  }

  // ---------------------------------------------------------------- reading across a boundary

  /** Characters that never continue a token begun before them. */
  predicate Separator(c: char) {
    c != '-' && c != '*' && c != '/' && c != '\'' && c != '$' && !TagChar(c)
  }

  predicate StartsFresh(s: string) {
    s != "" ==> Separator(s[0])
  }

  lemma {:induction false} IdentStopsAtSeparator(a: string, b: string)
    requires StartsFresh(b)
    ensures IdentLength(a + b) == IdentLength(a)
  {
    if a == "" {
      assert a + b == b;
    } else {
      assert (a + b)[1..] == a[1..] + b;
      IdentStopsAtSeparator(a[1..], b);
    }
  }

  lemma TagStopsAtSeparator(a: string, b: string)
    requires a != "" && StartsFresh(b)
    ensures TagLength(a + b) == TagLength(a)
  {
    assert (a + b)[1..] == a[1..] + b;
    IdentStopsAtSeparator(a[1..], b);
  }

  lemma TagDoesNotStraddle(tag: string, a: string, b: string)
    requires Sound(Dollar(tag)) && StartsFresh(b)
    ensures tag <= a + b <==> tag <= a
  {
    var s := a + b;
    if |tag| <= |a| {
      assert s[..|tag|] == a[..|tag|];
    } else if b != "" {
      assert s[|a|] == b[0] && tag[|a|] != b[0];
    }
  }

  lemma StepStopsAtSeparator(st: State, a: string, b: string)
    requires Sound(st) && a != "" && StartsFresh(b)
    ensures Step(st, a + b) == Step(st, a)
  {
    var s := a + b;
    assert |a| > 1 ==> s[1] == a[1];
    match st
    case Default =>
      TagStopsAtSeparator(a, b);
      assert s[..TagLength(a)] == a[..TagLength(a)];
    case Dollar(tag) => TagDoesNotStraddle(tag, a, b);
    case _ =>
  }

  /** The pieces of `a` and of what follows it, with the piece at the boundary in one. */
  function Glue(fs: seq<string>, gs: seq<string>): seq<string>
    requires fs != [] && gs != []
  {
    fs[..|fs| - 1] + [fs[|fs| - 1] + gs[0]] + gs[1..]
  }

  lemma GluePrepend(p: string, fs: seq<string>, gs: seq<string>)
    requires fs != [] && gs != []
    ensures Glue(Prepend(p, fs), gs) == Prepend(p, Glue(fs, gs))
  {
    if |fs| == 1 {
      assert p + fs[0] + gs[0] == p + (fs[0] + gs[0]);
    }
  }

  lemma GlueCut(fs: seq<string>, gs: seq<string>)
    requires fs != [] && gs != []
    ensures Glue([""] + fs, gs) == [""] + Glue(fs, gs)
  {
  }

  lemma GlueNothing(gs: seq<string>)
    requires gs != []
    ensures Glue([""], gs) == gs
  {
    assert "" + gs[0] == gs[0];
  }

  /** One step of `a + b` is one step of `a`. */
  lemma StepSplits(st: State, a: string, b: string)
    requires Sound(st) && StartsFresh(b) && a != ""
    ensures var (n, next) := Step(st, a);
            && 1 <= n <= |a| && Sound(next) && Step(st, a + b) == (n, next)
            && (a + b)[n..] == a[n..] + b && (a + b)[..n] == a[..n]
    ensures Cuts(st, a + b) <==> Cuts(st, a)
    ensures (a + b)[1..] == a[1..] + b
  {
    StepIsSound(st, a);
    StepStopsAtSeparator(st, a, b);
  }

  lemma {:induction false} EndsInTwoParts(st: State, a: string, b: string)
    requires Sound(st) && StartsFresh(b)
    ensures EndState(st, a + b) == EndState(EndState(st, a), b)
    decreases |a|
  {
    if a == "" {
      assert a + b == b;
    } else {
      StepSplits(st, a, b);
      EndsInTwoParts(Step(st, a).1, a[Step(st, a).0..], b);
    }
  }

  /** Reading up to a separator and then on from the state reached is reading it all. */
  lemma {:induction false} ReadInTwoParts(st: State, a: string, b: string)
    requires Sound(st) && StartsFresh(b)
    ensures Fragments(st, a + b) == Glue(Fragments(st, a), Fragments(EndState(st, a), b))
    decreases |a|
  {
    if a == "" {
      assert a + b == b;
      GlueNothing(Fragments(st, b));
    } else {
      StepSplits(st, a, b);
      var (n, next) := Step(st, a);
      ReadInTwoParts(next, a[n..], b);
      var fs, gs := Fragments(next, a[n..]), Fragments(EndState(next, a[n..]), b);
      GlueCut(fs, gs);
      GluePrepend(a[..n], fs, gs);
    }
  }

  lemma ReadSemicolon(s: string)
    ensures Fragments(Default, ";" + s) == [""] + Fragments(Default, s)
    ensures EndState(Default, ";" + s) == EndState(Default, s)
  {
    assert (";" + s)[1..] == s;
  }

  /** A closed piece is cut off whole by the semicolon after it. */
  lemma ClosedPieceIsCut(a: string, s: string)
    requires Closed(a)
    ensures Fragments(Default, a + (";" + s)) == [a] + Fragments(Default, s)
    ensures EndState(Default, a + (";" + s)) == EndState(Default, s)
  {
    ReadInTwoParts(Default, a, ";" + s);
    EndsInTwoParts(Default, a, ";" + s);
    ReadSemicolon(s);
    assert a + "" == a;
  }

  /** Every piece but the last is closed; the last has no cut and ends where the script ends. */
  ghost predicate Cut(fs: seq<string>, end: State)
    requires fs != []
  {
    && (forall i :: 0 <= i < |fs| - 1 ==> Closed(fs[i]))
    && Fragments(Default, fs[|fs| - 1]) == [fs[|fs| - 1]]
    && EndState(Default, fs[|fs| - 1]) == end
  }

  /** There is only one way to cut a script into such pieces: any that rejoins to it is the lexer's. */
  lemma {:induction false} CutIsUnique(fs: seq<string>, s: string, end: State)
    requires fs != [] && Cut(fs, end) && Join(fs, ";") == s
    ensures fs == Fragments(Default, s) && end == EndState(Default, s)
  {
    if |fs| > 1 {
      var rest := fs[1..];
      assert Cut(rest, end) by {
        assert rest[|rest| - 1] == fs[|fs| - 1];
        assert forall i :: 0 <= i < |rest| - 1 ==> rest[i] == fs[i + 1];
      }
      CutIsUnique(rest, Join(rest, ";"), end);
      ClosedPieceIsCut(fs[0], Join(rest, ";"));
    }
  }

  lemma PieceGrows(st: State, first: string)
    requires Sound(st) && first != "" && !Cuts(st, first)
    requires Step(st, first).0 >= 1 && Sound(Step(st, first).1)
    requires var rest := first[Step(st, first).0..];
             Fragments(Step(st, first).1, rest) == [rest] && EndState(Step(st, first).1, rest).Default?
    ensures Fragments(st, first) == [first] && EndState(st, first).Default?
  {
    var n := Step(st, first).0;
    assert first == first[..n] + first[n..];
  }

  lemma {:induction false} FirstPieceIsClosed(st: State, s: string) returns (tail: string)
    requires Sound(st) && |Fragments(st, s)| > 1
    ensures var first := Fragments(st, s)[0];
            s == first + (";" + tail) && Fragments(st, first) == [first] && EndState(st, first).Default?
    ensures Fragments(st, s)[1..] == Fragments(Default, tail)
    decreases |s|
  {
    if Cuts(st, s) {
      tail := s[1..];
      assert s == "" + (";" + tail);
    } else {
      StepIsSound(st, s);
      var (n, next) := Step(st, s);
      tail := FirstPieceIsClosed(next, s[n..]);
      ExtendsFirst(s, n, Fragments(next, s[n..])[0], ";" + tail);
      var first := s[..n] + Fragments(next, s[n..])[0];
      StepSplits(st, first, ";" + tail);
      PieceGrows(st, first);
    }
  }

  lemma ExtendsFirst(s: string, n: nat, rest: string, b: string)
    requires n <= |s| && s[n..] == rest + b
    ensures s == s[..n] + rest + b
    ensures (s[..n] + rest)[n..] == rest && (s[..n] + rest)[..n] == s[..n]
  {
    assert s == s[..n] + s[n..];
  }

  /** The lexer cuts exactly at the semicolons read in the default state: every piece but the last reads
      from default to default without a cut, and the last has no cut left in it. */
  lemma {:induction false} FragmentsAreCut(s: string)
    ensures Cut(Fragments(Default, s), EndState(Default, s))
    decreases |s|
  {
    var fs := Fragments(Default, s);
    FragmentsLoseNothing(Default, s);
    if |fs| > 1 {
      var tail := FirstPieceIsClosed(Default, s);
      FragmentsAreCut(tail);
      ClosedPieceIsCut(fs[0], tail);
      CutGrows(fs[0], Fragments(Default, tail), EndState(Default, tail));
    }
  }

  lemma CutGrows(first: string, rest: seq<string>, end: State)
    requires rest != [] && Closed(first) && Cut(rest, end)
    ensures Cut([first] + rest, end)
  {
    var fs := [first] + rest;
    assert fs[|fs| - 1] == rest[|rest| - 1];
    assert forall i :: 0 < i < |fs| - 1 ==> fs[i] == rest[i - 1];
  }
}
