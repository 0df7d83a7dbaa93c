/** Printing statements and splitting them again. */
module SqlRoundTrip {
  import opened SqlLexer
  import opened SqlSplitter

  // ---------------------------------------------------------------- whitespace around a piece

  lemma SpaceIsNotLexed(c: char, s: string)
    requires IsSpace(c)
    ensures Fragments(Default, [c] + s) == Prepend([c], Fragments(Default, s))
    ensures EndState(Default, [c] + s) == EndState(Default, s)
  {
    var t := [c] + s;
    assert t[1..] == s && t[..1] == [c];
    assert TagLength(t) == 0 && !Opens(t, '-', '-') && !Opens(t, '/', '*');
    assert Step(Default, t) == (1, Default);
  }

  /** A piece with no cut in it. */
  predicate Whole(s: string) {
    Fragments(Default, s) == [s]
  }

  lemma OnePieceIsWhole(s: string)
    ensures |Fragments(Default, s)| == 1 <==> Whole(s)
  {
    FragmentsLoseNothing(Default, s);
  }

  lemma LeadingSpaceMayGo(c: char, s: string)
    requires IsSpace(c)
    ensures Whole([c] + s) ==> Whole(s)
    ensures Closed([c] + s) ==> Closed(s)
  {
    SpaceIsNotLexed(c, s);
    OnePieceIsWhole(s);
  }

  /** Reading one whitespace character: never a cut, and only a newline changes the state. */
  lemma ReadSpace(st: State, c: char)
    requires Sound(st) && IsSpace(c)
    ensures Fragments(st, [c]) == [[c]]
    ensures EndState(st, [c]) == if st.LineComment? && c == '\n' then Default else st
  {
    var s := [c];
    if st.Dollar? {
      assert !(st.tag <= s);
    }
    assert s[1..] == "" && s[..1] == s;
    assert Step(st, s).0 == 1;
    assert s + "" == s;
  }

  lemma TrailingSpaceMayGo(s: string, c: char)
    requires IsSpace(c)
    ensures Whole(s + [c]) ==> Whole(s)
    ensures Closed(s + [c] + "\n") ==> Closed(s + "\n")
  {
    var e := EndState(Default, s);
    ReadInTwoParts(Default, s, [c]);
    EndsInTwoParts(Default, s, [c]);
    ReadSpace(e, c);
    OnePieceIsWhole(s);
    OnePieceIsWhole(s + [c]);
    if Closed(s + [c] + "\n") {
      var e' := EndState(e, [c]);
      ReadSpace(e', '\n');
      ReadInTwoParts(Default, s + [c], "\n");
      EndsInTwoParts(Default, s + [c], "\n");
      ReadSpace(e, '\n');
      ReadInTwoParts(Default, s, "\n");
      EndsInTwoParts(Default, s, "\n");
      OnePieceIsWhole(s + [c] + "\n");
      OnePieceIsWhole(s + "\n");
    }
  }

  lemma {:induction false} TrimStartKeeps(s: string)
    ensures Whole(s) ==> Whole(TrimStart(s))
    ensures Closed(s + "\n") ==> Closed(TrimStart(s) + "\n")
  {
    if s != "" && IsSpace(s[0]) {
      assert s == [s[0]] + s[1..] && s + "\n" == [s[0]] + (s[1..] + "\n");
      LeadingSpaceMayGo(s[0], s[1..]);
      LeadingSpaceMayGo(s[0], s[1..] + "\n");
      TrimStartKeeps(s[1..]);
    }
  }

  lemma {:induction false} TrimEndKeeps(s: string)
    ensures Whole(s) ==> Whole(TrimEnd(s))
    ensures Closed(s + "\n") ==> Closed(TrimEnd(s) + "\n")
  {
    if s != "" && IsSpace(s[|s| - 1]) {
      var front, c := s[..|s| - 1], s[|s| - 1];
      assert s == front + [c];
      TrailingSpaceMayGo(front, c);
      TrimEndKeeps(front);
    }
  }

  lemma StripKeeps(s: string)
    ensures Whole(s) ==> Whole(Strip(s))
    ensures Closed(s + "\n") ==> Closed(Strip(s) + "\n")
  {
    TrimStartKeeps(s);
    TrimEndKeeps(TrimStart(s));
  }

  lemma ClosedStaysClosed(s: string)
    requires Closed(s)
    ensures Closed(s + "\n")
  {
    ReadInTwoParts(Default, s, "\n");
    EndsInTwoParts(Default, s, "\n");
    ReadSpace(Default, '\n');
  }

  // ---------------------------------------------------------------- stripping again

  lemma {:induction false} TrimStartShape(s: string)
    ensures |TrimStart(s)| <= |s|
    ensures TrimStart(s) != "" ==> !IsSpace(TrimStart(s)[0])
    ensures |TrimStart(s)| == |s| ==> TrimStart(s) == s
  {
    if s != "" && IsSpace(s[0]) {
      TrimStartShape(s[1..]);
    }
  }

  lemma {:induction false} TrimEndShape(s: string)
    ensures |TrimEnd(s)| <= |s|
    ensures TrimEnd(s) != "" ==> !IsSpace(TrimEnd(s)[|TrimEnd(s)| - 1]) && TrimEnd(s)[0] == s[0]
  {
    if s != "" && IsSpace(s[|s| - 1]) {
      TrimEndShape(s[..|s| - 1]);
    }
  }

  lemma StripShape(s: string)
    ensures Strip(Strip(s)) == Strip(s)
    ensures Strip(s) != "" ==> !IsSpace(Strip(s)[0]) && !IsSpace(Strip(s)[|Strip(s)| - 1])
  {
    TrimStartShape(s);
    TrimEndShape(TrimStart(s));
  }

  lemma StripIgnoresNewlines(s: string)
    ensures Strip("\n" + s) == Strip(s)
    ensures Strip(s) == s && s != "" ==> Strip(s + "\n") == s
  {
    assert ("\n" + s)[1..] == s;
    if Strip(s) == s && s != "" {
      StripShape(s);
      assert (s + "\n")[0] == s[0];
      assert (s + "\n")[..|s|] == s;
      assert TrimEnd(s) == s;
    }
  }

  lemma CleanedIgnoresLeadingNewline(fs: seq<string>)
    requires fs != []
    ensures Cleaned(Prepend("\n", fs)) == Cleaned(fs)
  {
    StripIgnoresNewlines(fs[0]);
    assert Prepend("\n", fs)[1..] == fs[1..];
  }

  // ---------------------------------------------------------------- round trip

  predicate IsStatement(x: string) {
    x != "" && Strip(x) == x && !IsCommentOnly(x) && Whole(x)
  }

  /** Statements that can be printed: all but the last must be closed by the newline after them. */
  ghost predicate Printable(xs: seq<string>) {
    forall i :: 0 <= i < |xs| ==> IsStatement(xs[i]) && (i < |xs| - 1 ==> Closed(xs[i] + "\n"))
  }

  const SEPARATOR := "\n;\n"

  lemma FirstIsReadBack(x: string, more: string)
    requires IsStatement(x) && Closed(x + "\n")
    ensures Cleaned(Fragments(Default, x + (SEPARATOR + more))) == [x] + Cleaned(Fragments(Default, more))
  {
    var fs := Fragments(Default, more);
    assert x + (SEPARATOR + more) == (x + "\n") + (";" + ("\n" + more));
    ClosedPieceIsCut(x + "\n", "\n" + more);
    SpaceIsNotLexed('\n', more);
    StripIgnoresNewlines(x);
    CleanedAppends([x + "\n"], Prepend("\n", fs));
    CleanedIgnoresLeadingNewline(fs);
    assert Cleaned([x + "\n"]) == [x];
  }

  lemma {:induction false} PrintedIsReadBack(xs: seq<string>)
    requires Printable(xs)
    ensures Cleaned(Fragments(Default, Join(xs, SEPARATOR))) == xs
  {
    if |xs| > 1 {
      FirstIsReadBack(xs[0], Join(xs[1..], SEPARATOR));
      PrintedIsReadBack(xs[1..]);
    }
  }

  lemma {:induction false} StatementsHaveCode(xs: seq<string>)
    requires forall i :: 0 <= i < |xs| ==> !IsCommentOnly(xs[i])
    ensures WithCode(xs) == xs
  {
    if xs != [] {
      StatementsHaveCode(xs[1..]);
    }
  }

  /** Splitting printed statements gives the same statements. */
  lemma SplitUndoesPrint(xs: seq<string>)
    requires Printable(xs)
    ensures Statements(Join(xs, SEPARATOR)) == xs
  {
    PrintedIsReadBack(xs);
    StatementsHaveCode(xs);
  }

  // ---------------------------------------------------------------- what the splitter returns can be printed

  lemma PieceReparses(f: string, last: bool)
    requires Whole(f) && (!last ==> Closed(f))
    ensures var x := Strip(f);
            && (x != "" && !IsCommentOnly(x) ==> IsStatement(x))
            && (!last ==> Closed(x + "\n"))
  {
    StripKeeps(f);
    StripShape(f);
    if !last {
      ClosedStaysClosed(f);
    }
  }

  lemma PrintableGrows(x: string, xs: seq<string>)
    requires Printable(xs) && IsStatement(x) && (xs != [] ==> Closed(x + "\n"))
    ensures Printable([x] + xs)
  {
    var all := [x] + xs;
    forall i | 0 <= i < |all| ensures IsStatement(all[i]) && (i < |all| - 1 ==> Closed(all[i] + "\n")) {
      if i > 0 {
        var before := i - 1;
        assert all[i] == xs[before] && IsStatement(xs[before]);
      }
    }
  }

  /** Keeping one more piece keeps its stripped text, or nothing. */
  lemma KeptGrows(f: string, fs: seq<string>)
    ensures var x, kept := Strip(f), WithCode(Cleaned(fs));
            WithCode(Cleaned([f] + fs)) == if x == "" || IsCommentOnly(x) then kept else [x] + kept
  {
    var x := Strip(f);
    assert ([f] + fs)[1..] == fs;
    assert ([x] + Cleaned(fs))[1..] == Cleaned(fs);
    assert [] + Cleaned(fs) == Cleaned(fs);
  }

  /** From pieces as the lexer cuts them, the kept statements are printable. */
  lemma {:induction false} KeptPiecesArePrintable(fs: seq<string>, end: State)
    requires fs != [] && Cut(fs, end)
    ensures Printable(WithCode(Cleaned(fs)))
  {
    var f, rest := fs[0], fs[1..];
    var kept := WithCode(Cleaned(rest));
    PieceReparses(f, rest == []);
    KeptGrows(f, rest);
    if rest != [] {
      assert Cut(rest, end) by {
        assert rest[|rest| - 1] == fs[|fs| - 1];
        assert forall i :: 0 <= i < |rest| - 1 ==> rest[i] == fs[i + 1];
      }
      KeptPiecesArePrintable(rest, end);
    }
    if Strip(f) != "" && !IsCommentOnly(Strip(f)) {
      PrintableGrows(Strip(f), kept);
    }
    assert [f] + rest == fs;
  }

  /** Every script's statements, printed and split again, are the same statements; all but the last are
      closed by a newline. */
  lemma SplittingIsStable(script: string)
    ensures Printable(Statements(script))
    ensures Statements(Join(Statements(script), SEPARATOR)) == Statements(script)
  {
    FragmentsAreCut(script);
    KeptPiecesArePrintable(Fragments(Default, script), EndState(Default, script));
    SplitUndoesPrint(Statements(script));
  }
}
