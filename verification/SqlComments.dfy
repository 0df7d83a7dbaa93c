/** What the comment-only filter may drop. */
module SqlComments {
  import opened SqlLexer
  import opened SqlSplitter

  /** What the lexer reads next is code: part of a literal, or neither whitespace nor a comment opener. */
  predicate IsCode(st: State, s: string) {
    s != "" && (st.Quoted? || st.Dollar? ||
                (st.Default? && !IsSpace(s[0]) && !Opens(s, '-', '-') && !Opens(s, '/', '*')))
  }

  /** Reading `s` from `st` meets a literal, or a character that is neither whitespace nor opens a
      comment. */
  predicate HasCode(st: State, s: string)
    requires Sound(st)
    decreases |s|
  {
    s != "" && (IsCode(st, s) || (StepIsSound(st, s); HasCode(Step(st, s).1, s[Step(st, s).0..])))
  }

  /** How far the filter's scan removes a block that opens here, or 0. */
  function Removed(s: string): (n: nat)
    ensures n <= |s|
  {
    if Opens(s, '/', '*') && CloseEnd(s[2..]) > 0 then 2 + CloseEnd(s[2..]) else 0
  }

  /** Up to the first code, the blocks the filter removes are blocks to the lexer too, or lie within one line comment;
      and the first code is not a dash that a removed block keeps from being read as half of a comment opener. */
  predicate BlocksStandClear(st: State, s: string)
    requires st.Default? || st.LineComment?
    decreases |s|
  {
    s == "" ||
    if st.LineComment? then
      if Removed(s) > 0 then '\n' !in s[..Removed(s)] && BlocksStandClear(LineComment, s[Removed(s)..])
      else BlocksStandClear(if s[0] == '\n' then Default else LineComment, s[1..])
    else if IsSpace(s[0]) then BlocksStandClear(Default, s[1..])
    else if Opens(s, '-', '-') then BlocksStandClear(LineComment, s[2..])
    else if Opens(s, '/', '*') then Removed(s) == 0 || BlocksStandClear(Default, s[Removed(s)..])
    else !(s[0] == '-' && Removed(s[1..]) > 0)
  }

  predicate AllComments(lines: seq<string>) {
    forall line :: line in lines ==> CommentLine(line)
  }

  lemma {:induction false} FirstLineIsPrefix(s: string)
    ensures Lines(s)[0] <= s
  {
    if s != "" && !IsLineBreak(s[0]) {
      FirstLineIsPrefix(s[1..]);
      assert s == [s[0]] + s[1..];
    }
  }

  lemma {:induction false} TrimEndIsPrefix(s: string)
    ensures TrimEnd(s) <= s
    ensures s != "" && !IsSpace(s[0]) ==> TrimEnd(s) != ""
  {
    if s != "" && IsSpace(s[|s| - 1]) {
      TrimEndIsPrefix(s[..|s| - 1]);
    }
  }

  /** A comment line whose first character is no whitespace opens a line comment there. */
  lemma CommentLineOpens(line: string)
    requires CommentLine(line) && line != "" && !IsSpace(line[0])
    ensures Opens(line, '-', '-')
  {
    TrimEndIsPrefix(line);
    assert Strip(line) == TrimEnd(line) && "--" <= Strip(line);
    assert Strip(line)[0] == '-' && Strip(line)[1] == '-';
  }

  lemma LinesAfter(s: string)
    requires s != ""
    ensures IsLineBreak(s[0]) ==> Lines(s)[1..] == Lines(s[1..]) && Lines(s)[0] == ""
    ensures !IsLineBreak(s[0]) ==> Lines(s)[1..] == Lines(s[1..])[1..] && Lines(s)[0] == [s[0]] + Lines(s[1..])[0]
  {
  }

  lemma BlankStartReadsOn(s: string)
    requires s != "" && IsSpace(s[0])
    ensures HasCode(Default, s) <==> HasCode(Default, s[1..])
  {
    assert TagLength(s) == 0 && Step(Default, s) == (1, Default);
  }

  lemma BlankStartKeepsComments(s: string)
    requires s != "" && IsSpace(s[0]) && AllComments(Lines(s))
    ensures AllComments(Lines(s[1..]))
  {
    LinesAfter(s);
    var lines, rest := Lines(s), Lines(s[1..]);
    assert forall line :: line in lines[1..] ==> line in lines;
    if !IsLineBreak(s[0]) {
      assert lines[0] in lines && lines[0][1..] == rest[0];
      assert rest == [rest[0]] + rest[1..];
    }
  }

  /** To the lexer a block comment ends at the first close. */
  lemma {:induction false} BlockReadsToItsClose(s: string)
    ensures HasCode(BlockComment, s) <==> CloseEnd(s) > 0 && HasCode(Default, s[CloseEnd(s)..])
  {
    if s != "" && !Opens(s, '*', '/') {
      BlockReadsToItsClose(s[1..]);
      assert CloseEnd(s) > 0 ==> s[1..][CloseEnd(s) - 1..] == s[CloseEnd(s)..];
    }
  }

  lemma {:induction false} LineCommentReadsOn(s: string, n: nat)
    requires n <= |s| && '\n' !in s[..n]
    ensures HasCode(LineComment, s) <==> HasCode(LineComment, s[n..])
  {
    if n > 0 {
      assert s[..n][0] == s[0] && s[1..][..n - 1] == s[..n][1..] && s[1..][n - 1..] == s[n..];
      LineCommentReadsOn(s[1..], n - 1);
    } else {
      assert s[0..] == s;
    }
  }

  lemma RemoveBlocksReads(s: string)
    requires s != ""
    ensures RemoveBlocks(s) == if Removed(s) > 0 then RemoveBlocks(s[Removed(s)..]) else [s[0]] + RemoveBlocks(s[1..])
    ensures Removed(s) == 0 ==> RemoveBlocks(s) != "" && RemoveBlocks(s)[1..] == RemoveBlocks(s[1..])
  {
  }

  /** A line that must be a comment cannot start with code. */
  lemma CodeStartsNoComment(s: string)
    requires s != "" && !IsSpace(s[0]) && !Opens(s, '-', '-') && !Opens(s, '/', '*') && BlocksStandClear(Default, s)
    ensures !AllComments(Lines(RemoveBlocks(s)))
  {
    var r := RemoveBlocks(s);
    RemoveBlocksReads(s);
    assert r[0] == s[0];
    LinesAfter(r);
    FirstLineIsPrefix(r);
    if AllComments(Lines(r)) {
      assert Lines(r)[0] in Lines(r) && Lines(r)[0][0] == s[0];
      CommentLineOpens(Lines(r)[0]);
      assert r[1] == '-' && r[1..][0] == '-';
      RemoveBlocksReads(s[1..]);
    }
  }

  lemma OpenedLineComment(s: string)
    requires Opens(s, '-', '-')
    ensures Lines(RemoveBlocks(s))[1..] == Lines(RemoveBlocks(s[2..]))[1..]
    ensures HasCode(Default, s) <==> HasCode(LineComment, s[2..])
  {
    RemoveBlocksReads(s);
    RemoveBlocksReads(s[1..]);
    assert s[1..][1..] == s[2..];
    LinesAfter(RemoveBlocks(s));
    LinesAfter(RemoveBlocks(s[1..]));
  }

  /** If what the scan leaves is all blank lines and comment lines, nothing it saw was code: neither from the default
      state nor from inside a line comment. */
  lemma {:induction false} CommentLinesHoldNoCode(s: string)
    ensures BlocksStandClear(Default, s) && AllComments(Lines(RemoveBlocks(s))) ==> !HasCode(Default, s)
    ensures BlocksStandClear(LineComment, s) && AllComments(Lines(RemoveBlocks(s))[1..]) ==> !HasCode(LineComment, s)
    decreases |s|
  {
    if s != "" {
      DefaultHoldsNoCode(s);
      LineCommentHoldsNoCode(s);
    }
  }

  lemma {:induction false} DefaultHoldsNoCode(s: string)
    requires s != ""
    ensures BlocksStandClear(Default, s) && AllComments(Lines(RemoveBlocks(s))) ==> !HasCode(Default, s)
    decreases |s|, 0
  {
    if BlocksStandClear(Default, s) && AllComments(Lines(RemoveBlocks(s))) {
      RemoveBlocksReads(s);
      if IsSpace(s[0]) {
        BlankStartReadsOn(s);
        BlankStartKeepsComments(RemoveBlocks(s));
        CommentLinesHoldNoCode(s[1..]);
      } else if Opens(s, '-', '-') {
        OpenedLineComment(s);
        CommentLinesHoldNoCode(s[2..]);
      } else if Opens(s, '/', '*') {
        BlockReadsToItsClose(s[2..]);
        if Removed(s) > 0 {
          assert s[2..][Removed(s) - 2..] == s[Removed(s)..];
          CommentLinesHoldNoCode(s[Removed(s)..]);
        }
      } else {
        CodeStartsNoComment(s);
      }
    }
  }

  lemma {:induction false} LineCommentHoldsNoCode(s: string)
    requires s != ""
    ensures BlocksStandClear(LineComment, s) && AllComments(Lines(RemoveBlocks(s))[1..]) ==> !HasCode(LineComment, s)
    decreases |s|, 0
  {
    if BlocksStandClear(LineComment, s) && AllComments(Lines(RemoveBlocks(s))[1..]) {
      RemoveBlocksReads(s);
      if Removed(s) > 0 {
        LineCommentReadsOn(s, Removed(s));
        CommentLinesHoldNoCode(s[Removed(s)..]);
      } else {
        LinesAfter(RemoveBlocks(s));
        CommentLinesHoldNoCode(s[1..]);
      }
    }
  }

  // ---------------------------------------------------------------- where the filter does not look

  /** The token that covers position `i`, read on from `st`, is code. */
  predicate CodeAt(st: State, s: string, i: int)
    requires Sound(st)
    decreases |s|
  {
    0 <= i < |s| &&
    (StepIsSound(st, s);
     var (n, next) := Step(st, s);
     if i < n then IsCode(st, s) else CodeAt(next, s[n..], i - n))
  }

  /** The filter looks at position `i`: it keeps the character, and it is one of the leading blanks of a line or what
      the line begins with. It does not look inside a removed block, nor on a line already begun, nor at a dash before a
      removed block, which it takes for the neighbour of whatever follows the block. */
  predicate LooksAt(begun: bool, s: string, i: int)
    decreases |s|
  {
    0 <= i < |s| &&
    if Removed(s) > 0 then LooksAt(begun, s[Removed(s)..], i - Removed(s))
    else if IsLineBreak(s[0]) then i == 0 || LooksAt(false, s[1..], i - 1)
    else if begun then LooksAt(true, s[1..], i - 1)
    else if i == 0 then !(s[0] == '-' && Removed(s[1..]) > 0)
    else LooksAt(!IsSpace(s[0]), s[1..], i - 1)
  }

  /** Code is read somewhere the filter does not look. */
  ghost predicate CodeOutOfSight(s: string) {
    exists i :: CodeAt(Default, s, i) && !LooksAt(false, s, i)
  }

  lemma {:induction false} CodeSomewhereIsCode(st: State, s: string, i: int)
    requires Sound(st) && CodeAt(st, s, i)
    ensures HasCode(st, s)
    decreases |s|
  {
    StepIsSound(st, s);
    var (n, next) := Step(st, s);
    if i >= n {
      CodeSomewhereIsCode(next, s[n..], i - n);
    }
  }

  predicate OpensComment(s: string) { Opens(s, '-', '-') || Opens(s, '/', '*') }

  /** Outside a literal, the first code is a character that is no whitespace and opens no comment. */
  lemma {:induction false} FirstCode(st: State, s: string) returns (i: nat)
    requires !st.Quoted? && !st.Dollar? && HasCode(st, s)
    ensures CodeAt(st, s, i) && !IsSpace(s[i]) && !OpensComment(s[i..])
    decreases |s|
  {
    StepIsSound(st, s);
    var (n, next) := Step(st, s);
    if IsCode(st, s) {
      i := 0;
      assert s[0..] == s;
    } else {
      i := FirstCode(next, s[n..]);
      assert s[n..][i..] == s[n + i..] && s[n..][i] == s[n + i];
      i := n + i;
    }
  }

  /** Every filter line from here on, but not the rest of one already begun, is blank or a comment. */
  predicate Commented(begun: bool, s: string) {
    var lines := Lines(RemoveBlocks(s));
    AllComments(if begun then lines[1..] else lines)
  }

  lemma CommentedAfterBlock(begun: bool, s: string)
    requires Removed(s) > 0 && Commented(begun, s)
    ensures Commented(begun, s[Removed(s)..])
  {
    RemoveBlocksReads(s);
  }

  lemma CommentedAfterOne(begun: bool, s: string)
    requires s != "" && Removed(s) == 0 && Commented(begun, s)
    ensures Commented(if IsLineBreak(s[0]) then false else begun || !IsSpace(s[0]), s[1..])
  {
    var r := RemoveBlocks(s);
    RemoveBlocksReads(s);
    LinesAfter(r);
    if !begun && !IsLineBreak(s[0]) && IsSpace(s[0]) {
      BlankStartKeepsComments(r);
    }
  }

  /** No code starts here. */
  predicate Harmless(s: string, i: int) {
    0 <= i < |s| && (IsSpace(s[i]) || OpensComment(s[i..]))
  }

  lemma HarmlessFurtherOn(s: string, n: nat, i: int)
    requires n <= |s| && Harmless(s[n..], i - n)
    ensures Harmless(s, i)
  {
    assert s[n..][i - n..] == s[i..];
  }

  /** Where every filter line is blank or a comment, what the filter looks at is a blank or opens a line comment. */
  lemma {:induction false} WhatTheFilterSeesIsNoCode(begun: bool, s: string, i: int)
    requires LooksAt(begun, s, i) && Commented(begun, s)
    ensures Harmless(s, i)
    decreases |s|
  {
    var n := Removed(s);
    if n > 0 {
      CommentedAfterBlock(begun, s);
      WhatTheFilterSeesIsNoCode(begun, s[n..], i - n);
      HarmlessFurtherOn(s, n, i);
    } else if i > 0 {
      CommentedAfterOne(begun, s);
      WhatTheFilterSeesIsNoCode(if IsLineBreak(s[0]) then false else begun || !IsSpace(s[0]), s[1..], i - 1);
      HarmlessFurtherOn(s, 1, i);
    } else if !IsSpace(s[0]) {
      LineStartsAComment(s);
      assert s[0..] == s;
    }
  }

  /** A line that must be a comment starts with a dash, and with two unless a block was removed after the first. */
  lemma LineStartsAComment(s: string)
    requires s != "" && Removed(s) == 0 && !IsSpace(s[0]) && AllComments(Lines(RemoveBlocks(s)))
    ensures Opens(s, '-', '-') || (s[0] == '-' && Removed(s[1..]) > 0)
  {
    var r := RemoveBlocks(s);
    RemoveBlocksReads(s);
    FirstLineIsPrefix(r);
    LinesAfter(r);
    assert Lines(r)[0] in Lines(r) && Lines(r)[0][0] == s[0];
    CommentLineOpens(Lines(r)[0]);
    assert r[1] == '-' && r[1..][0] == '-';
    RemoveBlocksReads(s[1..]);
  }

  /** A statement the filter drops holds no code exactly if none lies where the filter does not look: inside a block it
      removes, on a line already begun, or at a dash before a removed block. */
  lemma NothingExecutableIsDropped(statement: string)
    requires IsCommentOnly(statement)
    ensures !HasCode(Default, statement) <==> !CodeOutOfSight(statement)
  {
    if HasCode(Default, statement) {
      var i := FirstCode(Default, statement);
      if LooksAt(false, statement, i) {
        WhatTheFilterSeesIsNoCode(false, statement, i);
      }
    }
    if CodeOutOfSight(statement) {
      var i :| CodeAt(Default, statement, i) && !LooksAt(false, statement, i);
      CodeSomewhereIsCode(Default, statement, i);
    }
  }

  /** A quick check that needs no lexing past the first code: where the removed blocks stand clear of line comments and
      of a lone dash, a dropped statement has no code, in sight or out of it. */
  lemma ClearBlocksHideNothing(statement: string)
    requires BlocksStandClear(Default, statement) && IsCommentOnly(statement)
    ensures !HasCode(Default, statement) && !CodeOutOfSight(statement)
  {
    CommentLinesHoldNoCode(statement);
    NothingExecutableIsDropped(statement);
  }

  // ---------------------------------------------------------------- a statement that gets dropped

  /** Code between two line comments, one holding an opener and the other a close. */
  const HIDDEN := "--/*\nx--*/"

  /** One more token before a piece that is whole from there on. */
  lemma ReadsOn(st: State, token: string, s: string, next: State)
    requires Sound(st) && Sound(next) && token != "" && !Cuts(st, token + s)
    requires Step(st, token + s) == (|token|, next) && Fragments(next, s) == [s]
    ensures Fragments(st, token + s) == [token + s]
  {
    assert (token + s)[|token|..] == s && (token + s)[..|token|] == token;
  }

  lemma OpenComment(s: string)
    ensures HasCode(Default, "--" + s) <==> HasCode(LineComment, s)
  {
    assert ("--" + s)[2..] == s && ("--" + s)[..2] == "--";
  }

  lemma HiddenIsOnePiece()
    ensures Fragments(Default, HIDDEN) == [HIDDEN]
  {
    var close := "*" + ("/" + "");
    ReadsOn(LineComment, "/", "", LineComment);
    ReadsOn(LineComment, "*", "/" + "", LineComment);
    ReadsOn(Default, "--", close, LineComment);
    ReadsOn(Default, "x", "--" + close, Default);
    ReadsOn(LineComment, "\n", "x" + ("--" + close), Default);
    ReadsOn(LineComment, "*", "\n" + ("x" + ("--" + close)), LineComment);
    ReadsOn(LineComment, "/", "*" + ("\n" + ("x" + ("--" + close))), LineComment);
    ReadsOn(Default, "--", "/" + ("*" + ("\n" + ("x" + ("--" + close)))), LineComment);
    assert "--" + ("/" + ("*" + ("\n" + ("x" + ("--" + close))))) == HIDDEN;
  }

  lemma HiddenHasCode()
    ensures HasCode(Default, HIDDEN)
  {
    var code := "x--*/";
    assert HasCode(Default, code);
    assert ("\n" + code)[1..] == code && HasCode(LineComment, "\n" + code);
    assert ("*\n" + code)[1..] == "\n" + code && HasCode(LineComment, "*\n" + code);
    assert ("/*\n" + code)[1..] == "*\n" + code && HasCode(LineComment, "/*\n" + code);
    OpenComment("/*\n" + code);
    assert "--" + ("/*\n" + code) == HIDDEN;
  }

  lemma HiddenCloses()
    ensures CloseEnd("\nx--*/") == 6
  {
    assert "-*/"[1..] == "*/" && "--*/"[1..] == "-*/" && "x--*/"[1..] == "--*/" && "\nx--*/"[1..] == "x--*/";
    assert CloseEnd("-*/") == 3 && CloseEnd("--*/") == 4 && CloseEnd("x--*/") == 5;
  }

  lemma HiddenLosesItsBlock()
    ensures RemoveBlocks(HIDDEN) == "--"
  {
    HiddenCloses();
    var t := "/*\nx--*/";
    assert t[2..] == "\nx--*/" && t[8..] == "" && RemoveBlocks(t) == "";
    assert ("-" + t)[1..] == t && HIDDEN[1..] == "-" + t;
  }

  lemma DashesAreOneCommentLine()
    ensures Lines("--") == ["--"] && CommentLine("--")
  {
    var two, one, none := "--", "-", "";
    assert two[1..] == one && one[1..] == none;
    assert Lines(none) == [none] && ['-'] + none == one && ['-'] + one == two;
    assert Lines(one) == [one] && Lines(two) == [two];
    assert Strip(two) == two;
  }

  lemma HiddenLooksLikeAComment()
    ensures IsCommentOnly(HIDDEN)
  {
    HiddenLosesItsBlock();
    DashesAreOneCommentLine();
  }

  lemma CleanPieceStays(s: string)
    requires s != "" && !IsSpace(s[0]) && !IsSpace(s[|s| - 1])
    ensures Cleaned([s]) == [s]
  {
    assert Strip(s) == s;
  }

  lemma CommentOnlyIsDropped(ss: seq<string>)
    requires |ss| == 1 && IsCommentOnly(ss[0])
    ensures WithCode(ss) == []
  {
    assert ss[1..] == [];
  }

  /** The filter drops a statement although it holds code: its scan for block comments does not know
      line comments. */
  lemma CodeBetweenCommentedMarkersIsDropped()
    ensures HasCode(Default, HIDDEN) && Statements(HIDDEN) == []
  {
    HiddenHasCode();
    HiddenIsOnePiece();
    HiddenLooksLikeAComment();
    CleanPieceStays(HIDDEN);
    CommentOnlyIsDropped([HIDDEN]);
  }

  // ---------------------------------------------------------------- and another

  /** Two dashes that only the removed block keeps from opening a comment. */
  const SPLICED := "-/**/-x"

  lemma SplicedReads()
    ensures HasCode(Default, SPLICED) && Fragments(Default, SPLICED) == [SPLICED]
  {
    ReadsOn(Default, "x", "", Default);
    ReadsOn(Default, "-", "x" + "", Default);
    ReadsOn(BlockComment, "*/", "-" + ("x" + ""), Default);
    ReadsOn(Default, "/*", "*/" + ("-" + ("x" + "")), BlockComment);
    ReadsOn(Default, "-", "/*" + ("*/" + ("-" + ("x" + ""))), Default);
    assert "-" + ("/*" + ("*/" + ("-" + ("x" + "")))) == SPLICED;
  }

  lemma SplicedLosesItsBlock()
    ensures RemoveBlocks(SPLICED) == "--x"
  {
    var x, dash, close, star := "x", "-x", "*/-x", "/**/-x";
    assert dash[1..] == x && x[1..] == "" && SPLICED[1..] == star && star[2..] == close && star[4..] == dash;
    assert RemoveBlocks(x) == x && RemoveBlocks(dash) == dash;
    assert CloseEnd(close) == 2 && RemoveBlocks(star) == dash;
    assert RemoveBlocks(SPLICED) == ['-'] + dash;
  }

  lemma SplicedLooksLikeAComment()
    ensures IsCommentOnly(SPLICED)
  {
    SplicedLosesItsBlock();
    var x, dash, left := "x", "-x", "--x";
    assert x[1..] == "" && dash[1..] == x && left[1..] == dash;
    assert Lines(x) == [x] && Lines(dash) == [dash] && Lines(left) == [left];
    assert Strip(left) == left && "--" <= left;
  }

  /** The filter also drops code that becomes a line comment once a block inside it is removed. */
  lemma CodeSplicedIntoACommentIsDropped()
    ensures HasCode(Default, SPLICED) && Statements(SPLICED) == []
  {
    SplicedReads();
    SplicedLooksLikeAComment();
    CleanPieceStays(SPLICED);
    CommentOnlyIsDropped([SPLICED]);
  }
}
