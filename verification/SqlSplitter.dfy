/** The splitter itself: the index loop over flags and a buffer, and what its statements are. */
module SqlSplitter {
  import opened SqlLexer

  // ---------------------------------------------------------------- stripping

  /** The whitespace `strip` removes. */
  predicate IsSpace(c: char) {
    var n := c as int;
    9 <= n <= 13 || 28 <= n <= 32 || n == 0x85 || n == 0xA0 || n == 0x1680 || 0x2000 <= n <= 0x200A ||
    n == 0x2028 || n == 0x2029 || n == 0x202F || n == 0x205F || n == 0x3000
  }

  function TrimStart(s: string): string {
    if s != "" && IsSpace(s[0]) then TrimStart(s[1..]) else s
  }

  function TrimEnd(s: string): string {
    if s != "" && IsSpace(s[|s| - 1]) then TrimEnd(s[..|s| - 1]) else s
  }

  function Strip(s: string): string {
    TrimEnd(TrimStart(s))
  }

  // ---------------------------------------------------------------- the comment-only scan

  /** Where the first block comment close ends, counted from the start of `s`. */
  function CloseEnd(s: string): (n: nat)
    ensures n <= |s|
  {
    if |s| < 2 then 0
    else if Opens(s, '*', '/') then 2
    else
      var n := CloseEnd(s[1..]);
      if n == 0 then 0 else n + 1
  }

  /** Remove every block comment opener up to the next close, wherever it stands. */
  function RemoveBlocks(s: string): string
    decreases |s|
  {
    if s == "" then ""
    else if Opens(s, '/', '*') && CloseEnd(s[2..]) > 0 then RemoveBlocks(s[2 + CloseEnd(s[2..])..])
    else [s[0]] + RemoveBlocks(s[1..])
  }

  predicate IsLineBreak(c: char) {
    var n := c as int;
    10 <= n <= 13 || 28 <= n <= 30 || n == 0x85 || n == 0x2028 || n == 0x2029
  }

  /** The lines of a string; a carriage return and line feed pair leaves an empty line between. */
  function Lines(s: string): (ls: seq<string>)
    ensures ls != []
  {
    if s == "" then [""]
    else if IsLineBreak(s[0]) then [""] + Lines(s[1..])
    else Prepend([s[0]], Lines(s[1..]))
  }

  predicate CommentLine(line: string) {
    Strip(line) == "" || "--" <= Strip(line)
  }

  predicate IsCommentOnly(statement: string) {
    forall line :: line in Lines(RemoveBlocks(statement)) ==> CommentLine(line)
  }

  // ---------------------------------------------------------------- what the splitter returns

  /** The pieces stripped, empty ones dropped. */
  function Cleaned(fs: seq<string>): seq<string> {
    if fs == [] then []
    else (if Strip(fs[0]) == "" then [] else [Strip(fs[0])]) + Cleaned(fs[1..])
  }

  function WithCode(ss: seq<string>): seq<string> {
    if ss == [] then []
    else (if IsCommentOnly(ss[0]) then [] else [ss[0]]) + WithCode(ss[1..])
  }

  function Statements(script: string): seq<string> {
    WithCode(Cleaned(Fragments(Default, script)))
  }

  lemma {:induction false} CleanedAppends(a: seq<string>, b: seq<string>)
    ensures Cleaned(a + b) == Cleaned(a) + Cleaned(b)
  {
    if a == [] {
      assert a + b == b;
    } else {
      assert (a + b)[1..] == a[1..] + b;
      CleanedAppends(a[1..], b);
    }
  }

  // ---------------------------------------------------------------- the loop

  /** The lexical state the splitter's flags stand for. */
  function Flags(inLine: bool, inBlock: bool, tag: string, inQuote: bool): State {
    if inLine then LineComment
    else if inBlock then BlockComment
    else if tag != "" then Dollar(tag)
    else if inQuote then Quoted
    else Default
  }

  /** The buffer is the beginning of the piece being read; what has been cut is already cleaned. */
  predicate Progress(whole: seq<string>, statements: seq<string>, buffer: string, st: State, rest: string)
    requires Sound(st)
  {
    whole == statements + Cleaned(Prepend(buffer, Fragments(st, rest)))
  }

  /** Before the loop nothing is read; `whole` is what cleaning all pieces will give. */
  lemma NothingReadYet(script: string) returns (whole: seq<string>)
    ensures Progress(whole, [], "", Default, script)
    ensures WithCode(whole) == Statements(script)
  {
    whole := Cleaned(Fragments(Default, script));
    PrependNothing(Fragments(Default, script));
  }

  lemma BufferGrows(whole: seq<string>, statements: seq<string>, buffer: string, st: State, rest: string)
    requires Sound(st) && rest != "" && !Cuts(st, rest) && Progress(whole, statements, buffer, st, rest)
    ensures var (n, next) := Step(st, rest);
            1 <= n <= |rest| && Sound(next) && Progress(whole, statements, buffer + rest[..n], next, rest[n..])
  {
    StepIsSound(st, rest);
    var (n, next) := Step(st, rest);
    var fs := Fragments(next, rest[n..]);
    assert buffer + (rest[..n] + fs[0]) == (buffer + rest[..n]) + fs[0];
  }

  /** What cutting adds to the statements. */
  function WithPiece(statements: seq<string>, buffer: string): seq<string> {
    if Strip(buffer) == "" then statements else statements + [Strip(buffer)]
  }

  lemma BufferCut(whole: seq<string>, statements: seq<string>, buffer: string, st: State, rest: string)
    requires Sound(st) && Cuts(st, rest) && Progress(whole, statements, buffer, st, rest)
    ensures Progress(whole, WithPiece(statements, buffer), "", Default, rest[1..])
  {
    var fs := Fragments(Default, rest[1..]);
    assert buffer + "" == buffer;
    assert Prepend(buffer, Fragments(st, rest)) == [buffer] + fs;
    CleanedAppends([buffer], fs);
    PrependNothing(fs);
  }

  /** At most one flag is up. */
  predicate OneFlag(inLine: bool, inBlock: bool, tag: string, inQuote: bool) {
    && (inLine ==> !inBlock && tag == "" && !inQuote)
    && (inBlock ==> tag == "" && !inQuote)
    && (tag != "" ==> !inQuote)
  }

  /** The flags after the next token of the rest, and how many characters it takes. */
  method ReadToken(rest: string, inLine: bool, inBlock: bool, tag: string, inQuote: bool)
    returns (n: nat, inLine': bool, inBlock': bool, tag': string, inQuote': bool)
    requires rest != "" && OneFlag(inLine, inBlock, tag, inQuote)
    requires Sound(Flags(inLine, inBlock, tag, inQuote))
    ensures (n, Flags(inLine', inBlock', tag', inQuote')) == Step(Flags(inLine, inBlock, tag, inQuote), rest)
    ensures OneFlag(inLine', inBlock', tag', inQuote')
  {
    n, inLine', inBlock', tag', inQuote' := 1, inLine, inBlock, tag, inQuote;
    var c := rest[0];
    if inLine {
      if c == '\n' {
        inLine' := false;
      }
    } else if inBlock {
      if Opens(rest, '*', '/') {
        inBlock' := false;
        n := 2;
      }
    } else if tag != "" {
      if tag <= rest {
        n := |tag|;
        tag' := "";
      }
    } else if inQuote {
      if c == '\'' {
        if Opens(rest, '\'', '\'') {
          n := 2;
        } else {
          inQuote' := false;
        }
      }
    } else if Opens(rest, '-', '-') {
      inLine' := true;
      n := 2;
    } else if Opens(rest, '/', '*') {
      inBlock' := true;
      n := 2;
    } else if c == '\'' {
      inQuote' := true;
    } else if TagLength(rest) > 0 {
      tag' := rest[..TagLength(rest)];
      n := |tag'|;
    }
  }

  /** Cut at a top-level semicolon: the piece, stripped, becomes a statement unless it is empty. */
  method CutBuffer(rest: string, buffer: string, statements: seq<string>, ghost whole: seq<string>)
    returns (statements': seq<string>)
    requires Cuts(Default, rest) && Progress(whole, statements, buffer, Default, rest)
    ensures Progress(whole, statements', "", Default, rest[1..])
  {
    BufferCut(whole, statements, buffer, Default, rest);
    var statement := Strip(buffer);
    statements' := if statement != "" then statements + [statement] else statements;
  }

  /** One turn of the loop: cut at a top-level semicolon, or read one token into the buffer. */
  method Turn(rest: string, statements: seq<string>, buffer: string, inLine: bool, inBlock: bool, tag: string,
              inQuote: bool, ghost whole: seq<string>)
    returns (n: nat, statements': seq<string>, buffer': string, inLine': bool, inBlock': bool, tag': string,
             inQuote': bool)
    requires rest != "" && OneFlag(inLine, inBlock, tag, inQuote) && Sound(Flags(inLine, inBlock, tag, inQuote))
    requires Progress(whole, statements, buffer, Flags(inLine, inBlock, tag, inQuote), rest)
    ensures 1 <= n <= |rest|
    ensures OneFlag(inLine', inBlock', tag', inQuote') && Sound(Flags(inLine', inBlock', tag', inQuote'))
    ensures Progress(whole, statements', buffer', Flags(inLine', inBlock', tag', inQuote'), rest[n..])
  {
    n, statements', buffer', inLine', inBlock', tag', inQuote' := 1, statements, "", inLine, inBlock, tag, inQuote;
    if !inLine && !inBlock && tag == "" && !inQuote && rest[0] == ';' {
      statements' := CutBuffer(rest, buffer, statements, whole);
    } else {
      BufferGrows(whole, statements, buffer, Flags(inLine, inBlock, tag, inQuote), rest);
      n, inLine', inBlock', tag', inQuote' := ReadToken(rest, inLine, inBlock, tag, inQuote);
      buffer' := buffer + rest[..n];
    }
  }

  lemma DropsAdd(s: string, i: nat, n: nat)
    requires i + n <= |s|
    ensures s[i..][n..] == s[i + n..]
  {
  }

  /** Split a script on its top-level semicolons. */
  method SplitSqlStatements(script: string) returns (result: seq<string>)
    ensures result == Statements(script)
  {
    var statements: seq<string> := [];
    var buffer := "";
    var i := 0;
    var inQuote, inLine, inBlock := false, false, false;
    var tag := "";
    var rest := script;
    ghost var whole := NothingReadYet(script);
    while i < |script|
      invariant 0 <= i <= |script| && rest == script[i..]
      invariant OneFlag(inLine, inBlock, tag, inQuote) && Sound(Flags(inLine, inBlock, tag, inQuote))
      invariant Progress(whole, statements, buffer, Flags(inLine, inBlock, tag, inQuote), rest)
      decreases |script| - i
    {
      var n: nat;
      n, statements, buffer, inLine, inBlock, tag, inQuote :=
        Turn(rest, statements, buffer, inLine, inBlock, tag, inQuote, whole);
      DropsAdd(script, i, n);
      rest, i := rest[n..], i + n;
    }
    BufferEnds(whole, statements, buffer, Flags(inLine, inBlock, tag, inQuote));
    var last := Strip(buffer);
    if last != "" {
      statements := statements + [last];
    }
    result := DropCommentOnly(statements);
  }

  lemma BufferEnds(whole: seq<string>, statements: seq<string>, buffer: string, st: State)
    requires Sound(st) && Progress(whole, statements, buffer, st, "")
    ensures whole == WithPiece(statements, buffer)
  {
    assert Prepend(buffer, [""]) == [buffer] by {
      assert buffer + "" == buffer;
    }
    assert Fragments(st, "") == [""];
    assert [buffer][1..] == [];
    assert Cleaned([buffer]) == if Strip(buffer) == "" then [] else [Strip(buffer)];
  }

  lemma PrependNothing(fs: seq<string>)
    requires fs != []
    ensures Prepend("", fs) == fs
  {
    assert "" + fs[0] == fs[0];
  }

  lemma {:induction false} WithCodeAppends(ss: seq<string>, s: string)
    ensures WithCode(ss + [s]) == WithCode(ss) + if IsCommentOnly(s) then [] else [s]
  {
    if ss == [] {
      assert [s][1..] == [];
    } else {
      assert (ss + [s])[1..] == ss[1..] + [s];
      WithCodeAppends(ss[1..], s);
    }
  }

  method DropCommentOnly(ss: seq<string>) returns (kept: seq<string>)
    ensures kept == WithCode(ss)
  {
    kept := [];
    for k := 0 to |ss|
      invariant kept == WithCode(ss[..k])
    {
      WithCodeAppends(ss[..k], ss[k]);
      assert ss[..k + 1] == ss[..k] + [ss[k]];
      if !IsCommentOnly(ss[k]) {
        kept := kept + [ss[k]];
      }
    }
    assert ss[..|ss|] == ss;
  }
}
