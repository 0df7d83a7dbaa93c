/** What the splitter takes for one token, told in the text itself: plain text, quoted literals, dollar-quoted bodies
    and comments, each read as one whatever follows it. */
module SqlQuoting {
  import opened SqlLexer
  import opened SqlSplitter
  import opened SqlComments

  /** From `st`, reading `x` before `b` cuts nothing and leads to `next`. */
  ghost predicate Passes(st: State, x: string, b: string, next: State)
    requires Sound(st) && Sound(next)
  {
    && Fragments(st, x + b) == Prepend(x, Fragments(next, b))
    && EndState(st, x + b) == EndState(next, b)
  }

  lemma PassesNothing(st: State, b: string)
    requires Sound(st)
    ensures Passes(st, "", b, st)
  {
    assert "" + b == b;
    assert "" + Fragments(st, b)[0] == Fragments(st, b)[0];
  }

  /** One step of the lexer. */
  lemma PassesOne(st: State, x: string, b: string, next: State)
    requires Sound(st) && Sound(next) && x != "" && !Cuts(st, x + b) && Step(st, x + b) == (|x|, next)
    ensures Passes(st, x, b, next)
  {
    assert (x + b)[|x|..] == b && (x + b)[..|x|] == x;
  }

  lemma Regroup(a: string, b: string, c: string)
    ensures a + (b + c) == (a + b) + c
  {
  }

  lemma PrependTwice(a: string, b: string, fs: seq<string>)
    requires fs != []
    ensures Prepend(a, Prepend(b, fs)) == Prepend(a + b, fs)
  {
    Regroup(a, b, fs[0]);
  }

  lemma PassesThen(st: State, x: string, mid: State, y: string, next: State, b: string)
    requires Sound(st) && Sound(mid) && Sound(next) && Passes(st, x, y + b, mid) && Passes(mid, y, b, next)
    ensures Passes(st, x + y, b, next)
  {
    Regroup(x, y, b);
    PrependTwice(x, y, Fragments(next, b));
  }

  // ---------------------------------------------------------------- plain text

  /** No quote, dollar, dash, slash or semicolon. */
  predicate IsPlain(s: string) {
    forall i :: 0 <= i < |s| ==> s[i] !in {'\'', '$', '-', '/', ';'}
  }

  lemma {:induction false} PlainPasses(a: string, b: string)
    requires IsPlain(a)
    ensures Passes(Default, a, b, Default)
  {
    if a == "" {
      PassesNothing(Default, b);
    } else {
      var first, rest := a[..1], a[1..];
      assert a == first + rest && a[0] == first[0] && (first + (rest + b))[0] == a[0];
      PassesOne(Default, first, rest + b, Default);
      PlainPasses(rest, b);
      PassesThen(Default, first, Default, rest, Default, b);
    }
  }

  /** A dash, slash or dollar that what follows does not make the beginning of a comment or a dollar tag. */
  predicate StandsAlone(c: char, b: string) {
    || (c == '-' && (b == "" || b[0] != '-'))
    || (c == '/' && (b == "" || b[0] != '*'))
    || (c == '$' && (b == "" || !('A' <= b[0] <= 'Z' || 'a' <= b[0] <= 'z' || b[0] == '_' || b[0] == '$')))
  }

  lemma LonePasses(c: char, b: string)
    requires StandsAlone(c, b)
    ensures Passes(Default, [c], b, Default)
  {
    var s := [c] + b;
    assert s[0] == c && s[1..] == b && (b != "" ==> s[1] == b[0]);
    PassesOne(Default, [c], b, Default);
  }

  // ---------------------------------------------------------------- dollar quotes

  /** A name as a dollar tag may hold one: a letter or underscore, then those and digits. */
  predicate IsName(s: string) {
    && s != ""
    && ('A' <= s[0] <= 'Z' || 'a' <= s[0] <= 'z' || s[0] == '_')
    && forall i :: 0 <= i < |s| ==>
         'A' <= s[i] <= 'Z' || 'a' <= s[i] <= 'z' || s[i] == '_' || '0' <= s[i] <= '9'
  }

  ghost predicate IsTag(tag: string) {
    tag == "$$" || exists name :: IsName(name) && tag == "$" + (name + "$")
  }

  lemma {:induction false} NameReadsToTheDollar(name: string, b: string)
    requires forall i :: 0 <= i < |name| ==>
               'A' <= name[i] <= 'Z' || 'a' <= name[i] <= 'z' || name[i] == '_' || '0' <= name[i] <= '9'
    ensures IdentLength(name + ("$" + b)) == |name|
  {
    if name == "" {
      assert ("" + ("$" + b))[0] == '$';
    } else {
      assert (name + ("$" + b))[1..] == name[1..] + ("$" + b);
      NameReadsToTheDollar(name[1..], b);
    }
  }

  lemma NamedTagLength(name: string, b: string)
    requires IsName(name)
    ensures TagLength("$" + (name + ("$" + b))) == |name| + 2
  {
    var s := "$" + (name + ("$" + b));
    assert s[1..] == name + ("$" + b) && s[1] == name[0] && s[1 + |name|] == '$';
    NameReadsToTheDollar(name, b);
  }

  lemma TagsAreMeasured(tag: string, b: string)
    requires IsTag(tag)
    ensures TagLength(tag + b) == |tag| && tag[0] == '$' && Sound(Dollar(tag))
  {
    if tag == "$$" {
      assert (tag + b)[1] == '$';
    } else {
      var name :| IsName(name) && tag == "$" + (name + "$");
      assert tag + b == "$" + (name + ("$" + b));
      NamedTagLength(name, b);
    }
  }

  lemma TagsAreRead(tag: string, b: string)
    requires IsTag(tag)
    ensures Sound(Dollar(tag)) && Step(Default, tag + b) == (|tag|, Dollar(tag)) && !Cuts(Default, tag + b)
  {
    TagsAreMeasured(tag, b);
    assert (tag + b)[..|tag|] == tag && (tag + b)[0] == '$';
  }

  /** `t` begins nowhere in `body` when `t` itself follows it. */
  predicate ClosesFirst(body: string, t: string) {
    forall i :: 0 <= i < |body| ==> !(t <= (body + t)[i..])
  }

  lemma ClosesFirstStill(body: string, t: string)
    requires body != "" && ClosesFirst(body, t)
    ensures ClosesFirst(body[1..], t)
  {
    forall i | 0 <= i < |body| - 1 ensures !(t <= (body[1..] + t)[i..]) {
      assert (body[1..] + t)[i..] == (body + t)[i + 1..];
    }
  }

  lemma OpensEarly(body: string, t: string, b: string)
    requires body != "" && ClosesFirst(body, t)
    ensures !(t <= body + (t + b))
  {
    var s := body + (t + b);
    assert (body + t)[0..] == body + t && s[..|t|] == (body + t)[..|t|];
  }

  lemma {:induction false} DollarBodyPasses(tag: string, body: string, b: string)
    requires Sound(Dollar(tag)) && ClosesFirst(body, tag)
    ensures Passes(Dollar(tag), body + tag, b, Default)
  {
    if body == "" {
      assert body + tag == tag && (tag + b)[..|tag|] == tag;
      PassesOne(Dollar(tag), tag, b, Default);
    } else {
      var first, rest := body[..1], body[1..];
      assert first + (rest + tag) == body + tag;
      assert first + ((rest + tag) + b) == body + (tag + b);
      OpensEarly(body, tag, b);
      PassesOne(Dollar(tag), first, (rest + tag) + b, Dollar(tag));
      ClosesFirstStill(body, tag);
      DollarBodyPasses(tag, rest, b);
      PassesThen(Dollar(tag), first, Dollar(tag), rest + tag, Default, b);
    }
  }

  /** A dollar tag, any text in which it does not come again, and the tag: one token. */
  lemma DollarQuotesPass(tag: string, body: string, b: string)
    requires IsTag(tag) && ClosesFirst(body, tag)
    ensures Passes(Default, tag + (body + tag), b, Default)
  {
    TagsAreRead(tag, (body + tag) + b);
    PassesOne(Default, tag, (body + tag) + b, Dollar(tag));
    DollarBodyPasses(tag, body, b);
    PassesThen(Default, tag, Dollar(tag), body + tag, Default, b);
  }

  // ---------------------------------------------------------------- quoted literals

  /** The text with every quote doubled. */
  function Escaped(text: string): string {
    if text == "" then ""
    else (if text[0] == '\'' then "''" else [text[0]]) + Escaped(text[1..])
  }

  lemma {:induction false} QuotedBodyPasses(text: string, b: string)
    requires b != "" ==> b[0] != '\''
    ensures Passes(Quoted, Escaped(text) + "'", b, Default)
  {
    if text == "" {
      assert Escaped(text) + "'" == "'";
      PassesOne(Quoted, "'", b, Default);
    } else {
      var first, rest := if text[0] == '\'' then "''" else [text[0]], Escaped(text[1..]);
      assert first + (rest + "'") == Escaped(text) + "'";
      var s := first + ((rest + "'") + b);
      assert s[0] == first[0] && (|first| > 1 ==> s[1] == first[1]);
      PassesOne(Quoted, first, (rest + "'") + b, Quoted);
      QuotedBodyPasses(text[1..], b);
      PassesThen(Quoted, first, Quoted, rest + "'", Default, b);
    }
  }

  /** A quote, any text with its quotes doubled, and a quote that no further one follows: one token. */
  lemma LiteralsPass(text: string, b: string)
    requires b != "" ==> b[0] != '\''
    ensures Passes(Default, "'" + (Escaped(text) + "'"), b, Default)
  {
    var rest := (Escaped(text) + "'") + b;
    assert ("'" + rest)[0] == '\'';
    PassesOne(Default, "'", rest, Quoted);
    QuotedBodyPasses(text, b);
    PassesThen(Default, "'", Quoted, Escaped(text) + "'", Default, b);
  }

  // ---------------------------------------------------------------- comments

  lemma {:induction false} LineBodyPasses(text: string, b: string)
    requires '\n' !in text
    ensures Passes(LineComment, text + "\n", b, Default)
  {
    if text == "" {
      assert text + "\n" == "\n";
      PassesOne(LineComment, "\n", b, Default);
    } else {
      var first, rest := text[..1], text[1..];
      assert first + (rest + "\n") == text + "\n" && first[0] == text[0];
      assert (first + ((rest + "\n") + b))[0] == text[0];
      PassesOne(LineComment, first, (rest + "\n") + b, LineComment);
      LineBodyPasses(rest, b);
      PassesThen(LineComment, first, LineComment, rest + "\n", Default, b);
    }
  }

  /** Two dashes and everything up to the end of the line: one token. */
  lemma LineCommentsPass(text: string, b: string)
    requires '\n' !in text
    ensures Passes(Default, "--" + (text + "\n"), b, Default)
  {
    var rest := (text + "\n") + b;
    assert ("--" + rest)[0] == '-' && ("--" + rest)[1] == '-';
    PassesOne(Default, "--", rest, LineComment);
    LineBodyPasses(text, b);
    PassesThen(Default, "--", LineComment, text + "\n", Default, b);
  }

  lemma {:induction false} BlockBodyPasses(text: string, b: string)
    requires ClosesFirst(text, "*/")
    ensures Passes(BlockComment, text + "*/", b, Default)
  {
    if text == "" {
      assert text + "*/" == "*/" && ("*/" + b)[0] == '*' && ("*/" + b)[1] == '/';
      PassesOne(BlockComment, "*/", b, Default);
    } else {
      var first, rest := text[..1], text[1..];
      assert first + (rest + "*/") == text + "*/";
      assert first + ((rest + "*/") + b) == text + ("*/" + b);
      OpensEarly(text, "*/", b);
      PassesOne(BlockComment, first, (rest + "*/") + b, BlockComment);
      ClosesFirstStill(text, "*/");
      BlockBodyPasses(rest, b);
      PassesThen(BlockComment, first, BlockComment, rest + "*/", Default, b);
    }
  }

  /** A block comment up to its first close: one token. */
  lemma BlockCommentsPass(text: string, b: string)
    requires ClosesFirst(text, "*/")
    ensures Passes(Default, "/*" + (text + "*/"), b, Default)
  {
    var rest := (text + "*/") + b;
    assert ("/*" + rest)[0] == '/' && ("/*" + rest)[1] == '*';
    PassesOne(Default, "/*", rest, BlockComment);
    BlockBodyPasses(text, b);
    PassesThen(Default, "/*", BlockComment, text + "*/", Default, b);
  }

  // ---------------------------------------------------------------- scripts made of tokens

  datatype Token =
    | Text(text: string)
    | Lone(c: char)
    | Literal(text: string)
    | DollarQuoted(tag: string, body: string)
    | LineNote(text: string)
    | BlockNote(text: string)

  function Written(t: Token): string {
    match t
    case Text(text) => text
    case Lone(c) => [c]
    case Literal(text) => "'" + (Escaped(text) + "'")
    case DollarQuoted(tag, body) => tag + (body + tag)
    case LineNote(text) => "--" + (text + "\n")
    case BlockNote(text) => "/*" + (text + "*/")
  }

  ghost predicate Proper(t: Token) {
    match t
    case Text(text) => IsPlain(text)
    case Lone(c) => c in {'-', '/', '$'}
    case Literal(_) => true
    case DollarQuoted(tag, body) => IsTag(tag) && ClosesFirst(body, tag)
    case LineNote(text) => '\n' !in text
    case BlockNote(text) => ClosesFirst(text, "*/")
  }

  function Spelled(ts: seq<Token>): string {
    if ts == [] then "" else Written(ts[0]) + Spelled(ts[1..])
  }

  /** What follows does not run into the token. */
  predicate Ends(t: Token, rest: string) {
    && (t.Literal? ==> rest == "" || rest[0] != '\'')
    && (t.Lone? ==> StandsAlone(t.c, rest))
  }

  /** Proper tokens, none of which what follows it runs into, up to and including `b`. */
  ghost predicate Legible(ts: seq<Token>, b: string) {
    ts == [] || (Proper(ts[0]) && Ends(ts[0], Spelled(ts[1..]) + b) && Legible(ts[1..], b))
  }

  lemma TokenPasses(t: Token, b: string)
    requires Proper(t) && Ends(t, b)
    ensures Passes(Default, Written(t), b, Default)
  {
    match t
    case Text(text) => PlainPasses(text, b);
    case Lone(c) => LonePasses(c, b);
    case Literal(text) => LiteralsPass(text, b);
    case DollarQuoted(tag, body) => DollarQuotesPass(tag, body, b);
    case LineNote(text) => LineCommentsPass(text, b);
    case BlockNote(text) => BlockCommentsPass(text, b);
  }

  lemma {:induction false} TokensPass(ts: seq<Token>, b: string)
    requires Legible(ts, b)
    ensures Passes(Default, Spelled(ts), b, Default)
  {
    if ts == [] {
      PassesNothing(Default, b);
    } else {
      TokenPasses(ts[0], Spelled(ts[1..]) + b);
      TokensPass(ts[1..], b);
      PassesThen(Default, Written(ts[0]), Default, Spelled(ts[1..]), Default, b);
    }
  }

  /** Whatever tokens a piece is made of, semicolons within literals, dollar quotes and comments included, it is read as
      one piece and leaves nothing open. */
  lemma TokensAreOnePiece(ts: seq<Token>)
    requires Legible(ts, "")
    ensures Closed(Spelled(ts))
  {
    TokensPass(ts, "");
    assert Spelled(ts) + "" == Spelled(ts);
  }

  // ---------------------------------------------------------------- and their statements

  lemma {:induction false} TrimStartSkips(lead: string, s: string)
    requires (forall i :: 0 <= i < |lead| ==> IsSpace(lead[i])) && (s != "" ==> !IsSpace(s[0]))
    ensures TrimStart(lead + s) == s
  {
    if lead == "" {
      assert lead + s == s;
    } else {
      assert (lead + s)[1..] == lead[1..] + s;
      TrimStartSkips(lead[1..], s);
    }
  }

  lemma {:induction false} TrimEndSkips(s: string, trail: string)
    requires (forall i :: 0 <= i < |trail| ==> IsSpace(trail[i])) && (s != "" ==> !IsSpace(s[|s| - 1]))
    ensures TrimEnd(s + trail) == s
  {
    if trail == "" {
      assert s + trail == s;
    } else {
      var n := |trail| - 1;
      assert (s + trail)[..|s| + n] == s + trail[..n];
      TrimEndSkips(s, trail[..n]);
    }
  }

  /** Stripping takes the whitespace around a text and nothing of the text. */
  lemma StripTakesTheMargins(lead: string, s: string, trail: string)
    requires forall i :: 0 <= i < |lead| ==> IsSpace(lead[i])
    requires forall i :: 0 <= i < |trail| ==> IsSpace(trail[i])
    requires s != "" && !IsSpace(s[0]) && !IsSpace(s[|s| - 1])
    ensures Strip(lead + (s + trail)) == s
  {
    TrimStartSkips(lead, s + trail);
    TrimEndSkips(s, trail);
  }

  /** Blank, tab and line ends are whitespace; no other character of ASCII that prints is. */
  lemma WhitespaceInAscii(c: char)
    ensures c in {' ', '\t', '\n', '\r'} ==> IsSpace(c)
    ensures 33 <= c as int <= 126 ==> !IsSpace(c)
  {
  }

  /** A statement that begins with neither whitespace nor a dash nor a slash is never taken for a comment. */
  lemma CodeInFrontIsKept(x: string)
    requires x != "" && !IsSpace(x[0]) && x[0] != '-' && x[0] != '/'
    ensures !IsCommentOnly(x)
  {
    var r := RemoveBlocks(x);
    RemoveBlocksReads(x);
    FirstLineIsPrefix(r);
    LinesAfter(r);
    var line := Lines(r)[0];
    assert line in Lines(r) && line[0] == x[0];
    if CommentLine(line) {
      CommentLineOpens(line);
    }
  }

  /** The statements of a script: what its pieces say between their margins. */
  lemma {:induction false} PiecesAreStatements(ps: seq<string>, xs: seq<string>)
    requires |ps| == |xs| && forall i :: 0 <= i < |ps| ==> xs[i] != "" && Strip(ps[i]) == xs[i] && !IsCommentOnly(xs[i])
    ensures WithCode(Cleaned(ps)) == xs
  {
    if ps != [] {
      PiecesAreStatements(ps[1..], xs[1..]);
      assert Cleaned(ps) == [xs[0]] + Cleaned(ps[1..]);
      assert ([xs[0]] + Cleaned(ps[1..]))[1..] == Cleaned(ps[1..]);
      assert [xs[0]] + xs[1..] == xs;
    }
  }

  /** Statements spelled out of tokens, with any margins, put one after the other with a semicolon after each, are what
      the splitter returns, as long as each begins with code. */
  lemma SpelledStatementsComeBack(ts: seq<seq<Token>>, xs: seq<string>)
    requires |ts| == |xs|
    requires forall i :: 0 <= i < |ts| ==> Legible(ts[i], "") && Strip(Spelled(ts[i])) == xs[i] && StartsWithCode(xs[i])
    ensures Statements(Join(Pieces(ts) + [""], ";")) == xs
  {
    var ps := Pieces(ts);
    forall i | 0 <= i < |ps| ensures Closed(ps[i]) && xs[i] != "" && Strip(ps[i]) == xs[i] && !IsCommentOnly(xs[i]) {
      assert Legible(ts[i], "");
      TokensAreOnePiece(ts[i]);
      CodeInFrontIsKept(xs[i]);
    }
    CutIsUnique(ps + [""], Join(ps + [""], ";"), Default);
    CleanedAppends(ps, [""]);
    assert Cleaned([""]) == [] && Cleaned(ps) + [] == Cleaned(ps);
    PiecesAreStatements(ps, xs);
  }

  predicate StartsWithCode(x: string) { x != "" && !IsSpace(x[0]) && x[0] != '-' && x[0] != '/' }

  function Pieces(ts: seq<seq<Token>>): seq<string> {
    seq(|ts|, i requires 0 <= i < |ts| => Spelled(ts[i]))
  }

  // ---------------------------------------------------------------- what is code, and what is dropped

  predicate IsBlank(s: string) { forall i :: 0 <= i < |s| ==> IsSpace(s[i]) }

  predicate IsCodeToken(t: Token) {
    match t
    case Text(text) => !IsBlank(text)
    case Lone(_) => true
    case Literal(_) => true
    case DollarQuoted(_, _) => true
    case LineNote(_) => false
    case BlockNote(_) => false
  }

  lemma {:induction false} CodeInText(text: string, b: string)
    requires IsPlain(text)
    ensures HasCode(Default, text + b) <==> !IsBlank(text) || HasCode(Default, b)
  {
    if text == "" {
      assert text + b == b;
    } else {
      var s := text + b;
      assert s[0] == text[0] && s[1..] == text[1..] + b;
      CodeInText(text[1..], b);
      if IsSpace(s[0]) {
        BlankStartReadsOn(s);
        assert IsBlank(text) <==> IsBlank(text[1..]) by {
          assert forall i :: 0 < i < |text| ==> text[i] == text[1..][i - 1];
        }
      }
    }
  }

  lemma ClosingIsAPrefix(s: string)
    ensures Opens(s, '*', '/') <==> "*/" <= s
  {
    assert |s| >= 2 ==> s[..2] == [s[0], s[1]];
  }

  lemma {:induction false} ClosesAt(text: string, b: string)
    requires ClosesFirst(text, "*/")
    ensures CloseEnd(text + ("*/" + b)) == |text| + 2
  {
    var s := text + ("*/" + b);
    if text == "" {
      assert s == "*/" + b && s[0] == '*' && s[1] == '/';
    } else {
      ClosesFirstStill(text, "*/");
      ClosesAt(text[1..], b);
      assert s[1..] == text[1..] + ("*/" + b);
      OpensEarly(text, "*/", b);
      ClosingIsAPrefix(s);
    }
  }

  lemma CodeInNote(text: string, b: string)
    requires '\n' !in text
    ensures HasCode(Default, "--" + (text + ("\n" + b))) <==> HasCode(Default, b)
  {
    var rest := text + ("\n" + b);
    assert rest[..|text|] == text && rest[|text|..] == "\n" + b && ("\n" + b)[1..] == b;
    OpenComment(rest);
    LineCommentReadsOn(rest, |text|);
  }

  lemma OpenBlock(s: string)
    ensures HasCode(Default, "/*" + s) <==> HasCode(BlockComment, s)
  {
    assert ("/*" + s)[2..] == s && ("/*" + s)[..2] == "/*";
  }

  lemma CodeInBlock(text: string, b: string)
    requires ClosesFirst(text, "*/")
    ensures HasCode(Default, "/*" + (text + ("*/" + b))) <==> HasCode(Default, b)
  {
    var rest := text + ("*/" + b);
    assert rest[|text| + 2..] == b;
    OpenBlock(rest);
    ClosesAt(text, b);
    BlockReadsToItsClose(rest);
  }

  lemma QuotesAreCode(s: string)
    requires s != "" && (s[0] == '\'' || s[0] == '$')
    ensures HasCode(Default, s)
  {
  }

  lemma NoteThen(t: Token, b: string)
    requires t.LineNote? || t.BlockNote?
    ensures Written(t) + b ==
            if t.LineNote? then "--" + (t.text + ("\n" + b)) else "/*" + (t.text + ("*/" + b))
  {
  }

  lemma LoneIsCode(c: char, b: string)
    requires StandsAlone(c, b)
    ensures HasCode(Default, [c] + b)
  {
    var s := [c] + b;
    assert s[0] == c && (b != "" ==> s[1] == b[0]);
  }

  lemma CodeInToken(t: Token, b: string)
    requires Proper(t) && Ends(t, b)
    ensures HasCode(Default, Written(t) + b) <==> IsCodeToken(t) || HasCode(Default, b)
  {
    match t
    case Text(text) => CodeInText(text, b);
    case Lone(c) => LoneIsCode(c, b);
    case Literal(text) => QuotesAreCode(Written(t) + b);
    case DollarQuoted(tag, body) =>
      assert tag[0] == '$';
      QuotesAreCode(Written(t) + b);
    case LineNote(text) =>
      NoteThen(t, b);
      CodeInNote(text, b);
    case BlockNote(text) =>
      NoteThen(t, b);
      CodeInBlock(text, b);
  }

  /** A piece holds code exactly if one of its tokens is a literal, a dollar quote, a lone dash, slash or
      dollar, or text that is not all blank. */
  lemma {:induction false} CodeIsInTheTokens(ts: seq<Token>)
    requires Legible(ts, "")
    ensures HasCode(Default, Spelled(ts)) <==> exists i :: 0 <= i < |ts| && IsCodeToken(ts[i])
  {
    if ts != [] {
      assert Spelled(ts[1..]) + "" == Spelled(ts[1..]);
      CodeInToken(ts[0], Spelled(ts[1..]));
      CodeIsInTheTokens(ts[1..]);
      assert forall i :: 0 < i < |ts| ==> ts[i] == ts[1..][i - 1];
    }
  }

  /** A block comment alone is dropped. */
  lemma BlockNotesAreDropped(text: string)
    requires ClosesFirst(text, "*/")
    ensures IsCommentOnly("/*" + (text + "*/"))
  {
    var s := "/*" + (text + "*/");
    ClosesAt(text, "");
    assert text + ("*/" + "") == text + "*/" && s[2..] == text + "*/" && s[|s|..] == "";
    assert Removed(s) == |s|;
    RemoveBlocksReads(s);
    assert RemoveBlocks(s) == "";
  }

  /** Line feed, vertical tab, form feed, return, three of the information separators, and the line ends beyond
      ASCII. */
  const LINE_ENDS := {'\n', '\U{B}', '\U{C}', '\r', '\U{1C}', '\U{1D}', '\U{1E}', '\U{85}', '\U{2028}', '\U{2029}'}

  /** A line ends at the first of them, whichever it is, and at nothing else. */
  lemma {:induction false} LinesEndAt(line: string, end: char, more: string)
    requires end in LINE_ENDS && forall i :: 0 <= i < |line| ==> line[i] !in LINE_ENDS
    ensures Lines(line + ([end] + more)) == [line] + Lines(more)
  {
    var s := line + ([end] + more);
    if line == "" {
      assert s == [end] + more && s[1..] == more;
    } else {
      assert s[1..] == line[1..] + ([end] + more) && s[0] == line[0];
      LinesEndAt(line[1..], end, more);
      assert [line[0]] + line[1..] == line;
    }
  }

  predicate OneLine(s: string) {
    forall i :: 0 <= i < |s| ==> !IsLineBreak(s[i])
  }

  predicate OpensNoBlock(s: string) {
    forall i :: 0 <= i < |s| - 1 ==> !(s[i] == '/' && s[i + 1] == '*')
  }

  lemma {:induction false} NothingToRemove(s: string)
    requires OpensNoBlock(s)
    ensures RemoveBlocks(s) == s
  {
    if s != "" {
      assert OpensNoBlock(s[1..]) by {
        forall i | 0 <= i < |s| - 2 ensures !(s[1..][i] == '/' && s[1..][i + 1] == '*') {
          var next := i + 1;
          assert !(s[next] == '/' && s[next + 1] == '*');
        }
      }
      NothingToRemove(s[1..]);
    }
  }

  lemma {:induction false} LinesOfOne(line: string, more: string)
    requires OneLine(line)
    ensures Lines(line) == [line] && Lines(line + ("\n" + more)) == [line] + Lines(more)
  {
    var s := line + ("\n" + more);
    if line == "" {
      assert s == "\n" + more && s[1..] == more;
    } else {
      assert s[1..] == line[1..] + ("\n" + more) && s[0] == line[0];
      LinesOfOne(line[1..], more);
      assert [line[0]] + line[1..] == line;
    }
  }

  lemma {:induction false} LinesComeBack(ls: seq<string>)
    requires ls != [] && forall i :: 0 <= i < |ls| ==> OneLine(ls[i])
    ensures Lines(Join(ls, "\n")) == ls
  {
    if |ls| == 1 {
      LinesOfOne(ls[0], "");
    } else {
      LinesComeBack(ls[1..]);
      LinesOfOne(ls[0], Join(ls[1..], "\n"));
    }
  }

  /** A line that is blank, or a comment after its blanks. */
  predicate IsNote(line: string) {
    exists n :: 0 <= n <= |line| && IsBlank(line[..n]) && (n == |line| || "--" <= line[n..])
  }

  function Margin(s: string): (n: nat)
    ensures n <= |s| && IsBlank(s[..n]) && (n < |s| ==> !IsSpace(s[n]))
  {
    if s == "" || !IsSpace(s[0]) then 0
    else
      var n := Margin(s[1..]);
      assert s[..n + 1] == [s[0]] + s[1..][..n];
      n + 1
  }

  lemma {:induction false} OnlyOneMargin(s: string, n: nat)
    requires n <= |s| && IsBlank(s[..n]) && (n < |s| ==> !IsSpace(s[n]))
    ensures n == Margin(s)
  {
    if n > 0 {
      assert s[..n][0] == s[0] && s[1..][..n - 1] == s[..n][1..];
      OnlyOneMargin(s[1..], n - 1);
    }
  }

  lemma NotesStartAtTheMargin(line: string)
    ensures IsNote(line) <==> Margin(line) == |line| || "--" <= line[Margin(line)..]
  {
    if IsNote(line) {
      var n :| 0 <= n <= |line| && IsBlank(line[..n]) && (n == |line| || "--" <= line[n..]);
      assert n < |line| ==> line[n..][0] == line[n];
      OnlyOneMargin(line, n);
    }
  }

  lemma NotesAreCommentLines(line: string)
    ensures IsNote(line) <==> CommentLine(line)
  {
    var lead := Margin(line);
    var s := line[lead..];
    TrimStartSkips(line[..lead], s);
    assert line[..lead] + s == line;
    TrimEndIsPrefix(s);
    TrimEndKeepsDashes(s);
    NotesStartAtTheMargin(line);
  }

  lemma {:induction false} TrimEndKeepsDashes(s: string)
    ensures "--" <= TrimEnd(s) <==> "--" <= s
  {
    if s != "" && IsSpace(s[|s| - 1]) {
      TrimEndKeepsDashes(s[..|s| - 1]);
      if "--" <= s {
        assert s[1] == '-' && !IsSpace('-') && |s| > 2;
      }
    }
  }

  /** Without block comments a piece is dropped exactly if every line is blank or a comment. */
  lemma LinesDecide(ls: seq<string>)
    requires ls != [] && (forall i :: 0 <= i < |ls| ==> OneLine(ls[i])) && OpensNoBlock(Join(ls, "\n"))
    ensures IsCommentOnly(Join(ls, "\n")) <==> forall i :: 0 <= i < |ls| ==> IsNote(ls[i])
  {
    NothingToRemove(Join(ls, "\n"));
    LinesComeBack(ls);
    forall i | 0 <= i < |ls| ensures IsNote(ls[i]) <==> CommentLine(ls[i]) {
      NotesAreCommentLines(ls[i]);
    }
  }
}
