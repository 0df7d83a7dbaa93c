/** The tenant audit log: rows chained by digest, appended under a per-tenant lock. */
module AuditChain {
  import opened Ledger

  const SEP := '\U{1F}'

  type Tenant = string

  /** One event, every part already in its text form. */
  datatype Event = Event(
    org: Tenant,
    actorType: Option<string>,
    actorId: Option<string>,
    action: string,
    decision: string,
    detail: Option<string>,
    createdAt: string)

  const SUCCESS := "success"
  const FAILURE := "failure"

  /** The two values the schema can hold; the precise decision is stored beside the chain, not in it. */
  function ResultOf(e: Event): string {
    if e.decision == SUCCESS then SUCCESS else FAILURE
  }

  function OrEmpty(s: Option<string>): string {
    if s.Some? then s.value else ""
  }

  function Canonical(prev: Option<string>, e: Event): string {
    OrEmpty(prev) + ([SEP] + (e.org + ([SEP] + (OrEmpty(e.actorType) + ([SEP] + (OrEmpty(e.actorId) + ([SEP] +
    (e.action + ([SEP] + (ResultOf(e) + ([SEP] + (OrEmpty(e.detail) + ([SEP] + e.createdAt)))))))))))))
  }

  /** The parts one after the other, with a separator between any two. */
  function Joined(parts: seq<string>): string {
    if parts == [] then ""
    else if |parts| == 1 then parts[0]
    else parts[0] + ([SEP] + Joined(parts[1..]))
  }

  lemma JoinedInFront(first: string, rest: seq<string>)
    requires rest != []
    ensures Joined([first] + rest) == first + ([SEP] + Joined(rest))
  {
    assert ([first] + rest)[1..] == rest;
  }

  lemma FourJoined(a: string, b: string, c: string, d: string, rest: seq<string>)
    requires rest != []
    ensures Joined([a, b, c, d] + rest) ==
            a + ([SEP] + (b + ([SEP] + (c + ([SEP] + (d + ([SEP] + Joined(rest))))))))
  {
    JoinedInFront(d, rest);
    JoinedInFront(c, [d] + rest);
    JoinedInFront(b, [c] + ([d] + rest));
    JoinedInFront(a, [b] + ([c] + ([d] + rest)));
    assert [a] + ([b] + ([c] + ([d] + rest))) == [a, b, c, d] + rest;
  }

  lemma LastFourJoined(a: string, b: string, c: string, d: string)
    ensures Joined([a, b, c, d]) == a + ([SEP] + (b + ([SEP] + (c + ([SEP] + d)))))
  {
    JoinedInFront(c, [d]);
    JoinedInFront(b, [c, d]);
    JoinedInFront(a, [b, c, d]);
    assert [c] + [d] == [c, d] && [b] + [c, d] == [b, c, d] && [a] + [b, c, d] == [a, b, c, d];
  }

  lemma EightJoined(a: string, b: string, c: string, d: string, e: string, f: string, g: string, h: string)
    ensures Joined([a, b, c, d, e, f, g, h]) ==
            a + ([SEP] + (b + ([SEP] + (c + ([SEP] + (d + ([SEP] +
            (e + ([SEP] + (f + ([SEP] + (g + ([SEP] + h)))))))))))))
  {
    FourJoined(a, b, c, d, [e, f, g, h]);
    LastFourJoined(e, f, g, h);
    assert [a, b, c, d] + [e, f, g, h] == [a, b, c, d, e, f, g, h];
  }

  /** The digest is taken over eight parts, in this order, with the unit separator between them. */
  lemma CanonicalJoinsEightParts(prev: Option<string>, e: Event)
    ensures Canonical(prev, e) ==
            Joined([if prev.Some? then prev.value else "", e.org,
                    if e.actorType.Some? then e.actorType.value else "",
                    if e.actorId.Some? then e.actorId.value else "",
                    e.action, if e.decision == "success" then "success" else "failure",
                    if e.detail.Some? then e.detail.value else "", e.createdAt])
    ensures SEP as int == 31
  {
    EightJoined(OrEmpty(prev), e.org, OrEmpty(e.actorType), OrEmpty(e.actorId), e.action, ResultOf(e),
                OrEmpty(e.detail), e.createdAt);
  }

  datatype Entry = Entry(event: Event, prev: Option<string>, hash: string)

  // ---------------------------------------------------------------- reading fields back

  predicate Plain(s: string) { SEP !in s }

  lemma SplitAtFirst(a: string, rest: string, b: string, more: string)
    requires Plain(a) && Plain(b)
    requires a + ([SEP] + rest) == b + ([SEP] + more)
    ensures a == b && rest == more
  {
    var x, y := a + ([SEP] + rest), b + ([SEP] + more);
    assert forall i :: 0 <= i < |a| ==> x[i] == a[i];
    assert forall i :: 0 <= i < |b| ==> y[i] == b[i];
    assert x[|a|] == SEP && y[|b|] == SEP;
    assert a == x[..|a|] && b == y[..|b|];
    assert rest == x[|a| + 1..] && more == y[|b| + 1..];
  }

  lemma SplitAtLast(rest: string, a: string, more: string, b: string)
    requires Plain(a) && Plain(b)
    requires rest + ([SEP] + a) == more + ([SEP] + b)
    ensures a == b && rest == more
  {
    var x, y := rest + ([SEP] + a), more + ([SEP] + b);
    assert forall i :: |rest| < i < |x| ==> x[i] == a[i - |rest| - 1];
    assert forall i :: |more| < i < |y| ==> y[i] == b[i - |more| - 1];
    assert x[|rest|] == SEP && y[|more|] == SEP;
    assert rest == x[..|rest|] && more == y[..|more|];
    assert a == x[|rest| + 1..] && b == y[|more| + 1..];
  }

  /** The text up to the first separator. */
  function Piece(s: string): (piece: string)
    ensures Plain(piece) && piece <= s
  {
    if s == "" || s[0] == SEP then ""
    else
      assert s == [s[0]] + s[1..];
      [s[0]] + Piece(s[1..])
  }

  /** A separator of the action stands before what could be a result. */
  predicate MisreadAt(action: string, i: nat) {
    i < |action| && action[i] == SEP && Piece(action[i + 1..]) in {SUCCESS, FAILURE}
  }

  /** Some piece of the action after its first is a result. */
  predicate Misreadable(action: string) {
    exists i: nat :: i < |action| && MisreadAt(action, i)
  }

  /** Every field but the action and the free-text detail is free of the separator. */
  predicate Separable(e: Event) {
    Plain(e.org) && Plain(OrEmpty(e.actorType)) && Plain(OrEmpty(e.actorId)) && Plain(e.createdAt)
  }

  predicate Readable(e: Event) {
    Separable(e) && !Misreadable(e.action)
  }

  /** Equal in everything the digest covers: an absent field and an empty one are the same text. */
  predicate SameHashed(e: Event, f: Event) {
    && e.org == f.org && OrEmpty(e.actorType) == OrEmpty(f.actorType) && OrEmpty(e.actorId) == OrEmpty(f.actorId)
    && e.action == f.action && ResultOf(e) == ResultOf(f) && OrEmpty(e.detail) == OrEmpty(f.detail)
    && e.createdAt == f.createdAt
  }

  function From5(e: Event): string { ResultOf(e) + ([SEP] + (OrEmpty(e.detail) + ([SEP] + e.createdAt))) }
  function From3(e: Event): string { OrEmpty(e.actorId) + ([SEP] + (e.action + ([SEP] + From5(e)))) }
  function From1(e: Event): string { e.org + ([SEP] + (OrEmpty(e.actorType) + ([SEP] + From3(e)))) }

  /** The canonical form can be read back: whatever separators the detail holds, and the action too unless one stands
      before a result, it names one predecessor and one value of every field. */
  lemma CanonicalIsInjective(p: Option<string>, e: Event, q: Option<string>, f: Event)
    requires Plain(OrEmpty(p)) && Plain(OrEmpty(q)) && Readable(e) && Readable(f)
    requires Canonical(p, e) == Canonical(q, f)
    ensures OrEmpty(p) == OrEmpty(q) && SameHashed(e, f)
  {
    assert From1(e) == From1(f) by { SplitAtFirst(OrEmpty(p), From1(e), OrEmpty(q), From1(f)); }
    SplitAtFirst(OrEmpty(p), From1(e), OrEmpty(q), From1(f));
    HeadFields(e, f);
    SplitAction(e, f);
    TailFields(e, f);
  }

  lemma HeadFields(e: Event, f: Event)
    requires Separable(e) && Separable(f) && From1(e) == From1(f)
    ensures e.org == f.org && OrEmpty(e.actorType) == OrEmpty(f.actorType) && OrEmpty(e.actorId) == OrEmpty(f.actorId)
    ensures e.action + ([SEP] + From5(e)) == f.action + ([SEP] + From5(f))
  {
    SplitAtFirst(e.org, OrEmpty(e.actorType) + ([SEP] + From3(e)), f.org, OrEmpty(f.actorType) + ([SEP] + From3(f)));
    SplitAtFirst(OrEmpty(e.actorType), From3(e), OrEmpty(f.actorType), From3(f));
    SplitAtFirst(OrEmpty(e.actorId), e.action + ([SEP] + From5(e)), OrEmpty(f.actorId), f.action + ([SEP] + From5(f)));
  }

  lemma {:induction false} PieceStopsAtSeparator(s: string, more: string)
    ensures Piece(s + ([SEP] + more)) == Piece(s)
  {
    var whole := s + ([SEP] + more);
    if s == "" {
      assert whole[0] == SEP;
    } else if s[0] != SEP {
      assert whole[0] == s[0] && whole[1..] == s[1..] + ([SEP] + more);
      PieceStopsAtSeparator(s[1..], more);
    }
  }

  lemma {:induction false} PlainIsItsPiece(s: string)
    requires Plain(s)
    ensures Piece(s) == s
  {
    if s != "" {
      assert s[0] in s && s == [s[0]] + s[1..];
      PlainIsItsPiece(s[1..]);
    }
  }

  lemma ResultIsPlain(e: Event)
    ensures Plain(ResultOf(e)) && ResultOf(e) in {SUCCESS, FAILURE} && Piece(From5(e)) == ResultOf(e)
  {
    PlainIsItsPiece(ResultOf(e));
    PieceStopsAtSeparator(ResultOf(e), OrEmpty(e.detail) + ([SEP] + e.createdAt));
  }

  /** Were one action shorter, the other would show its result. */
  lemma ShorterActionIsMisread(e: Event, f: Event)
    requires e.action + ([SEP] + From5(e)) == f.action + ([SEP] + From5(f)) && |e.action| < |f.action|
    ensures MisreadAt(f.action, |e.action|)
  {
    var x, y, k := e.action + ([SEP] + From5(e)), f.action + ([SEP] + From5(f)), |e.action|;
    assert x[k] == SEP && y[k] == f.action[k];
    var rest := f.action[k + 1..];
    assert x[k + 1..] == From5(e) && y[k + 1..] == rest + ([SEP] + From5(f));
    PieceStopsAtSeparator(rest, From5(f));
    ResultIsPlain(e);
  }

  lemma SplitWhereBothDo(a: string, rest: string, b: string, more: string)
    requires a + ([SEP] + rest) == b + ([SEP] + more) && |a| == |b|
    ensures a == b && rest == more
  {
    var x, y := a + ([SEP] + rest), b + ([SEP] + more);
    assert a == x[..|a|] && b == y[..|b|];
    assert rest == x[|a| + 1..] && more == y[|b| + 1..];
  }

  lemma SplitAction(e: Event, f: Event)
    requires e.action + ([SEP] + From5(e)) == f.action + ([SEP] + From5(f))
    requires !Misreadable(e.action) && !Misreadable(f.action)
    ensures e.action == f.action && From5(e) == From5(f)
  {
    if |e.action| < |f.action| {
      ShorterActionIsMisread(e, f);
    } else if |f.action| < |e.action| {
      ShorterActionIsMisread(f, e);
    } else {
      SplitWhereBothDo(e.action, From5(e), f.action, From5(f));
    }
  }

  lemma TailFields(e: Event, f: Event)
    requires Plain(e.createdAt) && Plain(f.createdAt) && From5(e) == From5(f)
    ensures ResultOf(e) == ResultOf(f) && OrEmpty(e.detail) == OrEmpty(f.detail) && e.createdAt == f.createdAt
  {
    SplitAtFirst(ResultOf(e), OrEmpty(e.detail) + ([SEP] + e.createdAt),
                 ResultOf(f), OrEmpty(f.detail) + ([SEP] + f.createdAt));
    SplitAtLast(OrEmpty(e.detail), e.createdAt, OrEmpty(f.detail), f.createdAt);
  }

  // ---------------------------------------------------------------- exactly which actions are misread

  /** The first place where the action shows a result. */
  function FirstMisread(action: string, from: nat): (i: nat)
    requires exists i: nat :: from <= i < |action| && MisreadAt(action, i)
    ensures from <= i < |action| && MisreadAt(action, i)
    ensures forall j: nat :: from <= j < i ==> !MisreadAt(action, j)
    decreases |action| - from
  {
    if MisreadAt(action, from) then from else FirstMisread(action, from + 1)
  }

  lemma Regroup(a: string, b: string, c: string)
    ensures (a + b) + c == a + (b + c)
  {
  }

  lemma {:induction false} PieceAndTheRest(s: string, more: string) returns (rest: string)
    ensures s + ([SEP] + more) == Piece(s) + ([SEP] + rest)
  {
    if s == "" || s[0] == SEP {
      var whole := s + ([SEP] + more);
      rest := whole[1..];
      assert whole == [SEP] + rest && Piece(s) == "";
    } else {
      rest := PieceAndTheRest(s[1..], more);
      assert s == [s[0]] + s[1..];
      Regroup([s[0]], s[1..], [SEP] + more);
      Regroup([s[0]], Piece(s[1..]), [SEP] + rest);
    }
  }

  lemma PieceThenSeparator(s: string, more: string)
    ensures var whole, piece := s + ([SEP] + more), Piece(s);
            |piece| < |whole| && whole == piece + ([SEP] + whole[|piece| + 1..])
  {
    var rest := PieceAndTheRest(s, more);
    var whole, piece := s + ([SEP] + more), Piece(s);
    assert whole[|piece| + 1..] == rest;
  }

  /** The event read with its action ending before `after`: the result is the next piece, the detail takes the rest. */
  function Reread(e: Event, action: string, after: string): Event {
    PieceThenSeparator(after, ResultOf(e) + ([SEP] + OrEmpty(e.detail)));
    var rest := after + ([SEP] + (ResultOf(e) + ([SEP] + OrEmpty(e.detail))));
    e.(action := action, decision := Piece(after), detail := Some(rest[|Piece(after)| + 1..]))
  }

  /** The event whose action ends where this one's shows a result. */
  function Twin(e: Event): Event
    requires Misreadable(e.action)
  {
    var i := FirstMisread(e.action, 0);
    Reread(e, e.action[..i], e.action[i + 1..])
  }

  lemma CutKeepsPieces(action: string, i: nat, j: nat)
    requires j < i < |action| && action[i] == SEP
    ensures MisreadAt(action[..i], j) <==> MisreadAt(action, j)
  {
    assert action[..i][j + 1..] == action[j + 1..i];
    assert action[j + 1..] == action[j + 1..i] + ([SEP] + action[i + 1..]);
    PieceStopsAtSeparator(action[j + 1..i], action[i + 1..]);
  }

  /** Cut at its first misreading, an action can no longer be misread. */
  lemma CutActionIsReadable(action: string)
    requires Misreadable(action)
    ensures !Misreadable(action[..FirstMisread(action, 0)])
  {
    var i := FirstMisread(action, 0);
    forall j: nat | j < i ensures !MisreadAt(action[..i], j) {
      CutKeepsPieces(action, i, j);
    }
  }

  /** Moving what follows a separator of the action into what comes after it. */
  lemma TakeTheRest(action: string, i: nat, more: string, rest: string)
    requires i < |action| && action[i] == SEP && rest == action[i + 1..] + ([SEP] + more)
    ensures action[..i] + ([SEP] + rest) == action + ([SEP] + more)
  {
    var cut, after := action[..i], action[i + 1..];
    assert action == cut + ([SEP] + after);
    Regroup(cut, [SEP] + after, [SEP] + more);
    Regroup([SEP], after, [SEP] + more);
  }

  lemma SameTailSameForm(p: Option<string>, e: Event, f: Event)
    requires f.org == e.org && f.actorType == e.actorType && f.actorId == e.actorId
    requires f.action + ([SEP] + From5(f)) == e.action + ([SEP] + From5(e))
    ensures Canonical(p, f) == Canonical(p, e)
  {
    assert From3(f) == From3(e);
    assert Canonical(p, f) == OrEmpty(p) + ([SEP] + From1(f)) && Canonical(p, e) == OrEmpty(p) + ([SEP] + From1(e));
  }

  /** Two ways to read the same text before `tail`. */
  lemma ReadEitherWay(after: string, result: string, detail: string, result': string, detail': string, tail: string)
    requires after + ([SEP] + (result + ([SEP] + detail))) == result' + ([SEP] + detail')
    ensures result' + ([SEP] + (detail' + tail)) == after + ([SEP] + (result + ([SEP] + (detail + tail))))
  {
    Regroup(result', [SEP] + detail', tail);
    Regroup([SEP], detail', tail);
    Regroup(after, [SEP] + (result + ([SEP] + detail)), tail);
    Regroup([SEP], result + ([SEP] + detail), tail);
    Regroup(result, [SEP] + detail, tail);
    Regroup([SEP], detail, tail);
  }

  lemma RereadShowsAResult(e: Event, action: string, after: string)
    requires Piece(after) in {SUCCESS, FAILURE}
    ensures ResultOf(Reread(e, action, after)) == Piece(after)
  {
  }

  /** Read again, result and detail spell out what follows the misread separator. */
  lemma RereadTakesTheRest(e: Event, action: string, after: string, f: Event)
    requires f == Reread(e, action, after) && ResultOf(f) == Piece(after)
    ensures From5(f) == after + ([SEP] + From5(e))
  {
    PieceThenSeparator(after, ResultOf(e) + ([SEP] + OrEmpty(e.detail)));
    ReadEitherWay(after, ResultOf(e), OrEmpty(e.detail), ResultOf(f), OrEmpty(f.detail), [SEP] + e.createdAt);
  }

  lemma TwinSpellsTheSame(e: Event)
    requires Misreadable(e.action)
    ensures Twin(e).action + ([SEP] + From5(Twin(e))) == e.action + ([SEP] + From5(e))
  {
    var i := FirstMisread(e.action, 0);
    RereadShowsAResult(e, e.action[..i], e.action[i + 1..]);
    RereadTakesTheRest(e, e.action[..i], e.action[i + 1..], Twin(e));
    TakeTheRest(e.action, i, From5(e), From5(Twin(e)));
  }

  lemma TwinLooksTheSame(p: Option<string>, e: Event)
    requires Misreadable(e.action)
    ensures Canonical(p, Twin(e)) == Canonical(p, e)
    ensures |Twin(e).action| < |e.action|
    ensures Separable(e) ==> Readable(Twin(e))
  {
    TwinSpellsTheSame(e);
    SameTailSameForm(p, e, Twin(e));
    CutActionIsReadable(e.action);
  }

  /** An event shares its canonical form with a different, readable one exactly when its own action shows a result after
      a separator. */
  lemma MisreadExactly(p: Option<string>, e: Event)
    requires Plain(OrEmpty(p)) && Separable(e)
    ensures (exists f :: Readable(f) && Canonical(p, f) == Canonical(p, e) && !SameHashed(f, e)) <==>
            Misreadable(e.action)
  {
    if Misreadable(e.action) {
      TwinLooksTheSame(p, e);
      assert Readable(Twin(e)) && !SameHashed(Twin(e), e);
    } else {
      forall f | Readable(f) && Canonical(p, f) == Canonical(p, e) ensures SameHashed(f, e) {
        CanonicalIsInjective(p, f, p, e);
      }
    }
  }

  lemma ResultAfterASeparator(action: string, first: string, rest: string)
    requires action == first + ([SEP] + rest) && Piece(rest) in {SUCCESS, FAILURE}
    ensures Misreadable(action)
  {
    assert action[|first|] == SEP && action[|first| + 1..] == rest;
    assert MisreadAt(action, |first|);
  }

  /** For instance: a success at "x", or one at an action that goes on after it. */
  lemma SeparatorInActionMovesABoundary(p: Option<string>, e: Event)
    requires Plain(OrEmpty(p)) && Separable(e) && e.action == "x" + ([SEP] + (SUCCESS + ([SEP] + "y")))
    ensures Misreadable(e.action)
    ensures exists f :: Readable(f) && Canonical(p, f) == Canonical(p, e) && !SameHashed(f, e)
  {
    PieceStopsAtSeparator(SUCCESS, "y");
    PlainIsItsPiece(SUCCESS);
    ResultAfterASeparator(e.action, "x", SUCCESS + ([SEP] + "y"));
    MisreadExactly(p, e);
  }

  // ---------------------------------------------------------------- the chain

  /** A digest with no two preimages, written in a non-empty text without separators. */
  ghost predicate Sound(h: string -> string) {
    && (forall x, y :: h(x) == h(y) ==> x == y)
    && (forall x :: h(x) != "" && Plain(h(x)))
  }

  function Head(log: seq<Entry>): Option<string> {
    if log == [] then None else Some(log[|log| - 1].hash)
  }

  /** The row names the digest before it, and digests itself over that. */
  predicate LinkAt(h: string -> string, log: seq<Entry>, i: nat)
    requires i < |log|
  {
    log[i].prev == Head(log[..i]) && log[i].hash == h(Canonical(log[i].prev, log[i].event))
  }

  predicate Linked(h: string -> string, log: seq<Entry>) {
    forall i :: 0 <= i < |log| ==> LinkAt(h, log, i)
  }

  function Appended(h: string -> string, log: seq<Entry>, e: Event): seq<Entry> {
    log + [Entry(e, Head(log), h(Canonical(Head(log), e)))]
  }

  lemma AppendKeepsTheChain(h: string -> string, log: seq<Entry>, e: Event)
    requires Linked(h, log)
    ensures Linked(h, Appended(h, log, e))
  {
    var longer := Appended(h, log, e);
    forall i | 0 <= i < |longer| ensures LinkAt(h, longer, i) {
      assert longer[..i] == log[..i];
      assert log[..|log|] == log;
      assert i < |log| ==> LinkAt(h, log, i);
    }
  }

  predicate AllReadable(log: seq<Entry>) {
    forall i :: 0 <= i < |log| ==> Readable(log[i].event)
  }

  /** Row by row the same in all that is hashed. */
  predicate SameHistory(a: seq<Entry>, b: seq<Entry>) {
    && |a| == |b|
    && forall i :: 0 <= i < |a| ==>
         SameHashed(a[i].event, b[i].event) && a[i].prev == b[i].prev && a[i].hash == b[i].hash
  }

  lemma OneMoreRow(a: seq<Entry>, b: seq<Entry>, n: nat)
    requires |a| == n + 1 && |b| == n + 1 && SameHistory(a[..n], b[..n])
    requires SameHashed(a[n].event, b[n].event) && a[n].prev == b[n].prev && a[n].hash == b[n].hash
    ensures SameHistory(a, b)
  {
    assert forall i :: 0 <= i < n ==> a[..n][i] == a[i] && b[..n][i] == b[i];
  }

  /** Two chains that end in the same digest agree row by row, from the last back to the first: an edit, a
      removal or an insertion anywhere changes the head. */
  lemma {:induction false} HeadDeterminesHistory(h: string -> string, a: seq<Entry>, b: seq<Entry>)
    requires Sound(h) && Linked(h, a) && Linked(h, b) && AllReadable(a) && AllReadable(b)
    requires Head(a) == Head(b)
    ensures SameHistory(a, b)
  {
    if a != [] {
      var m, n := |a| - 1, |b| - 1;
      LastRowsAgree(h, a, b);
      PrefixIsLinked(h, a, m);
      PrefixIsLinked(h, b, n);
      HeadDeterminesHistory(h, a[..m], b[..n]);
      OneMoreRow(a, b, m);
    }
  }

  lemma LastRowsAgree(h: string -> string, a: seq<Entry>, b: seq<Entry>)
    requires Sound(h) && Linked(h, a) && Linked(h, b) && AllReadable(a) && AllReadable(b)
    requires a != [] && Head(a) == Head(b)
    ensures b != []
    ensures SameHashed(a[|a| - 1].event, b[|b| - 1].event)
    ensures a[|a| - 1].prev == b[|b| - 1].prev && a[|a| - 1].hash == b[|b| - 1].hash
    ensures Head(a[..|a| - 1]) == Head(b[..|b| - 1])
  {
    var x, y := a[|a| - 1], b[|b| - 1];
    LinksAreText(h, a, |a| - 1);
    LinksAreText(h, b, |b| - 1);
    assert h(Canonical(x.prev, x.event)) == h(Canonical(y.prev, y.event));
    assert Canonical(x.prev, x.event) == Canonical(y.prev, y.event);
    CanonicalIsInjective(x.prev, x.event, y.prev, y.event);
  }

  lemma LinksAreText(h: string -> string, log: seq<Entry>, i: nat)
    requires Sound(h) && Linked(h, log) && i < |log|
    ensures LinkAt(h, log, i) && Plain(OrEmpty(log[i].prev)) && (log[i].prev.Some? ==> log[i].prev.value != "")
  {
    if i > 0 {
      assert LinkAt(h, log, i - 1);
    }
  }

  lemma PrefixIsLinked(h: string -> string, log: seq<Entry>, n: nat)
    requires Linked(h, log) && n <= |log|
    ensures Linked(h, log[..n])
  {
    forall i | 0 <= i < n ensures LinkAt(h, log[..n], i) {
      assert LinkAt(h, log, i);
      assert log[..n][..i] == log[..i];
    }
  }

  // ---------------------------------------------------------------- what goes unseen

  /** The same rows with other events: every stored digest as it was. */
  predicate Edited(log: seq<Entry>, edited: seq<Entry>) {
    |edited| == |log| && forall i :: 0 <= i < |log| ==> edited[i] == log[i].(event := edited[i].event)
  }

  lemma EditsKeepHeads(log: seq<Entry>, edited: seq<Entry>, n: nat)
    requires Edited(log, edited) && n <= |log|
    ensures Head(edited[..n]) == Head(log[..n])
  {
    assert n > 0 ==> edited[n - 1] == log[n - 1].(event := edited[n - 1].event);
  }

  /** Rewriting events in place goes unseen exactly when no hashed field of any row changes. */
  lemma EditsGoUnseenExactly(h: string -> string, log: seq<Entry>, edited: seq<Entry>)
    requires Sound(h) && Linked(h, log) && AllReadable(log) && AllReadable(edited) && Edited(log, edited)
    ensures Linked(h, edited) <==> forall i :: 0 <= i < |log| ==> SameHashed(log[i].event, edited[i].event)
  {
    forall i | 0 <= i < |log|
      ensures LinkAt(h, edited, i) <==> SameHashed(log[i].event, edited[i].event)
    {
      LinksAreText(h, log, i);
      EditsKeepHeads(log, edited, i);
      assert edited[i] == log[i].(event := edited[i].event);
      var prev, e, f := log[i].prev, log[i].event, edited[i].event;
      if h(Canonical(prev, e)) == h(Canonical(prev, f)) {
        CanonicalIsInjective(prev, e, prev, f);
      }
    }
  }

  /** Of a failure's row that is the precise reason and nothing else: the chain holds only that it failed. */
  lemma RejectionReasonIsNotChained(h: string -> string, log: seq<Entry>, i: nat, reason: string)
    requires Linked(h, log) && i < |log|
    requires log[i].event.decision != SUCCESS && reason != SUCCESS
    ensures var edited := log[i := log[i].(event := log[i].event.(decision := reason))];
            Linked(h, edited) && Head(edited) == Head(log)
  {
    var edited := log[i := log[i].(event := log[i].event.(decision := reason))];
    assert log[..|log|] == log && edited[..|edited|] == edited;
    EditsKeepHeads(log, edited, |log|);
    forall j | 0 <= j < |edited| ensures LinkAt(h, edited, j) {
      assert LinkAt(h, log, j);
      EditsKeepHeads(log, edited, j);
    }
  }

  /** A chain can be told from every other readable chain by its head exactly when its own actions are readable: any
      row that is not has a twin that keeps every digest. */
  lemma HeadTellsExactly(h: string -> string, log: seq<Entry>)
    requires Sound(h) && Linked(h, log) && forall i :: 0 <= i < |log| ==> Separable(log[i].event)
    ensures (forall other ::
               Linked(h, other) && AllReadable(other) && Head(other) == Head(log) ==> SameRows(log, other))
            <==> AllReadable(log)
  {
    if AllReadable(log) {
      forall other | Linked(h, other) && AllReadable(other) && Head(other) == Head(log) ensures SameRows(log, other) {
        HeadDeterminesHistory(h, log, other);
      }
    } else {
      var other := Twins(log);
      TwinsAreAChain(h, log);
      var i :| 0 <= i < |log| && !Readable(log[i].event);
      TwinLooksTheSame(log[i].prev, log[i].event);
      assert !SameRows(log, other) by {
        assert other[i].event.action != log[i].event.action;
      }
    }
  }

  predicate SameRows(a: seq<Entry>, b: seq<Entry>) {
    |a| == |b| && forall i :: 0 <= i < |a| ==> SameHashed(a[i].event, b[i].event)
  }

  /** Every misreadable row replaced by its twin. */
  function Twins(log: seq<Entry>): seq<Entry> {
    seq(|log|, i requires 0 <= i < |log| =>
      if Misreadable(log[i].event.action) then log[i].(event := Twin(log[i].event)) else log[i])
  }

  lemma TwinsAreAChain(h: string -> string, log: seq<Entry>)
    requires Linked(h, log) && forall i :: 0 <= i < |log| ==> Separable(log[i].event)
    ensures Linked(h, Twins(log)) && AllReadable(Twins(log)) && Head(Twins(log)) == Head(log)
  {
    var other := Twins(log);
    assert Edited(log, other);
    assert log[..|log|] == log && other[..|other|] == other;
    EditsKeepHeads(log, other, |log|);
    forall i | 0 <= i < |other| ensures LinkAt(h, other, i) && Readable(other[i].event) {
      assert LinkAt(h, log, i) && Separable(log[i].event);
      EditsKeepHeads(log, other, i);
      if Misreadable(log[i].event.action) {
        TwinLooksTheSame(log[i].prev, log[i].event);
      }
    }
  }

  // ---------------------------------------------------------------- one appender at a time

  function LogOf(logs: map<Tenant, seq<Entry>>, org: Tenant): seq<Entry> {
    if org in logs then logs[org] else []
  }

  function HeadOf(heads: map<Tenant, string>, org: Tenant): Option<string> {
    if org in heads then Some(heads[org]) else None
  }

  datatype Recorded = Unattributed | Written | SinkUnavailable

  class SqlAuthAuditSink {
    const hash: string -> string
    var logs: map<Tenant, seq<Entry>>
    var heads: map<Tenant, string>

    ghost predicate Valid()
      reads this
    {
      forall org :: HeadOf(heads, org) == Head(LogOf(logs, org)) && Linked(hash, LogOf(logs, org))
    }

    constructor (hash: string -> string)
      ensures Valid() && this.hash == hash && logs == map[]
    {
      this.hash := hash;
      logs, heads := map[], map[];
    }

    /** Append one event to its tenant's chain; an event with no proven tenant is not this sink's to keep. */
    method Record(up: bool, org: Option<Tenant>, event: Event) returns (r: Recorded)
      requires Valid()
      modifies this
      ensures Valid()
      ensures r == if org.None? then Unattributed else if up then Written else SinkUnavailable
      ensures r.Written? ==>
                LogOf(logs, org.value) == Appended(hash, LogOf(old(logs), org.value), event.(org := org.value))
      ensures forall o :: !(r.Written? && org == Some(o)) ==> LogOf(logs, o) == LogOf(old(logs), o)
    {
      if org.None? { return Unattributed; }
      if !up { return SinkUnavailable; }
      var row := event.(org := org.value);
      var prev := HeadOf(heads, row.org);
      var entryHash := hash(Canonical(prev, row));
      AppendKeepsTheChain(hash, LogOf(logs, row.org), row);
      logs := logs[row.org := LogOf(logs, row.org) + [Entry(row, prev, entryHash)]];
      heads := heads[row.org := entryHash];
      assert LogOf(logs, row.org) == Appended(hash, LogOf(old(logs), row.org), row);
      forall o ensures HeadOf(heads, o) == Head(LogOf(logs, o)) && Linked(hash, LogOf(logs, o)) {
        if o != row.org {
          assert HeadOf(heads, o) == HeadOf(old(heads), o) && LogOf(logs, o) == LogOf(old(logs), o);
        }
      }
      return Written;
    }
  }
}
