/**
 * Recovery of comments and module strings between the literals a parser reports, and the queries on
 * the result (pkg/jsanalysis/analyzer.go). Text is a sequence of bytes.
 */
module GapScan {
  import opened Prelude
  import opened Analyses

  predicate StartsWith(s: string, i: nat, p: string) {
    i + |p| <= |s| && s[i..i + |p|] == p
  }

  /** A line terminator starts here: CR, LF, or one of the separators U+2028 and U+2029 in UTF-8. */
  predicate LineBreak(s: string, i: nat) {
    && i < |s|
    && (s[i] == '\r' || s[i] == '\n'
        || (i + 2 < |s| && s[i] as int == 0xE2 && s[i + 1] as int == 0x80
            && (s[i + 2] as int == 0xA8 || s[i + 2] as int == 0xA9)))
  }

  /** Where the line ends. */
  function LineEnd(s: string, i: nat): (r: nat)
    requires i <= |s|
    ensures i <= r <= |s| && (forall j :: i <= j < r ==> !LineBreak(s, j)) && (r < |s| ==> LineBreak(s, r))
    decreases |s| - i
  {
    if i == |s| || LineBreak(s, i) then i else LineEnd(s, i + 1)
  }

  /** Just past the first comment end from `i` on. */
  function CommentEnd(s: string, i: nat): (r: Option<nat>)
    ensures r.Some? ==> i + 2 <= r.value <= |s|
    decreases if i < |s| then |s| - i else 0
  {
    if i >= |s| then None
    else if StartsWith(s, i, "*/") then Some(i + 2)
    else CommentEnd(s, i + 1)
  }

  /** Just past the closing quote; a backslash protects the next byte. */
  function StringEnd(s: string, i: nat, quote: char): (r: Option<nat>)
    ensures r.Some? ==> i < r.value <= |s|
    decreases if i < |s| then |s| - i else 0
  {
    if i >= |s| then None
    else if s[i] == '\\' then StringEnd(s, i + 2, quote)
    else if s[i] == quote then Some(i + 1)
    else StringEnd(s, i + 1, quote)
  }

  /** What starts at a position outside all literals. */
  datatype Piece = Plain | Recovered(span: Span) | Broken(problem: string)

  /** The text, how it is parsed, and whether only white space precedes a position on its line. */
  datatype Script = Script(source: string, mode: SourceMode, atLineStart: nat -> bool) {
    predicate LineComment(i: nat) {
      || StartsWith(source, i, "//")
      || (i == 0 && StartsWith(source, 0, "#!"))
      || (!mode.ModuleMode? && (StartsWith(source, i, "<!--") || (StartsWith(source, i, "-->") && atLineStart(i))))
    }

    function PieceAt(i: nat): (p: Piece)
      requires i < |source|
      ensures p.Recovered? ==> p.span.start == i < p.span.end <= |source|
    {
      if LineComment(i) then
        LineCommentEnds(i);
        Recovered(Span(i, LineEnd(source, i), Comment, "//"))
      else if StartsWith(source, i, "/*") then
        match CommentEnd(source, i + 2)
        case None => Broken("unterminated JavaScript comment")
        case Some(end) => Recovered(Span(i, end, Comment, "/*"))
      else if mode.ModuleMode? && (source[i] == '\'' || source[i] == '"') then
        match StringEnd(source, i + 1, source[i])
        case None => Broken("JavaScript string span could not be resolved")
        case Some(end) => Recovered(Span(i, end, StringLit, [source[i]]))
      else Plain
    }

    lemma LineCommentEnds(i: nat)
      requires i < |source| && LineComment(i)
      ensures LineEnd(source, i) > i
    {
      if StartsWith(source, i, "//") {
        assert source[i..i + 2][0] == source[i] == '/';
      } else if i == 0 && StartsWith(source, 0, "#!") {
        assert source[0..2][0] == source[0] == '#';
      } else if StartsWith(source, i, "<!--") {
        assert source[i..i + 4][0] == source[i] == '<';
      } else {
        assert source[i..i + 3][0] == source[i] == '-';
      }
    }
  }

  // ---------------------------------------------------------------------------------------------
  // Comments and strings as they stand in the text
  // ---------------------------------------------------------------------------------------------

  /** The two bytes stand at a position. */
  predicate Pair(s: string, i: nat, a: char, b: char) {
    i + 1 < |s| && s[i] == a && s[i + 1] == b
  }

  /**
   * A line comment opens: `//`, `#!` at the very beginning, and outside modules the HTML-like comments
   * `<!--` and, at the start of a line, `-->`.
   */
  predicate LineOpens(c: Script, i: nat) {
    || Pair(c.source, i, '/', '/')
    || (i == 0 && Pair(c.source, 0, '#', '!'))
    || (c.mode != ModuleMode && Pair(c.source, i, '<', '!') && Pair(c.source, i + 2, '-', '-'))
    || (c.mode != ModuleMode && Pair(c.source, i, '-', '-') && Pair(c.source, i + 1, '-', '>') && c.atLineStart(i))
  }

  predicate BlockOpens(c: Script, i: nat) {
    Pair(c.source, i, '/', '*')
  }

  /** In modules strings are recovered from the text. */
  predicate StringOpens(c: Script, i: nat) {
    c.mode == ModuleMode && i < |c.source| && (c.source[i] == '\'' || c.source[i] == '"')
  }

  /** Carriage return, line feed, or U+2028 or U+2029 in UTF-8. */
  predicate Breaks(s: string, i: nat) {
    && i < |s|
    && (s[i] == '\r' || s[i] == '\n'
        || (Pair(s, i, 0xE2 as char, 0x80 as char) && i + 2 < |s| && s[i + 2] in {0xA8 as char, 0xA9 as char}))
  }

  /** The number of backslashes directly before a position, not counting those before `from`. */
  function Backslashes(s: string, from: nat, i: nat): nat
    requires i <= |s|
  {
    if i > from && s[i - 1] == '\\' then Backslashes(s, from, i - 1) + 1 else 0
  }

  /** The quote stands at a position, not protected by a backslash, in a string whose text begins at `from`. */
  predicate Closes(s: string, from: nat, i: nat, quote: char) {
    i < |s| && s[i] == quote && Backslashes(s, from, i) % 2 == 0
  }

  /** The string whose text begins at `from` is not closed anywhere from `lo` to `hi`. */
  ghost predicate NoneCloses(s: string, from: nat, lo: nat, hi: nat, quote: char) {
    forall i: nat :: lo <= i < hi ==> !Closes(s, from, i, quote)
  }

  /** No comment ends anywhere from `lo` to `hi`. */
  ghost predicate NoneEnds(s: string, lo: nat, hi: nat) {
    forall i: nat :: lo <= i < hi ==> !Pair(s, i, '*', '/')
  }

  /** From its opening to the end of the line. */
  ghost predicate IsLineComment(c: Script, s: Span) {
    && s.kind == Comment && s.quote == "//" && 0 <= s.start < s.end <= |c.source| && LineOpens(c, s.start)
    && (forall i: nat :: s.start <= i < s.end ==> !Breaks(c.source, i))
    && (s.end < |c.source| ==> Breaks(c.source, s.end))
  }

  /** From its opening to the first end of a comment after it. */
  ghost predicate IsBlockComment(c: Script, s: Span) {
    && s.kind == Comment && s.quote == "/*" && 0 <= s.start && s.start + 4 <= s.end <= |c.source|
        && BlockOpens(c, s.start)
    && Pair(c.source, s.end - 2, '*', '/') && NoneEnds(c.source, s.start + 2, s.end - 2)
  }

  /** From its opening quote to the first unprotected quote of the same kind. */
  ghost predicate IsString(c: Script, s: Span) {
    && s.kind == StringLit && 0 <= s.start && s.start + 2 <= s.end <= |c.source| && StringOpens(c, s.start)
    && s.quote == [c.source[s.start]]
    && Closes(c.source, s.start + 1, s.end - 1, c.source[s.start])
    && NoneCloses(c.source, s.start + 1, s.start + 1, s.end - 1, c.source[s.start])
  }

  ghost predicate Genuine(c: Script, s: Span) {
    IsLineComment(c, s) || IsBlockComment(c, s) || IsString(c, s)
  }

  /** A comment or a string opens that never ends. */
  ghost predicate NeverEnds(c: Script, i: nat, problem: string) {
    || (problem == "unterminated JavaScript comment" && BlockOpens(c, i)
        && NoneEnds(c.source, i + 2, |c.source|))
    || (problem == "JavaScript string span could not be resolved" && StringOpens(c, i)
        && NoneCloses(c.source, i + 1, i + 1, |c.source|, c.source[i]))
  }

  /** A text of two to four bytes stands at a position when its pairs do. */
  lemma TextAt(s: string, i: nat, p: string)
    requires 2 <= |p| <= 4
    ensures StartsWith(s, i, p) <==> Pair(s, i, p[0], p[1]) && Pair(s, i + |p| - 2, p[|p| - 2], p[|p| - 1])
  {
    if i + |p| <= |s| {
      var text := s[i..i + |p|];
      assert text[0] == s[i] && text[1] == s[i + 1] && text[|p| - 2] == s[i + |p| - 2]
          && text[|p| - 1] == s[i + |p| - 1];
      if Pair(s, i, p[0], p[1]) && Pair(s, i + |p| - 2, p[|p| - 2], p[|p| - 1]) {
        assert s[i..i + |p|] == p;
      }
    }
  }

  lemma OpeningText(c: Script, i: nat)
    requires i < |c.source|
    ensures c.LineComment(i) <==> LineOpens(c, i)
    ensures StartsWith(c.source, i, "/*") <==> BlockOpens(c, i)
  {
    hide StartsWith; hide Pair;
    TextAt(c.source, i, "//");
    TextAt(c.source, i, "/*");
    TextAt(c.source, 0, "#!");
    TextAt(c.source, i, "<!--");
    TextAt(c.source, i, "-->");
  }

  lemma BreakText(s: string, i: nat)
    ensures LineBreak(s, i) <==> Breaks(s, i)
  {
  }

  lemma {:induction false} FirstCommentEnd(s: string, i: nat)
    ensures CommentEnd(s, i).Some? ==>
            var e := CommentEnd(s, i).value; Pair(s, e - 2, '*', '/') && NoneEnds(s, i, e - 2)
    ensures CommentEnd(s, i).None? ==> NoneEnds(s, i, |s|)
    decreases if i < |s| then |s| - i else 0
  {
    TextAt(s, i, "*/");
    if i < |s| && !StartsWith(s, i, "*/") {
      FirstCommentEnd(s, i + 1);
    }
  }

  /** The scan for a closing quote stands only at positions that no backslash protects. */
  lemma {:induction false} FirstClosingQuote(s: string, from: nat, i: nat, quote: char)
    requires from <= i && quote != '\\' && (i <= |s| ==> Backslashes(s, from, i) % 2 == 0)
    ensures StringEnd(s, i, quote).Some? ==>
            var e := StringEnd(s, i, quote).value; Closes(s, from, e - 1, quote) && NoneCloses(s, from, i, e - 1, quote)
    ensures StringEnd(s, i, quote).None? ==> NoneCloses(s, from, i, |s|, quote)
    decreases if i < |s| then |s| - i else 0
  {
    if i < |s| {
      if s[i] == '\\' {
        assert i + 1 <= |s| ==> Backslashes(s, from, i + 1) == Backslashes(s, from, i) + 1;
        FirstClosingQuote(s, from, i + 2, quote);
      } else if s[i] != quote {
        FirstClosingQuote(s, from, i + 1, quote);
      }
    }
  }

  /** What is found at a position is what stands there. */
  lemma PieceTells(c: Script, i: nat)
    requires i < |c.source|
    ensures c.PieceAt(i).Plain? ==> !LineOpens(c, i) && !BlockOpens(c, i) && !StringOpens(c, i)
    ensures c.PieceAt(i).Recovered? ==> Genuine(c, c.PieceAt(i).span)
    ensures c.PieceAt(i).Broken? ==> NeverEnds(c, i, c.PieceAt(i).problem)
  {
    hide StartsWith; hide LineBreak; hide Breaks; hide LineEnd; hide CommentEnd; hide StringEnd; hide Closes;
    OpeningText(c, i);
    if c.LineComment(i) {
      c.LineCommentEnds(i);
      var span := c.PieceAt(i).span;
      forall j: nat | i <= j <= span.end ensures LineBreak(c.source, j) <==> Breaks(c.source, j) {
        BreakText(c.source, j);
      }
      assert IsLineComment(c, span);
    } else if StartsWith(c.source, i, "/*") {
      FirstCommentEnd(c.source, i + 2);
    } else if StringOpens(c, i) {
      FirstClosingQuote(c.source, i + 1, i + 1, c.source[i]);
    }
  }

  predicate Covers(l: Span, i: int) {
    l.start <= i < l.end
  }

  /** The first literal that covers a position. */
  function FirstCover(literals: seq<Span>, i: nat): (r: Option<Span>)
    ensures r.Some? ==> r.value in literals && Covers(r.value, i)
    ensures r.None? ==> forall l :: l in literals ==> !Covers(l, i)
  {
    if literals == [] then None
    else if Covers(literals[0], i) then Some(literals[0])
    else FirstCover(literals[1..], i)
  }

  predicate SortedByStart(spans: seq<Span>) {
    forall j, k :: 0 <= j < k < |spans| ==> spans[j].start <= spans[k].start
  }

  /** The spans recovered from position `i` on: literals are jumped over, everything else is looked at. */
  function Scan(c: Script, literals: seq<Span>, i: nat): Result<seq<Span>, string>
    decreases if i < |c.source| then |c.source| - i else 0
  {
    if i >= |c.source| then Ok([])
    else
      match FirstCover(literals, i)
      case Some(l) => Scan(c, literals, l.end)
      case None =>
        match c.PieceAt(i)
        case Plain => Scan(c, literals, i + 1)
        case Broken(problem) => Err(problem)
        case Recovered(span) =>
          match Scan(c, literals, span.end)
          case Err(problem) => Err(problem)
          case Ok(rest) => Ok([span] + rest)
  }

  // ---------------------------------------------------------------------------------------------
  // What the scan recovers
  // ---------------------------------------------------------------------------------------------

  predicate Disjoint(a: Span, b: Span) {
    a.end <= b.start || b.end <= a.start
  }

  /** Nonempty, in bounds, one after the other, and starting outside all literals. */
  ghost predicate InGaps(c: Script, literals: seq<Span>, spans: seq<Span>, from: nat) {
    && (forall k :: 0 <= k < |spans| ==> from <= spans[k].start < spans[k].end <= |c.source|)
    && (forall j, k :: 0 <= j < k < |spans| ==> spans[j].end <= spans[k].start)
    && (forall k, l :: 0 <= k < |spans| && l in literals ==> !Covers(l, spans[k].start))
  }

  /** A position where nothing was missed. */
  ghost predicate Accounted(c: Script, literals: seq<Span>, spans: seq<Span>, p: nat)
    requires p < |c.source|
  {
    || (exists l :: l in literals && Covers(l, p))
    || (exists s :: s in spans && Covers(s, p))
    || (!LineOpens(c, p) && !BlockOpens(c, p) && !StringOpens(c, p))
  }

  /** What is recovered lies in the gaps between the literals, in order. */
  lemma {:induction false} ScanStaysInGaps(c: Script, literals: seq<Span>, i: nat)
    requires Scan(c, literals, i).Ok?
    ensures InGaps(c, literals, Scan(c, literals, i).value, i)
    decreases if i < |c.source| then |c.source| - i else 0
  {
    hide InGaps; hide Script.PieceAt; hide FirstCover;
    if i < |c.source| {
      var cover := FirstCover(literals, i);
      if cover.Some? {
        ScanStaysInGaps(c, literals, cover.value.end);
        InLaterGaps(c, literals, Scan(c, literals, i).value, cover.value.end, i);
      } else if c.PieceAt(i).Plain? {
        ScanStaysInGaps(c, literals, i + 1);
        InLaterGaps(c, literals, Scan(c, literals, i).value, i + 1, i);
      } else {
        var span := c.PieceAt(i).span;
        ScanStaysInGaps(c, literals, span.end);
        OneMoreInGaps(c, literals, span, Scan(c, literals, span.end).value);
      }
    } else {
      NoneInGaps(c, literals, i);
    }
  }

  lemma NoneInGaps(c: Script, literals: seq<Span>, i: nat)
    ensures InGaps(c, literals, [], i)
  {
  }

  lemma InLaterGaps(c: Script, literals: seq<Span>, spans: seq<Span>, from: nat, i: nat)
    requires InGaps(c, literals, spans, from) && i <= from
    ensures InGaps(c, literals, spans, i)
  {
  }

  /** A span that starts outside all literals, in front of spans that start where it ends or later. */
  lemma OneMoreInGaps(c: Script, literals: seq<Span>, span: Span, rest: seq<Span>)
    requires 0 <= span.start < span.end <= |c.source| && forall l :: l in literals ==> !Covers(l, span.start)
    requires InGaps(c, literals, rest, span.end)
    ensures InGaps(c, literals, [span] + rest, span.start)
  {
  }

  /** Nothing is missed: what starts outside a literal and outside an earlier span is recovered. */
  lemma {:induction false} ScanFillsGaps(c: Script, literals: seq<Span>, i: nat)
    requires Scan(c, literals, i).Ok?
    ensures forall p: nat :: i <= p < |c.source| ==> Accounted(c, literals, Scan(c, literals, i).value, p)
    decreases if i < |c.source| then |c.source| - i else 0
  {
    hide Script.PieceAt; hide LineOpens; hide BlockOpens; hide StringOpens;
    if i < |c.source| {
      var spans := Scan(c, literals, i).value;
      var cover := FirstCover(literals, i);
      if cover.Some? {
        ScanFillsGaps(c, literals, cover.value.end);
        forall p: nat | i <= p < |c.source| ensures Accounted(c, literals, spans, p) {
          assert p < cover.value.end ==> Covers(cover.value, p);
        }
      } else if c.PieceAt(i).Plain? {
        PieceTells(c, i);
        ScanFillsGaps(c, literals, i + 1);
      } else {
        var span := c.PieceAt(i).span;
        ScanFillsGaps(c, literals, span.end);
        var rest := Scan(c, literals, span.end).value;
        assert spans == [span] + rest;
        forall p: nat | i <= p < |c.source| ensures Accounted(c, literals, spans, p) {
          if p < span.end {
            assert spans[0] == span && Covers(span, p);
          } else {
            assert Accounted(c, literals, rest, p);
            assert forall s :: s in rest ==> s in spans;
          }
        }
      }
    }
  }

  ghost predicate AllGenuine(c: Script, spans: seq<Span>) {
    forall s :: s in spans ==> Genuine(c, s)
  }

  /** Outside all literals a comment or a string opens that never ends. */
  ghost predicate SomethingNeverEnds(c: Script, literals: seq<Span>, problem: string) {
    exists p: nat :: NeverEnds(c, p, problem) && forall l :: l in literals ==> !Covers(l, p)
  }

  ghost predicate AllAccounted(c: Script, literals: seq<Span>, spans: seq<Span>) {
    forall p: nat :: p < |c.source| ==> Accounted(c, literals, spans, p)
  }

  /** Every recovered span is a comment or a string of the text, and an error means that one never ends. */
  lemma {:induction false} ScanIsGenuine(c: Script, literals: seq<Span>, i: nat)
    ensures Scan(c, literals, i).Ok? ==> AllGenuine(c, Scan(c, literals, i).value)
    ensures Scan(c, literals, i).Err? ==> SomethingNeverEnds(c, literals, Scan(c, literals, i).error)
    decreases if i < |c.source| then |c.source| - i else 0
  {
    hide Script.PieceAt; hide Genuine; hide NeverEnds; hide FirstCover;
    if i < |c.source| {
      var cover := FirstCover(literals, i);
      if cover.Some? {
        ScanIsGenuine(c, literals, cover.value.end);
      } else {
        PieceTells(c, i);
        match c.PieceAt(i)
        case Plain => ScanIsGenuine(c, literals, i + 1);
        case Broken(_) =>
        case Recovered(span) => ScanIsGenuine(c, literals, span.end);
      }
    }
  }

  /**
   * All spans together are pairwise disjoint exactly when no literal starts inside a recovered span.
   */
  lemma DisjointExactlyWhen(c: Script, literals: seq<Span>, spans: seq<Span>)
    requires InGaps(c, literals, spans, 0)
    requires forall l :: l in literals ==> l.start < l.end
    ensures (forall l, s :: l in literals && s in spans ==> Disjoint(l, s))
       <==> (forall l, s :: l in literals && s in spans ==> !Covers(s, l.start))
  {
    if forall l, s :: l in literals && s in spans ==> !Covers(s, l.start) {
      forall l, s | l in literals && s in spans ensures Disjoint(l, s) {
        var k :| 0 <= k < |spans| && spans[k] == s;
        assert !Covers(l, spans[k].start) && !Covers(s, l.start);
      }
    } else {
      var l, s :| l in literals && s in spans && Covers(s, l.start);
      assert !Disjoint(l, s);
    }
  }

  // ---------------------------------------------------------------------------------------------
  // The scan as it is written
  // ---------------------------------------------------------------------------------------------

  /** The literals before `n` end at or before `i`, and the others are sorted: what `n` says about covers. */
  lemma {:induction false} CoverIsNext(literals: seq<Span>, n: nat, i: nat)
    requires SortedByStart(literals) && n <= |literals|
    requires forall k :: 0 <= k < n ==> literals[k].end <= i
    requires n < |literals| ==> literals[n].end > i
    ensures FirstCover(literals, i) == if n < |literals| && literals[n].start <= i then Some(literals[n]) else None
  {
    if n > 0 {
      CoverIsNext(literals[1..], n - 1, i);
    }
  }

  /** Spans found so far in front of what the rest of the scan yields. */
  function Prepend(spans: seq<Span>, rest: Result<seq<Span>, string>): Result<seq<Span>, string> {
    match rest
    case Ok(more) => Ok(spans + more)
    case Err(problem) => Err(problem)
  }

  lemma ScanEnds(c: Script, literals: seq<Span>, i: nat, spans: seq<Span>)
    requires i >= |c.source|
    ensures Prepend(spans, Scan(c, literals, i)) == Ok(spans)
  {
    assert spans + [] == spans;
  }

  lemma PrependErr(spans: seq<Span>, problem: string)
    ensures Prepend(spans, Err(problem)) == Err(problem)
  {
  }

  lemma PrependNone(rest: Result<seq<Span>, string>)
    ensures Prepend([], rest) == rest
  {
    if rest.Ok? {
      assert [] + rest.value == rest.value;
    }
  }

  lemma PrependOne(spans: seq<Span>, s: Span, rest: Result<seq<Span>, string>)
    ensures Prepend(spans + [s], rest) == Prepend(spans, Prepend([s], rest))
  {
    if rest.Ok? {
      assert spans + [s] + rest.value == spans + ([s] + rest.value);
    }
  }

  lemma ScanCases(c: Script, literals: seq<Span>, i: nat)
    requires i < |c.source|
    ensures var cover := FirstCover(literals, i);
            && (cover.Some? ==> Scan(c, literals, i) == Scan(c, literals, cover.value.end))
            && (cover.None? ==>
                  var piece := c.PieceAt(i);
                  && (piece.Plain? ==> Scan(c, literals, i) == Scan(c, literals, i + 1))
                  && (piece.Broken? ==> Scan(c, literals, i) == Err(piece.problem))
                  && (piece.Recovered? ==>
                      Scan(c, literals, i) == Prepend([piece.span], Scan(c, literals, piece.span.end))))
  {
  }

  lemma ScanTells(c: Script, literals: seq<Span>)
    ensures var r := Scan(c, literals, 0);
            && (r.Ok? ==> InGaps(c, literals, r.value, 0) && AllGenuine(c, r.value)
                          && AllAccounted(c, literals, r.value))
            && (r.Err? ==> SomethingNeverEnds(c, literals, r.error))
  {
    hide Scan; hide InGaps; hide AllGenuine; hide Accounted; hide SomethingNeverEnds;
    ScanIsGenuine(c, literals, 0);
    if Scan(c, literals, 0).Ok? {
      ScanStaysInGaps(c, literals, 0);
      ScanFillsGaps(c, literals, 0);
    }
  }

  /** Scans the gaps between the parser's literals, which are sorted by their start. */
  method Recover(c: Script, literals: seq<Span>) returns (r: Result<seq<Span>, string>)
    requires SortedByStart(literals)
    ensures r == Scan(c, literals, 0)
    ensures r.Ok? ==> InGaps(c, literals, r.value, 0) && AllGenuine(c, r.value) && AllAccounted(c, literals, r.value)
    ensures r.Err? ==> SomethingNeverEnds(c, literals, r.error)
  {
    ScanTells(c, literals);
    hide Scan; hide StartsWith; hide LineEnd; hide CommentEnd; hide StringEnd; hide Script.LineComment; hide Prepend;
    hide InGaps; hide AllGenuine; hide AllAccounted; hide SomethingNeverEnds;
    var spans: seq<Span> := [];
    var next := 0;
    var i := 0;
    PrependNone(Scan(c, literals, 0));
    while i < |c.source|
      invariant next <= |literals| && forall k :: 0 <= k < next ==> literals[k].end <= i
      invariant Scan(c, literals, 0) == Prepend(spans, Scan(c, literals, i))
      decreases |c.source| - i
    {
      while next < |literals| && literals[next].end <= i
        invariant next <= |literals| && forall k :: 0 <= k < next ==> literals[k].end <= i
      {
        next := next + 1;
      }
      CoverIsNext(literals, next, i);
      ScanCases(c, literals, i);
      if next < |literals| && literals[next].start <= i {
        i := literals[next].end;
        continue;
      }
      if c.LineComment(i) {
        c.LineCommentEnds(i);
        var end := LineEnd(c.source, i);
        PrependOne(spans, Span(i, end, Comment, "//"), Scan(c, literals, end));
        spans := spans + [Span(i, end, Comment, "//")];
        i := end;
        continue;
      }
      if StartsWith(c.source, i, "/*") {
        var end := CommentEnd(c.source, i + 2);
        if end.None? {
          PrependErr(spans, "unterminated JavaScript comment");
          return Err("unterminated JavaScript comment");
        }
        PrependOne(spans, Span(i, end.value, Comment, "/*"), Scan(c, literals, end.value));
        spans := spans + [Span(i, end.value, Comment, "/*")];
        i := end.value;
        continue;
      }
      if c.mode.ModuleMode? && (c.source[i] == '\'' || c.source[i] == '"') {
        var end := SkipString(c.source, i);
        if end.None? {
          PrependErr(spans, "JavaScript string span could not be resolved");
          return Err("JavaScript string span could not be resolved");
        }
        PrependOne(spans, Span(i, end.value, StringLit, [c.source[i]]), Scan(c, literals, end.value));
        spans := spans + [Span(i, end.value, StringLit, [c.source[i]])];
        i := end.value;
        continue;
      }
      i := i + 1;
    }
    ScanEnds(c, literals, i, spans);
    return Ok(spans);
  }

  /** Finds the end of the string that opens at `start`. */
  method SkipString(s: string, start: nat) returns (end: Option<nat>)
    requires start < |s|
    ensures end == StringEnd(s, start + 1, s[start])
  {
    var i := start + 1;
    var closed := false;
    while i < |s|
      invariant start < i && !closed && StringEnd(s, start + 1, s[start]) == StringEnd(s, i, s[start])
      decreases |s| - i
    {
      if s[i] == '\\' {
        i := i + 2;
        continue;
      }
      if s[i] == s[start] {
        i := i + 1;
        closed := true;
        break;
      }
      i := i + 1;
    }
    if !closed || i > |s| {
      return None;
    }
    return Some(i);
  }

  // ---------------------------------------------------------------------------------------------
  // Queries
  // ---------------------------------------------------------------------------------------------

  /** The number of spans that start at or before (with `strict`, before) an offset. */
  method Search(spans: seq<Span>, offset: int, strict: bool) returns (n: nat)
    requires SortedByStart(spans)
    ensures n <= |spans|
    ensures forall k :: 0 <= k < |spans| ==>
            (k < n <==> if strict then spans[k].start < offset else spans[k].start <= offset)
  {
    var lo, hi := 0, |spans|;
    while lo < hi
      invariant 0 <= lo <= hi <= |spans|
      invariant forall k :: 0 <= k < lo ==> if strict then spans[k].start < offset else spans[k].start <= offset
      invariant forall k :: hi <= k < |spans| ==>
                !(if strict then spans[k].start < offset else spans[k].start <= offset)
    {
      var mid := (lo + hi) / 2;
      if (if strict then spans[mid].start < offset else spans[mid].start <= offset) {
        lo := mid + 1;
      } else {
        hi := mid;
      }
    }
    n := lo;
  }

  /** One after the other. */
  ghost predicate Ordered(spans: seq<Span>) {
    forall j, k :: 0 <= j < k < |spans| ==> spans[j].end <= spans[k].start
  }

  /** The span that starts last at or before a position, if it reaches that far, and code otherwise. */
  function Lookup(spans: seq<Span>, offset: int): Span {
    if spans == [] then Span(offset, offset + 1, Code, "")
    else
      var last := spans[|spans| - 1];
      if last.start > offset then Lookup(spans[..|spans| - 1], offset)
      else if offset < last.end then last
      else Span(offset, offset + 1, Code, "")
  }

  lemma {:induction false} LookupAt(spans: seq<Span>, offset: int, n: nat)
    requires n <= |spans| && forall k :: 0 <= k < |spans| ==> (k < n <==> spans[k].start <= offset)
    ensures Lookup(spans, offset) == if n > 0 && offset < spans[n - 1].end then spans[n - 1]
            else Span(offset, offset + 1, Code, "")
  {
    if n < |spans| {
      LookupAt(spans[..|spans| - 1], offset, n);
    }
  }

  /** Classifies a position by the span that starts last at or before it. */
  method At(a: Analysis, offset: int) returns (r: Span)
    requires SortedByStart(a.spans)
    ensures r == if a.error != "" then Span(offset, offset, Unknown, "") else Lookup(a.spans, offset)
  {
    if a.error != "" {
      return Span(offset, offset, Unknown, "");
    }
    var n := Search(a.spans, offset, false);
    LookupAt(a.spans, offset, n);
    if n > 0 && offset < a.spans[n - 1].end {
      return a.spans[n - 1];
    }
    return Span(offset, offset + 1, Code, "");
  }

  /** The answer is a span that contains the position, or code. */
  lemma {:induction false} LookupAnswers(spans: seq<Span>, offset: int)
    ensures (Lookup(spans, offset) in spans && Covers(Lookup(spans, offset), offset))
         || Lookup(spans, offset) == Span(offset, offset + 1, Code, "")
  {
    if spans != [] {
      LookupAnswers(spans[..|spans| - 1], offset);
    }
  }

  /** With disjoint spans the span which contains the position is found. */
  lemma {:induction false} LookupFindsTheContainingSpan(spans: seq<Span>, k: nat, offset: int)
    requires Ordered(spans) && k < |spans| && Covers(spans[k], offset)
    ensures Lookup(spans, offset) == spans[k]
  {
    var n := |spans| - 1;
    if k < n {
      assert spans[k].end <= spans[n].start;
      LookupFindsTheContainingSpan(spans[..n], k, offset);
    }
  }

  /** The span that contains a position is unique, so the classification is too. */
  lemma ContainingSpanIsUnique(spans: seq<Span>, s: Span, t: Span, offset: int)
    requires Ordered(spans) && s in spans && t in spans && Covers(s, offset) && Covers(t, offset)
    ensures s == t
  {
    var j :| 0 <= j < |spans| && spans[j] == s;
    var k :| 0 <= k < |spans| && spans[k] == t;
    assert !(j < k) && !(k < j);
  }

  /**
   * A span that starts inside another one and ends earlier hides the rest of it: behind the inner
   * span the outer one is not found any more, although it contains the position.
   */
  lemma {:induction false} InnerSpanHidesTheRest(spans: seq<Span>, outer: Span, inner: Span, offset: int)
    requires SortedByStart(spans) && outer in spans && inner in spans && Covers(outer, inner.start)
    requires inner.end <= offset < outer.end && inner.start <= offset
    requires forall s :: s in spans && s.start <= offset ==> s == inner || s.start < inner.start
    ensures Covers(outer, offset) && Lookup(spans, offset) == Span(offset, offset + 1, Code, "")
  {
    var init, last := spans[..|spans| - 1], spans[|spans| - 1];
    if last.start > offset {
      assert forall s :: s in spans ==> s in init || s == last;
      InnerSpanHidesTheRest(init, outer, inner, offset);
    } else {
      var k :| 0 <= k < |spans| && spans[k] == inner;
      assert last in spans && inner.start <= last.start;
    }
  }

  // ---------------------------------------------------------------------------------------------
  // Literals and recovered spans together
  // ---------------------------------------------------------------------------------------------

  /** What the parser reports: nonempty spans that do not overlap. */
  ghost predicate LiteralsApart(literals: seq<Span>) {
    && (forall l :: l in literals ==> l.start < l.end)
    && (forall j, k :: 0 <= j < k < |literals| ==> Disjoint(literals[j], literals[k]))
  }

  /** The literals and the recovered spans, sorted by start; equal starts in any order. */
  ghost predicate Merged(all: seq<Span>, literals: seq<Span>, recovered: seq<Span>) {
    SortedByStart(all) && multiset(all) == multiset(literals) + multiset(recovered)
  }

  lemma MergedMembers(all: seq<Span>, literals: seq<Span>, recovered: seq<Span>)
    requires Merged(all, literals, recovered)
    ensures forall s :: s in all <==> s in literals || s in recovered
  {
    forall s ensures s in all <==> s in literals || s in recovered {
      assert s in all <==> s in multiset(all);
      assert s in literals <==> s in multiset(literals);
      assert s in recovered <==> s in multiset(recovered);
    }
  }

  lemma {:induction false} DistinctCounts(spans: seq<Span>, s: Span)
    requires Distinct(spans)
    ensures multiset(spans)[s] <= 1
  {
    if spans != [] {
      var init, last := spans[..|spans| - 1], spans[|spans| - 1];
      DistinctCounts(init, s);
      assert spans == init + [last];
      assert s == last ==> s !in init && s !in multiset(init);
    }
  }

  lemma RepeatedCounts(spans: seq<Span>, j: nat, k: nat)
    requires j < k < |spans| && spans[j] == spans[k]
    ensures multiset(spans)[spans[j]] >= 2
  {
    assert spans == spans[..k] + spans[k..];
    assert spans[..k][j] == spans[j] && spans[k..][0] == spans[j];
    assert spans[j] in multiset(spans[..k]) && spans[j] in multiset(spans[k..]);
  }

  lemma NotBoth(c: Script, literals: seq<Span>, recovered: seq<Span>, s: Span)
    requires InGaps(c, literals, recovered, 0)
    ensures multiset(literals)[s] == 0 || multiset(recovered)[s] == 0
  {
    if s in recovered && s in literals {
      assert false;
    }
  }

  /** No span occurs twice among the literals and the recovered spans. */
  lemma MergedIsDistinct(c: Script, all: seq<Span>, literals: seq<Span>, recovered: seq<Span>)
    requires InGaps(c, literals, recovered, 0) && LiteralsApart(literals) && Merged(all, literals, recovered)
    ensures Distinct(all)
  {
    forall j, k | 0 <= j < k < |all| ensures all[j] != all[k] {
      if all[j] == all[k] {
        var s := all[j];
        RepeatedCounts(all, j, k);
        assert Distinct(literals) by {
          assert forall m, n :: 0 <= m < n < |literals| ==>
              literals[m] in literals && Disjoint(literals[m], literals[n]);
        }
        DistinctCounts(literals, s);
        DistinctCounts(recovered, s);
        NotBoth(c, literals, recovered, s);
      }
    }
  }

  /** Two different spans among them do not overlap, unless a literal starts in a recovered span. */
  lemma MergedApart(c: Script, literals: seq<Span>, recovered: seq<Span>, a: Span, b: Span)
    requires InGaps(c, literals, recovered, 0) && LiteralsApart(literals) && a != b
    requires forall l, s :: l in literals && s in recovered ==> !Covers(s, l.start)
    requires (a in literals || a in recovered) && (b in literals || b in recovered)
    ensures Disjoint(a, b) && a.start < a.end && b.start < b.end
  {
    DisjointExactlyWhen(c, literals, recovered);
    if a in literals && b in literals {
      var j :| 0 <= j < |literals| && literals[j] == a;
      var k :| 0 <= k < |literals| && literals[k] == b;
      assert if j < k then Disjoint(literals[j], literals[k]) else Disjoint(literals[k], literals[j]);
    } else if a in recovered && b in recovered {
      var j :| 0 <= j < |recovered| && recovered[j] == a;
      var k :| 0 <= k < |recovered| && recovered[k] == b;
    } else if a in recovered {
      var j :| 0 <= j < |recovered| && recovered[j] == a;
    } else {
      var k :| 0 <= k < |recovered| && recovered[k] == b;
    }
  }

  /**
   * The spans of an analysis stand one after the other, as its queries need, exactly when no literal
   * starts inside a recovered span.
   */
  lemma MergedIsOrderedExactlyWhen(c: Script, all: seq<Span>, literals: seq<Span>, recovered: seq<Span>)
    requires Scan(c, literals, 0) == Ok(recovered) && LiteralsApart(literals) && Merged(all, literals, recovered)
    ensures Ordered(all) <==> forall l, s :: l in literals && s in recovered ==> !Covers(s, l.start)
  {
    hide Scan;
    ScanStaysInGaps(c, literals, 0);
    MergedMembers(all, literals, recovered);
    if forall l, s :: l in literals && s in recovered ==> !Covers(s, l.start) {
      MergedIsDistinct(c, all, literals, recovered);
      forall j, k | 0 <= j < k < |all| ensures all[j].end <= all[k].start {
        MergedApart(c, literals, recovered, all[j], all[k]);
      }
    } else {
      var l, s :| l in literals && s in recovered && Covers(s, l.start);
      var j :| 0 <= j < |all| && all[j] == l;
      var k :| 0 <= k < |all| && all[k] == s;
      var m :| 0 <= m < |recovered| && recovered[m] == s;
      assert !Covers(l, recovered[m].start);
      assert l.start < l.end && j != k;
      assert !Ordered(all) by {
        assert if j < k then all[j].end > all[k].start else all[k].end > all[j].start;
      }
    }
  }

  /**
   * Then every position is classified by the one literal or recovered span that contains it, and as
   * code if there is none.
   */
  lemma MergedLookup(c: Script, all: seq<Span>, literals: seq<Span>, recovered: seq<Span>, offset: int)
    requires Scan(c, literals, 0) == Ok(recovered) && LiteralsApart(literals) && Merged(all, literals, recovered)
    requires forall l, s :: l in literals && s in recovered ==> !Covers(s, l.start)
    ensures forall s :: (s in literals || s in recovered) && Covers(s, offset) ==> s == Lookup(all, offset)
    ensures (forall s :: s in literals || s in recovered ==> !Covers(s, offset)) ==>
            Lookup(all, offset) == Span(offset, offset + 1, Code, "")
  {
    hide Scan; hide Lookup;
    MergedIsOrderedExactlyWhen(c, all, literals, recovered);
    MergedMembers(all, literals, recovered);
    LookupAnswers(all, offset);
    forall s | s in all && Covers(s, offset) ensures s == Lookup(all, offset) {
      var k :| 0 <= k < |all| && all[k] == s;
      LookupFindsTheContainingSpan(all, k, offset);
    }
  }

  /** Does a call start in the given range? */
  method HasCallStartingIn(a: Analysis, start: int, end: int) returns (r: bool)
    requires SortedByStart(a.calls)
    ensures r <==> a.error == "" && exists call :: call in a.calls && start <= call.start < end
  {
    if a.error != "" {
      return false;
    }
    var n := Search(a.calls, start, true);
    r := n < |a.calls| && a.calls[n].start < end;
    if r {
      assert a.calls[n] in a.calls;
    }
  }
}
