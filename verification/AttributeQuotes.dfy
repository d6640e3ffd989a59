/**
 * The raw attribute scanner of pkg/context/attribute_quotes.go, compared with the attribute states
 * of the HTML standard's tokenizer (sections 13.2.5.32 to 13.2.5.40).
 */
module AttributeQuotes {
  import opened Prelude

  /** An attribute name and the quote its value is written in, if any. */
  datatype Delimiter = Delimiter(name: string, quote: string)

  predicate Space(c: char) {
    c == ' ' || c == '\t' || c == '\r' || c == '\n' || c == 12 as char
  }

  predicate Quote(c: char) {
    c == '\'' || c == '"'
  }

  function LowerChar(c: char): char {
    if 'A' <= c <= 'Z' then (c as int + 32) as char else c
  }

  /** Lowering changes the 26 capital letters of ASCII and nothing else. */
  lemma LowersTheAlphabet(c: char)
    ensures var upper, lower := "ABCDEFGHIJKLMNOPQRSTUVWXYZ", "abcdefghijklmnopqrstuvwxyz";
            && (c !in upper ==> LowerChar(c) == c)
            && forall i :: 0 <= i < 26 && upper[i] == c ==> LowerChar(c) == lower[i]
  {
    var upper, lower := "ABCDEFGHIJKLMNOPQRSTUVWXYZ", "abcdefghijklmnopqrstuvwxyz";
    assert forall i :: 0 <= i < 26 ==> upper[i] as int == 65 + i && lower[i] as int == 97 + i;
    if 'A' <= c <= 'Z' {
      assert upper[c as int - 65] == c;
    }
  }

  function Lower(s: string): string {
    seq(|s|, i requires 0 <= i < |s| => LowerChar(s[i]))
  }

  /** ASCII text. */
  predicate Ascii(s: string) {
    forall i :: 0 <= i < |s| ==> s[i] as int < 128
  }

  const NUL: char := 0 as char

  /** The UTF-8 bytes of U+FFFD, which the standard puts in the place of a NUL. */
  const REPLACEMENT: string := [0xEF as char, 0xBF as char, 0xBD as char]

  /** The name the standard makes of the text of a name, byte by byte (13.2.5.33). */
  function StandardName(s: string): string {
    if s == [] then []
    else StandardName(s[..|s| - 1]) + (if s[|s| - 1] == NUL then REPLACEMENT else [LowerChar(s[|s| - 1])])
  }

  lemma {:induction false} NamesGrowByNul(s: string)
    ensures |StandardName(s)| >= |s|
    ensures NUL in s ==> |StandardName(s)| > |s|
    ensures NUL !in s ==> StandardName(s) == Lower(s)
  {
    if s != [] {
      var init := s[..|s| - 1];
      NamesGrowByNul(init);
      assert s == init + [s[|s| - 1]];
      assert Lower(s) == Lower(init) + [LowerChar(s[|s| - 1])];
    }
  }

  /** Lowering gives the standard's name exactly if no NUL has to be replaced. */
  lemma LowerIsStandardExactlyWhen(s: string)
    ensures Lower(s) == StandardName(s) <==> NUL !in s
  {
    NamesGrowByNul(s);
  }

  // ---------------------------------------------------------------------------------------------
  // The standard's states
  // ---------------------------------------------------------------------------------------------

  datatype Phase =
    | TagName                              // 13.2.5.8
    | BeforeName                           // 13.2.5.32
    | Name(name: string)                   // 13.2.5.33
    | AfterName(name: string)              // 13.2.5.34
    | BeforeValue(name: string)            // 13.2.5.35
    | Quoted(name: string, quote: char)    // 13.2.5.36 and 13.2.5.37
    | Unquoted(name: string)               // 13.2.5.38
    | AfterQuoted                          // 13.2.5.39
    | SelfClosing                          // 13.2.5.40
  {
    /** Decides between states that look at the same character. */
    function Rank(): nat {
      match this
      case SelfClosing => 3
      case AfterQuoted => 3
      case BeforeName => 2
      case Name(_) => 1
      case BeforeValue(_) => 1
      case _ => 0
    }
  }

  /** A complete start tag, or where the input ended before one was complete. */
  datatype Outcome = Emitted(attributes: seq<Delimiter>) | Cut(attributes: seq<Delimiter>) | CutInQuotes

  /**
   * The standard's tokenizer from position `i` in state `p`, with the attributes in `out` finished.
   * A new attribute starts with the character that is looked at. Names are kept as they are written;
   * `StandardName` is what the standard appends for their characters.
   */
  function Tokenize(tag: string, i: nat, p: Phase, out: seq<Delimiter>): Outcome
    decreases if i < |tag| then |tag| - i else 0, p.Rank()
  {
    if i >= |tag| then
      match p
      case Quoted(_, _) => CutInQuotes
      case Name(n) => Cut(out + [Delimiter(n, "")])
      case AfterName(n) => Cut(out + [Delimiter(n, "")])
      case BeforeValue(n) => Cut(out + [Delimiter(n, "")])
      case Unquoted(n) => Cut(out + [Delimiter(n, "")])
      case _ => Cut(out)
    else
      var c := tag[i];
      match p
      case TagName =>
        if Space(c) then Tokenize(tag, i + 1, BeforeName, out)
        else if c == '/' then Tokenize(tag, i + 1, SelfClosing, out)
        else if c == '>' then Emitted(out)
        else Tokenize(tag, i + 1, TagName, out)
      case BeforeName =>
        if Space(c) then Tokenize(tag, i + 1, BeforeName, out)
        else if c == '/' then Tokenize(tag, i + 1, SelfClosing, out)
        else if c == '>' then Emitted(out)
        else Tokenize(tag, i + 1, Name([c]), out)
      case Name(n) =>
        if Space(c) || c == '/' || c == '>' then Tokenize(tag, i, AfterName(n), out)
        else if c == '=' then Tokenize(tag, i + 1, BeforeValue(n), out)
        else Tokenize(tag, i + 1, Name(n + [c]), out)
      case AfterName(n) =>
        if Space(c) then Tokenize(tag, i + 1, AfterName(n), out)
        else if c == '/' then Tokenize(tag, i + 1, SelfClosing, out + [Delimiter(n, "")])
        else if c == '=' then Tokenize(tag, i + 1, BeforeValue(n), out)
        else if c == '>' then Emitted(out + [Delimiter(n, "")])
        else Tokenize(tag, i + 1, Name([c]), out + [Delimiter(n, "")])
      case BeforeValue(n) =>
        if Space(c) then Tokenize(tag, i + 1, BeforeValue(n), out)
        else if Quote(c) then Tokenize(tag, i + 1, Quoted(n, c), out)
        else if c == '>' then Emitted(out + [Delimiter(n, "")])
        else Tokenize(tag, i, Unquoted(n), out)
      case Quoted(n, q) =>
        if c == q then Tokenize(tag, i + 1, AfterQuoted, out + [Delimiter(n, [q])])
        else Tokenize(tag, i + 1, Quoted(n, q), out)
      case Unquoted(n) =>
        if Space(c) then Tokenize(tag, i + 1, BeforeName, out + [Delimiter(n, "")])
        else if c == '>' then Emitted(out + [Delimiter(n, "")])
        else Tokenize(tag, i + 1, Unquoted(n), out)
      case AfterQuoted =>
        if Space(c) then Tokenize(tag, i + 1, BeforeName, out)
        else if c == '/' then Tokenize(tag, i + 1, SelfClosing, out)
        else if c == '>' then Emitted(out)
        else Tokenize(tag, i, BeforeName, out)
      case SelfClosing =>
        if c == '>' then Emitted(out) else Tokenize(tag, i, BeforeName, out)
  }

  /** What the standard makes of a start tag, names as written; position 0 holds the opening bracket. */
  function Standard(tag: string): Outcome {
    Tokenize(tag, 1, TagName, [])
  }

  /** What the scanner reports: nothing for a tag that ends inside quotes. */
  function Reported(o: Outcome): seq<Delimiter> {
    if o.CutInQuotes? then [] else o.attributes
  }

  /** The list with every name replaced by what `naming` makes of it. */
  function Named(ds: seq<Delimiter>, naming: string -> string): seq<Delimiter> {
    seq(|ds|, i requires 0 <= i < |ds| => Delimiter(naming(ds[i].name), ds[i].quote))
  }

  lemma NamedNext(ds: seq<Delimiter>, d: Delimiter, naming: string -> string)
    ensures Named(ds + [d], naming) == Named(ds, naming) + [Delimiter(naming(d.name), d.quote)]
  {
  }

  /** Two namings give the same list exactly if they agree on every name in it. */
  lemma NamedAlikeExactlyWhen(ds: seq<Delimiter>, f: string -> string, g: string -> string)
    ensures Named(ds, f) == Named(ds, g) <==> forall d :: d in ds ==> f(d.name) == g(d.name)
  {
    if Named(ds, f) == Named(ds, g) {
      forall d | d in ds ensures f(d.name) == g(d.name) {
        var i :| 0 <= i < |ds| && ds[i] == d;
        assert Named(ds, f)[i] == Named(ds, g)[i];
      }
    }
  }

  /** Where a state other than the one before an attribute name continues as that one. */
  lemma LikeBeforeName(tag: string, i: nat, n: string, out: seq<Delimiter>)
    ensures Tokenize(tag, i, SelfClosing, out) == Tokenize(tag, i, BeforeName, out)
    ensures Tokenize(tag, i, AfterQuoted, out) == Tokenize(tag, i, BeforeName, out)
    ensures i < |tag| && tag[i] != '=' && !Space(tag[i]) ==>
              Tokenize(tag, i, AfterName(n), out) == Tokenize(tag, i, BeforeName, out + [Delimiter(n, "")])
  {
  }

  /** What the scanner reports of a tag if `lower` lowers names. */
  function Scanned(tag: string, lower: string -> string): seq<Delimiter> {
    Named(Reported(Standard(tag)), lower)
  }

  /** Names and quotes of the attributes the standard's states find. */
  function Expected(tag: string): seq<Delimiter> {
    Named(Reported(Standard(tag)), StandardName)
  }

  /** The attribute list of a raw start tag, whatever its bytes. */
  method AttributeDelimiters(tag: string, lower: string -> string) returns (result: seq<Delimiter>)
    ensures result == Scanned(tag, lower)
  {
    result := [];
    ghost var raw: seq<Delimiter> := [];
    var i := 1;
    while i < |tag| && !Space(tag[i]) && tag[i] != '/' && tag[i] != '>'
      invariant Tokenize(tag, i, TagName, []) == Standard(tag)
    {
      i := i + 1;
    }
    assert Tokenize(tag, i, BeforeName, []) == Standard(tag);
    while i < |tag|
      invariant Tokenize(tag, i, BeforeName, raw) == Standard(tag) && result == Named(raw, lower)
    {
      i := SkipToName(tag, i, raw);
      if i == |tag| || tag[i] == '>' {
        return;
      }
      var start := i;
      i := SkipName(tag, start, raw);
      var name := tag[start..i];
      var quote, cut;
      i, quote, cut := SkipValue(tag, i, name, raw);
      if cut {
        return [];
      }
      result := result + [Delimiter(lower(name), quote)];
      NamedNext(raw, Delimiter(name, quote), lower);
      raw := raw + [Delimiter(name, quote)];
    }
  }

  /**
   * The scanner reports what the standard's states find exactly if lowering a name gives the
   * standard's name for it. On tags in ASCII that is: exactly if no name contains a NUL.
   */
  lemma AgreesWithTheStandardExactlyWhen(tag: string, lower: string -> string)
    requires forall s :: Ascii(s) ==> lower(s) == Lower(s)
    ensures Scanned(tag, lower) == Expected(tag)
       <==> forall d :: d in Reported(Standard(tag)) ==> lower(d.name) == StandardName(d.name)
    ensures Ascii(tag) ==>
      (Scanned(tag, lower) == Expected(tag) <==> forall d :: d in Reported(Standard(tag)) ==> NUL !in d.name)
  {
    hide Tokenize; hide Lower; hide StandardName;
    var ds := Reported(Standard(tag));
    NamedAlikeExactlyWhen(ds, lower, StandardName);
    if Ascii(tag) {
      NamesAreAscii(tag, 1, TagName, []);
      forall d | d in ds ensures lower(d.name) == StandardName(d.name) <==> NUL !in d.name {
        LowerIsStandardExactlyWhen(d.name);
      }
    }
  }

  /** The name of a state that has one. */
  function NameOf(p: Phase): string {
    match p
    case TagName => ""
    case BeforeName => ""
    case AfterQuoted => ""
    case SelfClosing => ""
    case Quoted(n, _) => n
    case _ => p.name
  }

  /** The names of an ASCII tag are ASCII. */
  lemma {:induction false} NamesAreAscii(tag: string, i: nat, p: Phase, out: seq<Delimiter>)
    requires Ascii(tag) && Ascii(NameOf(p)) && forall d :: d in out ==> Ascii(d.name)
    ensures forall d :: d in Reported(Tokenize(tag, i, p, out)) ==> Ascii(d.name)
    decreases if i < |tag| then |tag| - i else 0, p.Rank()
  {
    if i < |tag| {
      var c := tag[i];
      match p
      case TagName =>
        NamesAreAscii(tag, i + 1, if Space(c) then BeforeName else if c == '/' then SelfClosing else TagName, out);
      case BeforeName =>
        NamesAreAscii(tag, i + 1, if Space(c) then BeforeName else if c == '/' then SelfClosing else Name([c]), out);
      case Name(n) =>
        if Space(c) || c == '/' || c == '>' {
          NamesAreAscii(tag, i, AfterName(n), out);
        } else {
          NamesAreAscii(tag, i + 1, if c == '=' then BeforeValue(n) else Name(n + [c]), out);
        }
      case AfterName(n) =>
        if Space(c) || c == '=' {
          NamesAreAscii(tag, i + 1, if c == '=' then BeforeValue(n) else p, out);
        } else {
          NamesAreAscii(tag, i + 1, if c == '/' then SelfClosing else Name([c]), out + [Delimiter(n, "")]);
        }
      case BeforeValue(n) =>
        if Space(c) || Quote(c) {
          NamesAreAscii(tag, i + 1, if Space(c) then p else Quoted(n, c), out);
        } else {
          NamesAreAscii(tag, i, Unquoted(n), out);
        }
      case Quoted(n, q) =>
        if c == q {
          NamesAreAscii(tag, i + 1, AfterQuoted, out + [Delimiter(n, [q])]);
        } else {
          NamesAreAscii(tag, i + 1, p, out);
        }
      case Unquoted(n) =>
        if Space(c) {
          NamesAreAscii(tag, i + 1, BeforeName, out + [Delimiter(n, "")]);
        } else {
          NamesAreAscii(tag, i + 1, p, out);
        }
      case AfterQuoted =>
        LikeBeforeName(tag, i, "", out);
        NamesAreAscii(tag, i, BeforeName, out);
      case SelfClosing =>
        LikeBeforeName(tag, i, "", out);
        NamesAreAscii(tag, i, BeforeName, out);
    }
  }

  /** Skips what may stand between attributes. */
  method SkipToName(tag: string, start: nat, ghost out: seq<Delimiter>) returns (i: nat)
    requires start < |tag|
    ensures start <= i <= |tag| && Tokenize(tag, i, BeforeName, out) == Tokenize(tag, start, BeforeName, out)
    ensures i < |tag| ==> !Space(tag[i]) && tag[i] != '/'
  {
    i := start;
    while i < |tag| && (Space(tag[i]) || tag[i] == '/')
      invariant start <= i <= |tag| && Tokenize(tag, i, BeforeName, out) == Tokenize(tag, start, BeforeName, out)
    {
      LikeBeforeName(tag, i + 1, "", out);
      i := i + 1;
    }
  }

  /** Reads a name; its first character may be an equals sign. */
  method SkipName(tag: string, start: nat, ghost out: seq<Delimiter>) returns (i: nat)
    requires start < |tag| && !Space(tag[start]) && tag[start] != '/' && tag[start] != '>'
    ensures start < i <= |tag|
    ensures Tokenize(tag, i, Name(tag[start..i]), out) == Tokenize(tag, start, BeforeName, out)
    ensures i < |tag| ==> Space(tag[i]) || tag[i] == '/' || tag[i] == '>' || tag[i] == '='
  {
    i := start + 1;
    assert tag[start..i] == [tag[start]];
    while i < |tag| && !Space(tag[i]) && tag[i] != '/' && tag[i] != '>' && tag[i] != '='
      invariant start < i <= |tag|
      invariant Tokenize(tag, i, Name(tag[start..i]), out) == Tokenize(tag, start, BeforeName, out)
    {
      assert tag[start..i + 1] == tag[start..i] + [tag[i]];
      i := i + 1;
    }
  }

  /** Reads the value after a name, if there is one. */
  method SkipValue(tag: string, start: nat, name: string, ghost out: seq<Delimiter>)
    returns (i: nat, quote: string, cut: bool)
    requires start <= |tag|
             && (start < |tag| ==> Space(tag[start]) || tag[start] == '/' || tag[start] == '>' || tag[start] == '=')
    ensures start <= i <= |tag|
    ensures cut ==> Tokenize(tag, start, Name(name), out) == CutInQuotes
    ensures !cut ==>
            Tokenize(tag, start, Name(name), out) == Tokenize(tag, i, BeforeName, out + [Delimiter(name, quote)])
  {
    i, quote, cut := start, "", false;
    assert Tokenize(tag, start, Name(name), out) == Tokenize(tag, i, AfterName(name), out);
    while i < |tag| && Space(tag[i])
      invariant start <= i <= |tag| && Tokenize(tag, start, Name(name), out) == Tokenize(tag, i, AfterName(name), out)
    {
      i := i + 1;
    }
    if i < |tag| && tag[i] == '=' {
      i := i + 1;
      i, quote, cut := SkipQuoted(tag, i, name, out);
    } else {
      LikeBeforeName(tag, i, name, out);
    }
  }

  /** Reads the value after an equals sign. */
  method SkipQuoted(tag: string, start: nat, name: string, ghost out: seq<Delimiter>)
    returns (i: nat, quote: string, cut: bool)
    requires start <= |tag|
    ensures start <= i <= |tag|
    ensures cut ==> Tokenize(tag, start, BeforeValue(name), out) == CutInQuotes
    ensures !cut ==>
            Tokenize(tag, start, BeforeValue(name), out) == Tokenize(tag, i, BeforeName, out + [Delimiter(name, quote)])
  {
    i, quote, cut := start, "", false;
    while i < |tag| && Space(tag[i])
      invariant start <= i <= |tag|
                && Tokenize(tag, start, BeforeValue(name), out) == Tokenize(tag, i, BeforeValue(name), out)
    {
      i := i + 1;
    }
    if i < |tag| && Quote(tag[i]) {
      var q := tag[i];
      quote := [q];
      i := i + 1;
      while i < |tag| && tag[i] != q
        invariant start <= i <= |tag|
                  && Tokenize(tag, start, BeforeValue(name), out) == Tokenize(tag, i, Quoted(name, q), out)
      {
        i := i + 1;
      }
      if i == |tag| {
        cut := true;
        return;
      }
      i := i + 1;
      LikeBeforeName(tag, i, name, out + [Delimiter(name, quote)]);
    } else {
      assert Tokenize(tag, start, BeforeValue(name), out) == Tokenize(tag, i, Unquoted(name), out);
      while i < |tag| && !Space(tag[i]) && tag[i] != '>'
        invariant start <= i <= |tag|
                  && Tokenize(tag, start, BeforeValue(name), out) == Tokenize(tag, i, Unquoted(name), out)
      {
        i := i + 1;
      }
    }
  }

  // ---------------------------------------------------------------------------------------------
  // Printing and reading back
  // ---------------------------------------------------------------------------------------------

  /** The five characters that HTML calls white space, as they are written. */
  predicate White(c: char) {
    c == ' ' || c == '\t' || c == '\n' || c == '\r' || c == 12 as char
  }

  predicate Whites(s: string) {
    forall i :: 0 <= i < |s| ==> White(s[i])
  }

  /** White space and slashes, as they may stand between attributes. */
  predicate GapText(s: string) {
    forall i :: 0 <= i < |s| ==> White(s[i]) || s[i] == '/'
  }

  /** A character of a name. */
  predicate NameChar(c: char) {
    !White(c) && c != '/' && c != '>' && c != '='
  }

  datatype Attribute =
    | Bare(name: string)
    | InQuotes(name: string, left: string, right: string, quote: char, value: string)
    | WithoutQuotes(name: string, left: string, right: string, value: string)

  /** An attribute and what is written between it and what comes before. */
  datatype Written = Written(gap: string, attribute: Attribute)

  /** What the text before a gap ends with. */
  datatype Ending = OfName | OfQuotes | OfValue

  function EndingOf(a: Attribute): Ending {
    match a
    case Bare(_) => OfName
    case InQuotes(_, _, _, _, _) => OfQuotes
    case WithoutQuotes(_, _, _, _) => OfValue
  }

  /** A name without delimiters, white space around the equals sign, and a value that does not end early. */
  predicate WellFormed(a: Attribute) {
    && a.name != [] && (forall i :: 0 <= i < |a.name| ==> NameChar(a.name[i]))
    && (!a.Bare? ==> Whites(a.left) && Whites(a.right))
    && (a.InQuotes? ==> (a.quote == '\'' || a.quote == '"') && a.quote !in a.value)
    && (a.WithoutQuotes? ==> a.value != [] && a.value[0] != '\'' && a.value[0] != '"'
                             && forall i :: 0 <= i < |a.value| ==> !White(a.value[i]) && a.value[i] != '>')
  }

  /** Does a gap separate what comes before it from a next attribute, or from the end of the tag? */
  predicate Separates(before: Ending, gap: string, last: bool) {
    && GapText(gap)
    && match before
       case OfName => gap != [] || last
       case OfQuotes => true
       case OfValue => if gap == [] then last else White(gap[0])
  }

  predicate WellWritten(before: Ending, attributes: seq<Written>, tail: string)
    decreases |attributes|
  {
    if attributes == [] then Separates(before, tail, true)
    else
      && Separates(before, attributes[0].gap, false) && WellFormed(attributes[0].attribute)
      && WellWritten(EndingOf(attributes[0].attribute), attributes[1..], tail)
  }

  function Print(a: Attribute): string {
    match a
    case Bare(name) => name
    case InQuotes(name, left, right, quote, value) => name + (left + ("=" + (right + ([quote] + (value + [quote])))))
    case WithoutQuotes(name, left, right, value) => name + (left + ("=" + (right + value)))
  }

  function Described(a: Attribute): Delimiter {
    Delimiter(a.name, if a.InQuotes? then [a.quote] else "")
  }

  function PrintAll(attributes: seq<Written>, tail: string): string {
    if attributes == [] then tail + ">"
    else attributes[0].gap + (Print(attributes[0].attribute) + PrintAll(attributes[1..], tail))
  }

  function DescribedAll(attributes: seq<Written>): seq<Delimiter> {
    seq(|attributes|, i requires 0 <= i < |attributes| => Described(attributes[i].attribute))
  }

  /** A start tag; `tail` stands before the closing bracket. */
  function PrintTag(element: string, attributes: seq<Written>, tail: string): string {
    "<" + (element + PrintAll(attributes, tail))
  }

  /** The text `s` stands at position `i`. */
  predicate At(tag: string, i: nat, s: string) {
    i + |s| <= |tag| && tag[i..i + |s|] == s
  }

  lemma AtParts(tag: string, i: nat, a: string, b: string)
    requires At(tag, i, a + b)
    ensures At(tag, i, a) && At(tag, i + |a|, b)
  {
    assert (a + b)[..|a|] == a && (a + b)[|a|..] == b;
    assert tag[i..i + |a + b|][..|a|] == tag[i..i + |a|];
    assert tag[i..i + |a + b|][|a|..] == tag[i + |a|..i + |a| + |b|];
  }

  lemma AtChar(tag: string, i: nat, s: string, j: nat)
    requires At(tag, i, s) && j < |s|
    ensures i + j < |tag| && tag[i + j] == s[j]
  {
    assert tag[i..i + |s|][j] == tag[i + j];
  }

  lemma AtChars(tag: string, i: nat, s: string)
    requires At(tag, i, s)
    ensures i + |s| <= |tag| && forall m :: i <= m < i + |s| ==> tag[m] == s[m - i]
  {
    forall m | i <= m < i + |s| ensures tag[m] == s[m - i] {
      AtChar(tag, i, s, m - i);
    }
  }

  // ---- Runs of characters that keep the state, or lead back to the state before names

  lemma {:induction false} RunElement(tag: string, i: nat, j: nat)
    requires i <= j <= |tag| && forall m :: i <= m < j ==> !White(tag[m]) && tag[m] != '/' && tag[m] != '>'
    ensures Tokenize(tag, i, TagName, []) == Tokenize(tag, j, TagName, [])
    decreases j - i
  {
    if i < j {
      RunElement(tag, i + 1, j);
    }
  }

  lemma {:induction false} RunName(tag: string, i: nat, j: nat, n: string, out: seq<Delimiter>)
    requires i <= j <= |tag| && forall m :: i <= m < j ==> NameChar(tag[m])
    ensures Tokenize(tag, i, Name(n), out) == Tokenize(tag, j, Name(n + tag[i..j]), out)
    decreases j - i
  {
    if i < j {
      RunName(tag, i + 1, j, n + [tag[i]], out);
      assert n + tag[i..j] == n + [tag[i]] + tag[i + 1..j];
    } else {
      assert n + tag[i..j] == n;
    }
  }

  lemma {:induction false} RunQuoted(tag: string, i: nat, j: nat, n: string, q: char, out: seq<Delimiter>)
    requires i <= j <= |tag| && forall m :: i <= m < j ==> tag[m] != q
    ensures Tokenize(tag, i, Quoted(n, q), out) == Tokenize(tag, j, Quoted(n, q), out)
    decreases j - i
  {
    if i < j {
      RunQuoted(tag, i + 1, j, n, q, out);
    }
  }

  lemma {:induction false} RunUnquoted(tag: string, i: nat, j: nat, n: string, out: seq<Delimiter>)
    requires i <= j <= |tag| && forall m :: i <= m < j ==> !White(tag[m]) && tag[m] != '>'
    ensures Tokenize(tag, i, Unquoted(n), out) == Tokenize(tag, j, Unquoted(n), out)
    decreases j - i
  {
    if i < j {
      RunUnquoted(tag, i + 1, j, n, out);
    }
  }

  lemma {:induction false} RunAfterName(tag: string, i: nat, j: nat, n: string, out: seq<Delimiter>)
    requires i <= j <= |tag| && forall m :: i <= m < j ==> White(tag[m])
    ensures Tokenize(tag, i, AfterName(n), out) == Tokenize(tag, j, AfterName(n), out)
    decreases j - i
  {
    if i < j {
      RunAfterName(tag, i + 1, j, n, out);
    }
  }

  lemma {:induction false} RunBeforeValue(tag: string, i: nat, j: nat, n: string, out: seq<Delimiter>)
    requires i <= j <= |tag| && forall m :: i <= m < j ==> White(tag[m])
    ensures Tokenize(tag, i, BeforeValue(n), out) == Tokenize(tag, j, BeforeValue(n), out)
    decreases j - i
  {
    if i < j {
      RunBeforeValue(tag, i + 1, j, n, out);
    }
  }

  lemma {:induction false} RunGap(tag: string, i: nat, j: nat, out: seq<Delimiter>)
    requires i <= j <= |tag| && forall m :: i <= m < j ==> White(tag[m]) || tag[m] == '/'
    ensures Tokenize(tag, i, BeforeName, out) == Tokenize(tag, j, BeforeName, out)
    decreases j - i
  {
    if i < j {
      LikeBeforeName(tag, i + 1, "", out);
      RunGap(tag, i + 1, j, out);
    }
  }

  /** What follows a gap: the end of the tag, or a name. */
  predicate Follows(tag: string, j: nat) {
    j < |tag| && (tag[j] == '>' || NameChar(tag[j]))
  }

  /** A gap after a name ends the attribute. */
  lemma {:induction false} RunGapAfterName(tag: string, i: nat, j: nat, n: string, out: seq<Delimiter>)
    requires i <= j && Follows(tag, j) && forall m :: i <= m < j ==> White(tag[m]) || tag[m] == '/'
    ensures Tokenize(tag, i, AfterName(n), out) == Tokenize(tag, j, BeforeName, out + [Delimiter(n, "")])
    decreases j - i
  {
    if i == j {
      LikeBeforeName(tag, i, n, out);
    } else if tag[i] == '/' {
      LikeBeforeName(tag, i + 1, n, out + [Delimiter(n, "")]);
      RunGap(tag, i + 1, j, out + [Delimiter(n, "")]);
    } else {
      RunGapAfterName(tag, i + 1, j, n, out);
    }
  }

  // ---- Gaps

  /** The state in which the tokenizer is after an element name or an attribute. */
  datatype Behind = BehindElement | BehindAttribute(a: Attribute)

  function PhaseOf(b: Behind): Phase {
    match b
    case BehindElement => TagName
    case BehindAttribute(Bare(name)) => Name(name)
    case BehindAttribute(InQuotes(_, _, _, _, _)) => AfterQuoted
    case BehindAttribute(WithoutQuotes(name, _, _, _)) => Unquoted(name)
  }

  function EndingBehind(b: Behind): Ending {
    if b.BehindElement? then OfName else EndingOf(b.a)
  }

  /** The attributes finished once the gap behind it begins; those in quotes are finished before. */
  function Finished(b: Behind, out: seq<Delimiter>): seq<Delimiter> {
    if b.BehindElement? || b.a.InQuotes? then out else out + [Delimiter(b.a.name, "")]
  }

  /** A gap leads to the state before names. */
  lemma ReadGap(tag: string, i: nat, b: Behind, gap: string, out: seq<Delimiter>)
    requires At(tag, i, gap) && Follows(tag, i + |gap|)
    requires Separates(EndingBehind(b), gap, tag[i + |gap|] == '>') && (b.BehindElement? ==> out == [])
    ensures Tokenize(tag, i, PhaseOf(b), out) == Tokenize(tag, i + |gap|, BeforeName, Finished(b, out))
  {
    hide At; hide NameChar; hide Tokenize;
    var j := i + |gap|;
    AtChars(tag, i, gap);
    assert forall m :: i <= m < j ==> White(tag[m]) || tag[m] == '/';
    if b.BehindElement? {
      GapAfterElement(tag, i, j);
    } else {
      match b.a
      case Bare(name) => GapAfterBare(tag, i, j, name, out);
      case InQuotes(_, _, _, _, _) =>
        LikeBeforeName(tag, i, "", out);
        RunGap(tag, i, j, out);
      case WithoutQuotes(name, _, _, _) => GapAfterValue(tag, i, j, name, out);
    }
  }

  lemma GapAfterElement(tag: string, i: nat, j: nat)
    requires i <= j < |tag| && (i == j ==> tag[j] == '>') && forall m :: i <= m < j ==> White(tag[m]) || tag[m] == '/'
    ensures Tokenize(tag, i, TagName, []) == Tokenize(tag, j, BeforeName, [])
  {
    if i < j {
      LikeBeforeName(tag, i + 1, "", []);
      RunGap(tag, i + 1, j, []);
    }
  }

  lemma GapAfterBare(tag: string, i: nat, j: nat, n: string, out: seq<Delimiter>)
    requires i <= j && Follows(tag, j) && (i == j ==> tag[j] == '>')
    requires forall m :: i <= m < j ==> White(tag[m]) || tag[m] == '/'
    ensures Tokenize(tag, i, Name(n), out) == Tokenize(tag, j, BeforeName, out + [Delimiter(n, "")])
  {
    RunGapAfterName(tag, i, j, n, out);
  }

  lemma GapAfterValue(tag: string, i: nat, j: nat, n: string, out: seq<Delimiter>)
    requires i <= j < |tag| && (if i == j then tag[j] == '>' else White(tag[i]))
    requires forall m :: i <= m < j ==> White(tag[m]) || tag[m] == '/'
    ensures Tokenize(tag, i, Unquoted(n), out) == Tokenize(tag, j, BeforeName, out + [Delimiter(n, "")])
  {
    if i < j {
      RunGap(tag, i + 1, j, out + [Delimiter(n, "")]);
    }
  }

  // ---- Attributes

  /** Single moves of the tokenizer, for use where its definition is hidden. */
  lemma Moves(tag: string, i: nat, n: string, out: seq<Delimiter>)
    requires i < |tag|
    ensures NameChar(tag[i]) ==> Tokenize(tag, i, BeforeName, out) == Tokenize(tag, i + 1, Name([tag[i]]), out)
    ensures White(tag[i]) ==> Tokenize(tag, i, Name(n), out) == Tokenize(tag, i, AfterName(n), out)
    ensures tag[i] == '=' ==> Tokenize(tag, i, Name(n), out) == Tokenize(tag, i + 1, BeforeValue(n), out)
    ensures tag[i] == '=' ==> Tokenize(tag, i, AfterName(n), out) == Tokenize(tag, i + 1, BeforeValue(n), out)
    ensures tag[i] == '\'' || tag[i] == '"' ==>
              Tokenize(tag, i, BeforeValue(n), out) == Tokenize(tag, i + 1, Quoted(n, tag[i]), out)
    ensures tag[i] != '\'' && tag[i] != '"' && !White(tag[i]) && tag[i] != '>' ==>
              Tokenize(tag, i, BeforeValue(n), out) == Tokenize(tag, i, Unquoted(n), out)
    ensures Tokenize(tag, i, Quoted(n, tag[i]), out)
            == Tokenize(tag, i + 1, AfterQuoted, out + [Delimiter(n, [tag[i]])])
  {
  }

  /** A name. */
  lemma ReadName(tag: string, i: nat, name: string, out: seq<Delimiter>)
    requires At(tag, i, name) && name != [] && forall m :: 0 <= m < |name| ==> NameChar(name[m])
    ensures Tokenize(tag, i, BeforeName, out) == Tokenize(tag, i + |name|, Name(name), out)
  {
    hide Tokenize; hide At; hide NameChar;
    AtChars(tag, i, name);
    var j := i + |name|;
    Moves(tag, i, name, out);
    RunName(tag, i + 1, j, [tag[i]], out);
    WholeName(tag, i, name);
  }

  lemma WholeName(tag: string, i: nat, name: string)
    requires At(tag, i, name) && name != []
    ensures i + |name| <= |tag| && [tag[i]] + tag[i + 1..i + |name|] == name
  {
  }

  /** White space, an equals sign and white space after a name. */
  lemma ReadEquals(tag: string, i: nat, left: string, right: string, n: string, out: seq<Delimiter>)
    requires At(tag, i, left) && At(tag, i + |left|, "=") && At(tag, i + |left| + 1, right) && Whites(left)
             && Whites(right)
    ensures Tokenize(tag, i, Name(n), out) == Tokenize(tag, i + |left| + 1 + |right|, BeforeValue(n), out)
  {
    hide Tokenize; hide At;
    var j := i + |left|;
    AtChars(tag, i, left);
    AtChar(tag, j, "=", 0);
    AtChars(tag, j + 1, right);
    Moves(tag, i, n, out);
    RunAfterName(tag, i, j, n, out);
    Moves(tag, j, n, out);
    RunBeforeValue(tag, j + 1, j + 1 + |right|, n, out);
  }

  /** A value in quotes. */
  lemma ReadQuotes(tag: string, i: nat, name: string, quote: char, value: string, out: seq<Delimiter>)
    requires At(tag, i, [quote] + (value + [quote])) && (quote == '\'' || quote == '"') && quote !in value
    ensures Tokenize(tag, i, BeforeValue(name), out)
         == Tokenize(tag, i + 2 + |value|, AfterQuoted, out + [Delimiter(name, [quote])])
  {
    hide Tokenize; hide At;
    var q, k := [quote], i + 1 + |value|;
    AtParts(tag, i, q, value + q);
    AtParts(tag, i + 1, value, q);
    AtChar(tag, i, q, 0);
    AtChars(tag, i + 1, value);
    AtChar(tag, k, q, 0);
    Moves(tag, i, name, out);
    RunQuoted(tag, i + 1, k, name, quote, out);
    Moves(tag, k, name, out);
  }

  /** A value without quotes. */
  lemma ReadValue(tag: string, i: nat, name: string, value: string, out: seq<Delimiter>)
    requires At(tag, i, value) && value != [] && value[0] != '\'' && value[0] != '"'
    requires forall m :: 0 <= m < |value| ==> !White(value[m]) && value[m] != '>'
    ensures Tokenize(tag, i, BeforeValue(name), out) == Tokenize(tag, i + |value|, Unquoted(name), out)
  {
    hide Tokenize; hide At;
    AtChars(tag, i, value);
    Moves(tag, i, name, out);
    RunUnquoted(tag, i, i + |value|, name, out);
  }

  /** The parts of a printed attribute with a value. */
  lemma PrintedParts(tag: string, i: nat, a: Attribute)
    requires !a.Bare? && At(tag, i, Print(a))
    ensures var j := i + |a.name|;
            var k := j + |a.left| + 1 + |a.right|;
            var rest := if a.InQuotes? then [a.quote] + (a.value + [a.quote]) else a.value;
            && At(tag, i, a.name) && At(tag, j, a.left) && At(tag, j + |a.left|, "=")
            && At(tag, j + |a.left| + 1, a.right) && At(tag, k, rest) && i + |Print(a)| == k + |rest|
  {
    hide At; hide Print;
    var rest := if a.InQuotes? then [a.quote] + (a.value + [a.quote]) else a.value;
    var name, left, right := a.name, a.left, a.right;
    PrintedText(a, rest);
    FiveParts(tag, i, name, left, right, rest);
  }

  lemma PrintedText(a: Attribute, rest: string)
    requires !a.Bare? && rest == if a.InQuotes? then [a.quote] + (a.value + [a.quote]) else a.value
    ensures Print(a) == a.name + (a.left + ("=" + (a.right + rest)))
    ensures |Print(a)| == |a.name| + |a.left| + 1 + |a.right| + |rest|
  {
  }

  lemma FiveParts(tag: string, i: nat, name: string, left: string, right: string, rest: string)
    requires At(tag, i, name + (left + ("=" + (right + rest))))
    ensures var j := i + |name|;
            && At(tag, i, name) && At(tag, j, left) && At(tag, j + |left|, "=")
            && At(tag, j + |left| + 1, right) && At(tag, j + |left| + 1 + |right|, rest)
  {
    hide At;
    var fourth := right + rest;
    var third := "=" + fourth;
    var second := left + third;
    var j := i + |name|;
    var k := j + |left|;
    AtParts(tag, i, name, second);
    AtParts(tag, j, left, third);
    AtParts(tag, k, "=", fourth);
    AtParts(tag, k + 1, right, rest);
  }

  /** An attribute leads to the state behind it. */
  lemma ReadOne(tag: string, i: nat, a: Attribute, out: seq<Delimiter>)
    requires WellFormed(a) && At(tag, i, Print(a))
    ensures var b := BehindAttribute(a);
            Tokenize(tag, i, BeforeName, out)
            == Tokenize(tag, i + |Print(a)|, PhaseOf(b), if a.InQuotes? then out + [Described(a)] else out)
  {
    hide Tokenize; hide At; hide NameChar; hide White;
    if a.Bare? {
      ReadName(tag, i, a.name, out);
    } else {
      PrintedParts(tag, i, a);
      var j := i + |a.name|;
      var k := j + |a.left| + 1 + |a.right|;
      ReadName(tag, i, a.name, out);
      ReadEquals(tag, j, a.left, a.right, a.name, out);
      if a.InQuotes? {
        ReadQuotes(tag, k, a.name, a.quote, a.value, out);
      } else {
        ReadValue(tag, k, a.name, a.value, out);
      }
    }
  }

  /** After a gap the tag ends or a name begins. */
  lemma NextFollows(tag: string, i: nat, attributes: seq<Written>, tail: string, before: Ending)
    requires At(tag, i, PrintAll(attributes, tail)) && WellWritten(before, attributes, tail)
    ensures var gap := if attributes == [] then tail else attributes[0].gap;
            && At(tag, i, gap) && Follows(tag, i + |gap|) && (tag[i + |gap|] == '>' <==> attributes == [])
    ensures attributes != [] ==>
              && At(tag, i + |attributes[0].gap|, Print(attributes[0].attribute))
              && At(tag, i + |attributes[0].gap| + |Print(attributes[0].attribute)|, PrintAll(attributes[1..], tail))
  {
    hide At; hide White; hide Print; hide PrintAll;
    if attributes == [] {
      PrintedEnd(tail);
      AtParts(tag, i, tail, ">");
      AtChar(tag, i + |tail|, ">", 0);
    } else {
      var gap, a := attributes[0].gap, attributes[0].attribute;
      var text, rest := Print(a), PrintAll(attributes[1..], tail);
      var both := text + rest;
      PrintedNext(attributes, tail, gap, both);
      var j := i + |gap|;
      AtParts(tag, i, gap, both);
      AtParts(tag, j, text, rest);
      StartsWithName(a);
      AtChar(tag, j, text, 0);
    }
  }

  lemma PrintedEnd(tail: string)
    ensures PrintAll([], tail) == tail + ">"
  {
  }

  lemma PrintedNext(attributes: seq<Written>, tail: string, gap: string, both: string)
    requires attributes != [] && gap == attributes[0].gap
    requires both == Print(attributes[0].attribute) + PrintAll(attributes[1..], tail)
    ensures PrintAll(attributes, tail) == gap + both
  {
  }

  lemma StartsWithName(a: Attribute)
    requires WellFormed(a)
    ensures Print(a) != [] && NameChar(Print(a)[0])
  {
    assert NameChar(a.name[0]);
  }

  lemma {:induction false} ReadAll(tag: string, i: nat, b: Behind, attributes: seq<Written>, tail: string,
                                   out: seq<Delimiter>)
    requires At(tag, i, PrintAll(attributes, tail)) && WellWritten(EndingBehind(b), attributes, tail)
    requires b.BehindElement? ==> out == []
    ensures Tokenize(tag, i, PhaseOf(b), out) == Emitted(Finished(b, out) + DescribedAll(attributes))
    decreases |attributes|
  {
    hide Tokenize; hide Print; hide PrintAll; hide WellFormed; hide PhaseOf; hide At; hide Follows; hide Described;
    NextFollows(tag, i, attributes, tail, EndingBehind(b));
    var gap, done := if attributes == [] then tail else attributes[0].gap, Finished(b, out);
    ReadGap(tag, i, b, gap, out);
    if attributes == [] {
      ReadEnd(tag, i + |gap|, done);
      assert done + DescribedAll(attributes) == done;
    } else {
      var a, rest := attributes[0].attribute, attributes[1..];
      ReadOne(tag, i + |gap|, a, done);
      ReadAll(tag, i + |gap| + |Print(a)|, BehindAttribute(a), rest, tail, if a.InQuotes? then done + [Described(a)]
              else done);
      FinishedIsDescribed(a, done);
      assert done + DescribedAll(attributes) == done + [Described(a)] + DescribedAll(rest);
    }
  }

  lemma FinishedIsDescribed(a: Attribute, out: seq<Delimiter>)
    ensures Finished(BehindAttribute(a), if a.InQuotes? then out + [Described(a)] else out) == out + [Described(a)]
  {
  }

  lemma ReadEnd(tag: string, i: nat, out: seq<Delimiter>)
    requires Follows(tag, i) && tag[i] == '>'
    ensures Tokenize(tag, i, BeforeName, out) == Emitted(out)
  {
  }

  /**
   * The standard reads a printed tag back as the attributes it was printed from, in order, however they
   * are spaced, and the scanner reports their names, lowered, with their quotes.
   */
  lemma PrintedTagsAreReadBack(element: string, attributes: seq<Written>, tail: string, lower: string -> string)
    requires forall i :: 0 <= i < |element| ==> !White(element[i]) && element[i] != '/' && element[i] != '>'
    requires WellWritten(OfName, attributes, tail)
    ensures Standard(PrintTag(element, attributes, tail)) == Emitted(DescribedAll(attributes))
    ensures Scanned(PrintTag(element, attributes, tail), lower) == Named(DescribedAll(attributes), lower)
  {
    hide Tokenize; hide PrintAll; hide At; hide WellWritten;
    var tag, rest := PrintTag(element, attributes, tail), PrintAll(attributes, tail);
    assert At(tag, 0, "<" + (element + rest)) by {
      WholeText(tag);
    }
    AtParts(tag, 0, "<", element + rest);
    AtParts(tag, 1, element, rest);
    AtChars(tag, 1, element);
    RunElement(tag, 1, 1 + |element|);
    ReadAll(tag, 1 + |element|, BehindElement, attributes, tail, []);
    assert [] + DescribedAll(attributes) == DescribedAll(attributes);
  }

  lemma WholeText(tag: string)
    ensures At(tag, 0, tag)
  {
  }
}
