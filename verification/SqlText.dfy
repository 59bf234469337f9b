/**
  The text of SQL statements, as `sql.format` sees it (lua/sql.lua): quoted strings and names,
  comments, and everything else character by character.  The same scanner reads a template,
  where `?` is a placeholder and `??` a question mark, and finished SQL text, where `?` is an
  ordinary character.
 */
module SqlText {
  import opened Wrappers

  datatype Token =
    | Plain(c: char)
    | Quoted(quote: char, body: string)   // body: between the quotes, doubled quotes still doubled
    | Line(text: string)                  // text: after the dashes, with the newline that ends it
    | Block(text: string)                 // text: after the two opening characters, with the two that close it

  /** A template is made of tokens, placeholders and doubled question marks. */
  datatype Piece = Tok(token: Token) | Hole | Question

  predicate IsQuote(c: char) {
    c == '\'' || c == '\"' || c == '`'
  }

  predicate StartsWith(s: string, c: char) {
    s != [] && s[0] == c
  }

  /** Where the quote closes, in what follows the opening quote; a doubled quote stays inside. */
  function Close(s: string, quote: char): (r: Option<nat>)
    ensures r.Some? ==> r.value < |s| && s[r.value] == quote
    decreases |s|
  {
    if s == [] then None
    else if s[0] != quote then
      (match Close(s[1..], quote) case None => None case Some(k) => Some(k + 1))
    else if |s| > 1 && s[1] == quote then
      (match Close(s[2..], quote) case None => None case Some(k) => Some(k + 2))
    else Some(0)
  }

  /** How much of what follows two dashes belongs to the comment. */
  function LineLength(s: string): (n: nat)
    ensures n <= |s|
  {
    if s == [] then 0 else if s[0] == '\n' then 1 else 1 + LineLength(s[1..])
  }

  /** How much of what follows the opening of a block comment belongs to it. */
  function BlockLength(s: string): (n: nat)
    ensures n <= |s|
  {
    if |s| < 2 then |s|
    else if s[0] == '*' && s[1] == '/' then 2
    else 1 + BlockLength(s[1..])
  }

  /** The first piece of a non-empty text; None when a quote is never closed. */
  function First(s: string, holes: bool): Option<Piece>
    requires s != []
  {
    if holes && s[0] == '?' then Some(if |s| > 1 && s[1] == '?' then Question else Hole)
    else if IsQuote(s[0]) then
      (match Close(s[1..], s[0]) case None => None case Some(k) => Some(Tok(Quoted(s[0], s[1..][..k]))))
    else if s[0] == '-' && |s| > 1 && s[1] == '-' then Some(Tok(Line(s[2..][..LineLength(s[2..])])))
    else if s[0] == '/' && |s| > 1 && s[1] == '*' then Some(Tok(Block(s[2..][..BlockLength(s[2..])])))
    else Some(Tok(Plain(s[0])))
  }

  /** What a piece stands for in the template. */
  function Source(p: Piece): (s: string)
    ensures s != []
  {
    match p
    case Hole => "?"
    case Question => "??"
    case Tok(Plain(c)) => [c]
    case Tok(Quoted(quote, body)) => [quote] + body + [quote]
    case Tok(Line(text)) => "--" + text
    case Tok(Block(text)) => "/*" + text
  }

  function Sources(ps: seq<Piece>): string {
    if ps == [] then [] else Source(ps[0]) + Sources(ps[1..])
  }

  lemma {:induction false} FirstIsPrefix(s: string, holes: bool)
    requires s != [] && First(s, holes).Some?
    ensures var t := Source(First(s, holes).value); |t| <= |s| && s[..|t|] == t
  {
    if !(holes && s[0] == '?') {
      if IsQuote(s[0]) {
        var k := Close(s[1..], s[0]).value;
        assert s[..k + 2] == [s[0]] + s[1..][..k] + [s[0]];
      } else if s[0] == '-' && |s| > 1 && s[1] == '-' {
        var n := LineLength(s[2..]);
        assert s[..n + 2] == "--" + s[2..][..n];
      } else if s[0] == '/' && |s| > 1 && s[1] == '*' {
        var n := BlockLength(s[2..]);
        assert s[..n + 2] == "/*" + s[2..][..n];
      }
    }
  }

  /** The pieces of a text, or None when a quote is never closed. */
  function Scan(s: string, holes: bool): Option<seq<Piece>>
    decreases |s|
  {
    if s == [] then Some([])
    else
      match First(s, holes)
      case None => None
      case Some(p) =>
        FirstIsPrefix(s, holes);
        (match Scan(s[|Source(p)|..], holes) case None => None case Some(ps) => Some([p] + ps))
  }

  // ---------------------------------------------------------------- which pieces scan as themselves

  /** A piece that the scanner can produce in front of `rest`. */
  predicate Stands(p: Piece, rest: string, holes: bool) {
    match p
    case Hole => holes && !StartsWith(rest, '?')
    case Question => holes
    case Tok(Plain(c)) =>
      !IsQuote(c) && !(holes && c == '?') && !(c == '-' && StartsWith(rest, '-')) && !(c == '/' && StartsWith(rest, '*'))
    case Tok(Quoted(quote, body)) =>
      IsQuote(quote) && Close(body + [quote], quote) == Some(|body|) && !StartsWith(rest, quote)
    case Tok(Line(text)) => LineLength(text + rest) == |text|
    case Tok(Block(text)) => BlockLength(text + rest) == |text|
  }

  predicate Canonical(ps: seq<Piece>, holes: bool) {
    ps == [] || (Stands(ps[0], Sources(ps[1..]), holes) && Canonical(ps[1..], holes))
  }

  /** A quote that closes at the end of `s` still closes there when something else follows. */
  lemma {:induction false} CloseThenMore(s: string, quote: char, rest: string)
    ensures Close(s, quote).Some? && (Close(s, quote).value < |s| - 1 || !StartsWith(rest, quote)) ==>
              Close(s + rest, quote) == Close(s, quote)
    decreases |s|
  {
    if s == [] {
    } else if s[0] != quote {
      assert (s + rest)[1..] == s[1..] + rest;
      CloseThenMore(s[1..], quote, rest);
    } else if |s| > 1 && s[1] == quote {
      assert (s + rest)[2..] == s[2..] + rest;
      CloseThenMore(s[2..], quote, rest);
    }
  }

  /** What is before the closing quote closes there by itself, and no quote follows it. */
  lemma {:induction false} CloseBefore(s: string, quote: char)
    requires Close(s, quote).Some?
    ensures var k := Close(s, quote).value;
            Close(s[..k] + [quote], quote) == Some(k) && !StartsWith(s[k + 1..], quote)
    decreases |s|
  {
    var n := Front(s, quote);
    if n == 0 {
      assert s[..0] + [quote] == [quote];
    } else {
      CloseBefore(s[n..], quote);
      CloseFront(s[..n], s[n..], quote);
      assert s[..n] + s[n..] == s;
      FrontStays(s, quote, n, Close(s[n..], quote).value);
    }
  }

  /** How much the search passes over in one step: a character that is no quote, or two that are; 0 where it stops. */
  function Front(s: string, quote: char): (n: nat)
    ensures n <= |s|
  {
    if s == [] then 0 else if s[0] != quote then 1 else if |s| > 1 && s[1] == quote then 2 else 0
  }

  predicate Passed(front: string, quote: char) {
    (|front| == 1 && front[0] != quote) || (|front| == 2 && front[0] == quote == front[1])
  }

  lemma CloseFront(front: string, rest: string, quote: char)
    requires Passed(front, quote)
    ensures Close(front + rest, quote) == match Close(rest, quote) case None => None case Some(k) => Some(k + |front|)
  {
    assert (front + rest)[|front|..] == rest;
  }

  /** `k`: where the quote closes in what comes after the front. */
  lemma FrontStays(s: string, quote: char, n: nat, k: nat)
    requires n <= |s| && Passed(s[..n], quote) && k < |s| - n
    requires Close(s[n..][..k] + [quote], quote) == Some(k) && !StartsWith(s[n..][k + 1..], quote)
    ensures Close(s[..k + n] + [quote], quote) == Some(k + n) && !StartsWith(s[k + n + 1..], quote)
  {
    assert s[..k + n] + [quote] == s[..n] + (s[n..][..k] + [quote]);
    assert s[n..][k + 1..] == s[k + n + 1..];
    CloseFront(s[..n], s[n..][..k] + [quote], quote);
  }

  lemma {:induction false} FirstStands(s: string, holes: bool)
    requires s != [] && First(s, holes).Some?
    ensures var p := First(s, holes).value; |Source(p)| <= |s| && Stands(p, s[|Source(p)|..], holes)
  {
    FirstIsPrefix(s, holes);
    var p := First(s, holes).value;
    var rest := s[|Source(p)|..];
    if p.Tok? {
      match p.token
      case Plain(c) =>
      case Quoted(quote, body) =>
        CloseBefore(s[1..], quote);
        assert s[1..][|body| + 1..] == rest;
      case Line(text) => assert text + rest == s[2..];
      case Block(text) => assert text + rest == s[2..];
    }
  }

  lemma {:induction false} StandsFirst(p: Piece, rest: string, holes: bool)
    requires Stands(p, rest, holes)
    ensures First(Source(p) + rest, holes) == Some(p)
  {
    if p.Tok? && p.token.Quoted? {
      QuotedFirst(p.token.quote, p.token.body, rest, holes);
    } else if p.Tok? && p.token.Line? {
      assert (Source(p) + rest)[2..] == p.token.text + rest;
    } else if p.Tok? && p.token.Block? {
      assert (Source(p) + rest)[2..] == p.token.text + rest;
    }
  }

  lemma {:induction false} QuotedFirst(quote: char, body: string, rest: string, holes: bool)
    requires Stands(Tok(Quoted(quote, body)), rest, holes)
    ensures First(Source(Tok(Quoted(quote, body))) + rest, holes) == Some(Tok(Quoted(quote, body)))
  {
    var s := Source(Tok(Quoted(quote, body))) + rest;
    assert s[1..] == body + [quote] + rest;
    CloseThenMore(body + [quote], quote, rest);
    assert s[1..][..|body|] == body;
  }

  /**
    A text scans into exactly one list of pieces: the one whose pieces give the text and of
    which each can stand before the next.
   */
  lemma {:induction false} ScanExactly(s: string, ps: seq<Piece>, holes: bool)
    ensures Scan(s, holes) == Some(ps) <==> Sources(ps) == s && Canonical(ps, holes)
    decreases |s| + |ps|
  {
    if s == [] {
    } else if ps == [] {
    } else {
      var rest := Sources(ps[1..]);
      assert [ps[0]] + ps[1..] == ps;
      if Sources(ps) == s && Canonical(ps, holes) {
        StandsFirst(ps[0], rest, holes);
        assert s[|Source(ps[0])|..] == rest;
        ScanExactly(rest, ps[1..], holes);
      }
      if Scan(s, holes) == Some(ps) {
        FirstStands(s, holes);
        FirstIsPrefix(s, holes);
        var t := s[|Source(ps[0])|..];
        ScanExactly(t, ps[1..], holes);
      }
    }
  }

  // ---------------------------------------------------------------- pieces before another text

  lemma {:induction false} LineBeforeOther(text: string, rest: string, other: string)
    requires LineLength(text + rest) == |text| && (rest == [] ==> other == [])
    ensures LineLength(text + other) == |text|
    decreases |text|
  {
    if text != [] && text[0] != '\n' {
      assert (text + rest)[1..] == text[1..] + rest && (text + other)[1..] == text[1..] + other;
      LineBeforeOther(text[1..], rest, other);
    }
  }

  lemma {:induction false} BlockBeforeOther(text: string, rest: string, other: string)
    requires BlockLength(text + rest) == |text| && (rest == [] ==> other == [])
    ensures BlockLength(text + other) == |text|
    decreases |text|
  {
    if rest != [] && text != [] && !(|text| >= 2 && text[0] == '*' && text[1] == '/') {
      assert (text + rest)[1..] == text[1..] + rest && (text + other)[1..] == text[1..] + other;
      BlockBeforeOther(text[1..], rest, other);
    }
  }

  /** The characters after which a piece would be read differently. */
  predicate Clashes(p: Piece, next: char) {
    match p
    case Tok(Plain(c)) => (c == '-' && next == '-') || (c == '/' && next == '*')
    case Tok(Quoted(quote, _)) => next == quote
    case Hole => next == '?'
    case _ => false
  }

  /** A piece that stands before one text stands before another, unless its first character clashes. */
  lemma {:induction false} StandsBeforeOther(p: Piece, rest: string, other: string, holes: bool)
    requires Stands(p, rest, holes) && (rest == [] ==> other == [])
    ensures Stands(p, other, holes) <==> other == [] || !Clashes(p, other[0])
  {
    match p
    case Tok(Line(text)) => LineBeforeOther(text, rest, other);
    case Tok(Block(text)) => BlockBeforeOther(text, rest, other);
    case _ =>
  }

  // ---------------------------------------------------------------- what is not a placeholder

  /** Between two quotes of the same kind nothing is special but that quote. */
  lemma {:induction false} InsideQuotes(quote: char, body: string, rest: string, holes: bool)
    requires quote in "'\"`" && quote !in body && !StartsWith(rest, quote)
    ensures First([quote] + body + [quote] + rest, holes) == Some(Tok(Quoted(quote, body)))
  {
    var s := [quote] + body + [quote] + rest;
    assert s[1..] == body + ([quote] + rest);
    ClosesAfter(body, quote, rest);
    assert s[1..][..|body|] == body;
  }

  lemma {:induction false} ClosesAfter(body: string, quote: char, rest: string)
    requires quote !in body && !StartsWith(rest, quote)
    ensures Close(body + ([quote] + rest), quote) == Some(|body|)
  {
    var s := body + ([quote] + rest);
    if body == [] {
      assert s == [quote] + rest;
    } else {
      assert s[0] == body[0] && body[0] in body && s[1..] == body[1..] + ([quote] + rest);
      assert forall c <- body[1..] :: c in body;
      ClosesAfter(body[1..], quote, rest);
    }
  }

  /** A line comment goes to the end of its line, and a block comment to the first mark that ends it. */
  lemma {:induction false} InsideLine(text: string, rest: string, holes: bool)
    requires '\n' !in text
    ensures First("--" + text + "\n" + rest, holes) == Some(Tok(Line(text + "\n")))
  {
    var s := "--" + text + "\n" + rest;
    assert s[2..] == text + ("\n" + rest);
    LineEnds(text, rest);
    assert s[2..][..|text| + 1] == text + "\n";
  }

  lemma {:induction false} LineEnds(text: string, rest: string)
    requires '\n' !in text
    ensures LineLength(text + ("\n" + rest)) == |text| + 1
  {
    if text == [] {
      assert text + ("\n" + rest) == "\n" + rest;
    } else {
      assert (text + ("\n" + rest))[0] == text[0] && text[0] in text;
      assert (text + ("\n" + rest))[1..] == text[1..] + ("\n" + rest);
      assert forall c <- text[1..] :: c in text;
      LineEnds(text[1..], rest);
    }
  }

  /** The mark that ends a block comment comes after `text` and not before. */
  predicate EndsAfter(text: string) {
    forall i :: 0 <= i < |text| ==> !((text + "*/")[i] == '*' && (text + "*/")[i + 1] == '/')
  }

  lemma {:induction false} InsideBlock(text: string, rest: string, holes: bool)
    requires EndsAfter(text)
    ensures First("/*" + text + "*/" + rest, holes) == Some(Tok(Block(text + "*/")))
  {
    var s := "/*" + text + "*/" + rest;
    assert s[2..] == text + ("*/" + rest);
    BlockEnds(text, rest);
    assert s[2..][..|text| + 2] == text + "*/";
  }

  lemma {:induction false} BlockEnds(text: string, rest: string)
    requires EndsAfter(text)
    ensures BlockLength(text + ("*/" + rest)) == |text| + 2
  {
    var s := text + ("*/" + rest);
    if text == [] {
      assert s == "*/" + rest;
    } else {
      assert s[0] == (text + "*/")[0] && s[1] == (text + "*/")[1] && s[1..] == text[1..] + ("*/" + rest);
      forall i | 0 <= i < |text[1..]|
        ensures !((text[1..] + "*/")[i] == '*' && (text[1..] + "*/")[i + 1] == '/')
      {
        assert (text[1..] + "*/")[i] == (text + "*/")[i + 1] && (text[1..] + "*/")[i + 1] == (text + "*/")[i + 1 + 1];
      }
      BlockEnds(text[1..], rest);
    }
  }

  /** Elsewhere a question mark is a placeholder, two are one question mark, and any other character is itself. */
  lemma {:induction false} Elsewhere(c: char, rest: string)
    requires c !in "?'\"`-/"
    ensures First([c] + rest, true) == Some(Tok(Plain(c)))
    ensures First("??" + rest, true) == Some(Question)
    ensures !StartsWith(rest, '?') ==> First("?" + rest, true) == Some(Hole)
    ensures !StartsWith(rest, '-') ==> First("-" + rest, true) == Some(Tok(Plain('-')))
    ensures !StartsWith(rest, '*') ==> First("/" + rest, true) == Some(Tok(Plain('/')))
  {
    assert forall d <- "?'\"`-/" :: d != c;
    assert '?' in "?'\"`-/" && '\'' in "?'\"`-/" && '\"' in "?'\"`-/" && '`' in "?'\"`-/" && '-' in "?'\"`-/" && '/' in "?'\"`-/";
  }
}
