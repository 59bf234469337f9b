/**
  `sql.format` (lua/sql.lua): a template and values become SQL text.  The loops of the source
  are proved against a specification over the pieces of the template, and the output is shown
  to scan into the template's own pieces with one literal for each placeholder.
 */
module SqlFormat {
  import opened Wrappers
  import opened SqlText

  // ---------------------------------------------------------------- values and literals

  predicate IsDigit(c: char) {
    '0' <= c <= '9'
  }

  /** A literal without quotes: it touches nothing that quotes or comments are made of. */
  predicate Word(t: string) {
    t != [] && forall i :: 0 <= i < |t| ==> WordAt(t, i)
  }

  predicate WordAt(t: string, i: nat)
    requires i < |t|
  {
    && !IsQuote(t[i]) && t[i] != '/' && t[i] != '*' && t[i] != '?'
    && (t[i] == '-' ==> i + 1 < |t| && t[i + 1] != '-')
  }

  /** What "%.17g" prints for a finite number, as far as it matters here. */
  predicate Numeral(t: string) {
    Word(t) && forall c <- t :: IsDigit(c) || c in "+-.e"
  }

  type FloatText = t: string | Numeral(t) witness "0"

  datatype Value = Nil | Bool(b: bool) | Integer(n: int) | Float(text: FloatText)
    | NotFinite            // NaN and the infinities
    | Str(s: string)
    | Other                // a table, a function, ...

  function Digit(d: nat): (c: char)
    requires d < 10
    ensures IsDigit(c)
  {
    "0123456789"[d]
  }

  function Digits(n: nat): (t: string)
    ensures t != [] && forall i :: 0 <= i < |t| ==> IsDigit(t[i])
  {
    if n < 10 then [Digit(n)] else Digits(n / 10) + [Digit(n % 10)]
  }

  function IntText(n: int): (t: string)
    ensures Word(t)
  {
    if n < 0 then "-" + Digits(-n) else Digits(n)
  }

  /** A value without quotes: how it is written. */
  function WordOf(v: Value): (t: string)
    requires !v.Str? && !v.NotFinite? && !v.Other?
    ensures Word(t)
  {
    match v
    case Nil => "NULL"
    case Bool(b) => if b then "TRUE" else "FALSE"
    case Integer(n) => IntText(n)
    case Float(text) => text
  }

  /** The literal of a value; None when it is not a SQL value or the connection cannot escape it. */
  function Literal(v: Value, escape: string -> Option<string>): Option<string> {
    match v
    case NotFinite => None
    case Other => None
    case Str(s) => (match escape(s) case None => None case Some(e) => Some("'" + e + "'"))
    case _ => Some(WordOf(v))
  }

  // ---------------------------------------------------------------- what the output is

  function Holes(ps: seq<Piece>): nat {
    if ps == [] then 0 else (if ps[0].Hole? then 1 else 0) + Holes(ps[1..])
  }

  function Prefix(a: string, r: Option<string>): Option<string> {
    match r case None => None case Some(b) => Some(a + b)
  }

  /** Each placeholder becomes the next literal, each doubled question mark one, the rest is copied. */
  function Render(ps: seq<Piece>, values: seq<Value>, escape: string -> Option<string>): Option<string>
    decreases |ps|
  {
    if ps == [] then (if values == [] then Some([]) else None)
    else match ps[0]
      case Tok(_) => Prefix(Source(ps[0]), Render(ps[1..], values, escape))
      case Question => Prefix("?", Render(ps[1..], values, escape))
      case Hole =>
        if values == [] then None
        else match Literal(values[0], escape)
          case None => None
          case Some(t) => Prefix(t, Render(ps[1..], values[1..], escape))
  }

  function Format(template: string, values: seq<Value>, escape: string -> Option<string>): Option<string> {
    match Scan(template, true) case None => None case Some(ps) => Render(ps, values, escape)
  }

  /** A template is rendered piece by piece, each part with its own values. */
  lemma {:induction false} RenderConcat(a: seq<Piece>, b: seq<Piece>, v: seq<Value>, w: seq<Value>,
                                        escape: string -> Option<string>)
    requires Holes(a) == |v|
    ensures var first, second := Render(a, v, escape), Render(b, w, escape);
            Render(a + b, v + w, escape)
            == if first.Some? && second.Some? then Some(first.value + second.value) else None
    decreases |a|
  {
    var second := Render(b, w, escape);
    if a == [] {
      assert a + b == b && v + w == w;
      PrefixNone(second);
    } else {
      assert (a + b)[1..] == a[1..] + b && (a + b)[0] == a[0];
      var mine := if a[0].Hole? then v[1..] else v;
      var t := if a[0].Tok? then Some(Source(a[0])) else if a[0].Question? then Some("?") else Literal(v[0], escape);
      assert a[0].Hole? ==> (v + w)[1..] == v[1..] + w && (v + w)[0] == v[0];
      RenderConcat(a[1..], b, mine, w, escape);
      var first := Render(a[1..], mine, escape);
      if t.Some? && first.Some? && second.Some? {
        assert t.value + (first.value + second.value) == t.value + first.value + second.value;
      }
    }
  }

  lemma PrefixNone(r: Option<string>)
    ensures r.Some? ==> [] + r.value == r.value
  {
  }

  /** One piece: a token is copied, a doubled question mark is one, and a placeholder is the literal of its value. */
  lemma {:induction false} RenderOne(t: Token, v: Value, escape: string -> Option<string>)
    ensures Render([Tok(t)], [], escape) == Some(Source(Tok(t)))
    ensures Render([Question], [], escape) == Some("?")
    ensures Render([Hole], [v], escape) == Literal(v, escape)
  {
    assert [Tok(t)][1..] == [] && [Question][1..] == [] && [Hole][1..] == [] && [v][1..] == [];
    assert Render([], [], escape) == Some([]);
    assert Source(Tok(t)) + [] == Source(Tok(t)) && "?" + [] == "?";
    if Literal(v, escape).Some? { assert Literal(v, escape).value + [] == Literal(v, escape).value; }
  }

  /** When it succeeds: every quote closes, the counts match, and every value has a literal. */
  lemma {:induction false} RenderSucceeds(ps: seq<Piece>, values: seq<Value>, escape: string -> Option<string>)
    ensures Render(ps, values, escape).Some? <==>
              Holes(ps) == |values| && forall v <- values :: Literal(v, escape).Some?
    decreases |ps|
  {
    if ps == [] {
    } else if ps[0].Hole? {
      if values != [] {
        RenderSucceeds(ps[1..], values[1..], escape);
        assert values == [values[0]] + values[1..];
      }
    } else {
      RenderSucceeds(ps[1..], values, escape);
    }
  }

  /** The pieces of a template spell the template, so what is copied is copied unchanged. */
  lemma {:induction false} FormatMeaning(template: string, values: seq<Value>, escape: string -> Option<string>)
    ensures Format(template, values, escape).Some? <==>
              Scan(template, true).Some? && Holes(Scan(template, true).value) == |values|
              && forall v <- values :: Literal(v, escape).Some?
    ensures Scan(template, true).Some? ==> Sources(Scan(template, true).value) == template
  {
    if Scan(template, true).Some? {
      var ps := Scan(template, true).value;
      RenderSucceeds(ps, values, escape);
      ScanExactly(template, ps, true);
    }
  }

  // ---------------------------------------------------------------- how far the scanner gets

  /** The piece at position `a` is `p`, and the scanner goes on at `b`. */
  predicate Cut(t: string, a: nat, p: Piece, b: nat) {
    a < |t| && First(t[a..], true) == Some(p) && b == a + |Source(p)| <= |t|
  }

  /** The scanner stops at each of the positions `cuts` in turn. */
  predicate Trace(t: string, cuts: seq<nat>, ps: seq<Piece>) {
    |cuts| == |ps| + 1 && cuts[0] == 0 && forall i :: 0 <= i < |ps| ==> Cut(t, cuts[i], ps[i], cuts[i + 1])
  }

  /** The scanner gets to position `pos` of the template, with `n` placeholders before it. */
  ghost predicate Reaches(t: string, pos: nat, n: nat) {
    exists cuts, ps :: Trace(t, cuts, ps) && cuts[|ps|] == pos && Holes(ps) == n
  }

  lemma {:induction false} ReachesStart(t: string)
    ensures Reaches(t, 0, 0)
  {
    assert Trace(t, [0], []);
  }

  lemma {:induction false} HolesAppend(ps: seq<Piece>, p: Piece)
    ensures Holes(ps + [p]) == Holes(ps) + if p.Hole? then 1 else 0
  {
    if ps == [] {
      assert [p][1..] == [] && ps + [p] == [p];
    } else {
      assert (ps + [p])[1..] == ps[1..] + [p];
      HolesAppend(ps[1..], p);
    }
  }

  /** It then gets past the piece at that position. */
  lemma {:induction false} ReachesNext(t: string, pos: nat, n: nat, p: Piece, next: nat)
    requires Reaches(t, pos, n) && Cut(t, pos, p, next)
    ensures Reaches(t, next, n + if p.Hole? then 1 else 0)
  {
    var cuts, ps :| Trace(t, cuts, ps) && cuts[|ps|] == pos && Holes(ps) == n;
    HolesAppend(ps, p);
    TraceNext(t, cuts, ps, p, next);
  }

  lemma {:induction false} TraceNext(t: string, cuts: seq<nat>, ps: seq<Piece>, p: Piece, next: nat)
    requires Trace(t, cuts, ps) && Cut(t, cuts[|ps|], p, next)
    ensures Trace(t, cuts + [next], ps + [p]) && (cuts + [next])[|ps + [p]|] == next
  {
    forall i | 0 <= i < |ps| + 1 ensures Cut(t, (cuts + [next])[i], (ps + [p])[i], (cuts + [next])[i + 1]) {
      if i < |ps| { assert Cut(t, cuts[i], ps[i], cuts[i + 1]); }
    }
  }

  lemma {:induction false} ScanCut(t: string, a: nat, p: Piece, b: nat)
    requires Cut(t, a, p, b)
    ensures Scan(t[a..], true).Some? <==> Scan(t[b..], true).Some?
    ensures Scan(t[a..], true).Some? ==> Scan(t[a..], true).value == [p] + Scan(t[b..], true).value
  {
    TailOfTail(t, a, b);
    ScanFirst(t[a..], p, t[b..]);
  }

  lemma {:induction false} ScanFirst(s: string, p: Piece, rest: string)
    requires s != [] && First(s, true) == Some(p) && |Source(p)| <= |s| && s[|Source(p)|..] == rest
    ensures Scan(s, true) == match Scan(rest, true) case None => None case Some(ps) => Some([p] + ps)
  {
  }

  lemma {:induction false} TraceCounts(t: string, cuts: seq<nat>, ps: seq<Piece>, i: nat)
    requires Trace(t, cuts, ps) && i <= |ps| && cuts[i] <= |t| && cuts[|ps|] <= |t|
    ensures Scan(t[cuts[i]..], true).Some? <==> Scan(t[cuts[|ps|]..], true).Some?
    ensures Scan(t[cuts[i]..], true).Some? ==>
              Holes(Scan(t[cuts[i]..], true).value) == Holes(ps[i..]) + Holes(Scan(t[cuts[|ps|]..], true).value)
    decreases |ps| - i
  {
    if i < |ps| {
      assert Cut(t, cuts[i], ps[i], cuts[i + 1]);
      ScanCut(t, cuts[i], ps[i], cuts[i + 1]);
      TraceCounts(t, cuts, ps, i + 1);
      assert ps[i..][1..] == ps[i + 1..];
      if Scan(t[cuts[i + 1]..], true).Some? {
        assert ([ps[i]] + Scan(t[cuts[i + 1]..], true).value)[1..] == Scan(t[cuts[i + 1]..], true).value;
      }
    }
  }

  /** So the whole template scans exactly if the rest does, and has `n` placeholders more. */
  lemma {:induction false} ReachesCounts(t: string, pos: nat, n: nat)
    requires Reaches(t, pos, n)
    ensures pos <= |t| && (Scan(t, true).Some? <==> Scan(t[pos..], true).Some?)
    ensures Scan(t, true).Some? ==> Holes(Scan(t, true).value) == n + Holes(Scan(t[pos..], true).value)
  {
    var cuts, ps :| Trace(t, cuts, ps) && cuts[|ps|] == pos && Holes(ps) == n;
    assert |ps| > 0 ==> Cut(t, cuts[|ps| - 1], ps[|ps| - 1], cuts[|ps| - 1 + 1]);
    TraceCounts(t, cuts, ps, 0);
    assert t[0..] == t && ps[0..] == ps;
  }

  // ---------------------------------------------------------------- the output scans as the template did

  /** Quote doubling, the standard escape. */
  function Double(s: string): string {
    if s == [] then [] else (if s[0] == '\'' then "''" else [s[0]]) + Double(s[1..])
  }

  function DoubleEscape(s: string): Option<string> {
    Some(Double(s))
  }

  /** What a quoted literal means: a doubled quote is one quote. */
  function Undouble(s: string): string {
    if s == [] then []
    else if |s| > 1 && s[0] == '\'' && s[1] == '\'' then ['\''] + Undouble(s[2..])
    else [s[0]] + Undouble(s[1..])
  }

  lemma {:induction false} DoubleDecodes(s: string)
    ensures Undouble(Double(s)) == s
    ensures Close(Double(s) + ['\''], '\'') == Some(|Double(s)|)
  {
    if s != [] {
      DoubleDecodes(s[1..]);
      var d, tail := Double(s), Double(s[1..]);
      if s[0] == '\'' {
        assert d[2..] == tail && (d + ['\''])[2..] == tail + ['\''];
      } else {
        assert d[1..] == tail && (d + ['\''])[1..] == tail + ['\''];
      }
    }
  }

  function DigitsValue(t: string): int {
    if t == [] then 0 else DigitsValue(t[..|t| - 1]) * 10 + (t[|t| - 1] as int - '0' as int)
  }

  lemma {:induction false} DigitsDecode(n: nat)
    ensures DigitsValue(Digits(n)) == n
  {
    if n < 10 {
      assert Digits(n)[..0] == [];
    } else {
      DigitsDecode(n / 10);
      assert Digits(n)[..|Digits(n)| - 1] == Digits(n / 10);
    }
  }

  function IntValue(t: string): int {
    if StartsWith(t, '-') then -DigitsValue(t[1..]) else DigitsValue(t)
  }

  /** The signed decimal numerals. */
  predicate IsNumeral(t: string) {
    var digits := if StartsWith(t, '-') then t[1..] else t;
    digits != [] && forall c <- digits :: IsDigit(c)
  }

  /** What a string or integer literal means is the value it was made of. */
  lemma LiteralDecodes(v: Value)
    ensures v.Str? ==> Literal(v, DoubleEscape) == Some("'" + Double(v.s) + "'") && Undouble(Double(v.s)) == v.s
    ensures v.Integer? ==> Literal(v, DoubleEscape).Some? && IsNumeral(Literal(v, DoubleEscape).value)
                           && IntValue(Literal(v, DoubleEscape).value) == v.n
    ensures v.Float? ==> Literal(v, DoubleEscape).Some? && Literal(v, DoubleEscape).value == v.text
  {
    match v
    case Str(s) => DoubleDecodes(s);
    case Integer(n) =>
      DigitsDecode(if n < 0 then -n else n);
      assert n < 0 ==> IntText(n)[1..] == Digits(-n) && IntText(n)[0] == '-';
      assert n >= 0 ==> IsDigit(Digits(n)[0]);
    case _ =>
  }

  /** The words, and which values they stand for; NaN, the infinities and what is no SQL value have no literal. */
  lemma LiteralWords(v: Value)
    ensures v.Nil? <==> Literal(v, DoubleEscape) == Some("NULL")
    ensures v == Bool(true) <==> Literal(v, DoubleEscape) == Some("TRUE")
    ensures v == Bool(false) <==> Literal(v, DoubleEscape) == Some("FALSE")
    ensures Literal(v, DoubleEscape) == None <==> v.NotFinite? || v.Other?
  {
    match v
    case Str(s) => assert Literal(v, DoubleEscape).value[0] == '\'';
    case Float(text) => assert text[0] in text;
    case Integer(n) =>
      LiteralDecodes(v);
      var t := Literal(v, DoubleEscape).value;
      var digits := if StartsWith(t, '-') then t[1..] else t;
      assert digits[0] in digits;
    case _ =>
  }

  predicate IsSql(v: Value) {
    !v.NotFinite? && !v.Other?
  }

  predicate AllSql(values: seq<Value>) {
    forall i :: 0 <= i < |values| ==> IsSql(values[i])
  }

  function Plains(t: string): (ps: seq<Piece>)
    ensures |ps| == |t|
  {
    if t == [] then [] else [Tok(Plain(t[0]))] + Plains(t[1..])
  }

  /** The literal of a value as pieces: one quoted string, or the characters of a word. */
  function LiteralPieces(v: Value): seq<Piece>
    requires IsSql(v)
  {
    if v.Str? then [Tok(Quoted('\'', Double(v.s)))] else Plains(WordOf(v))
  }

  /** The template's pieces with each placeholder replaced by the next literal. */
  function Filled(ps: seq<Piece>, values: seq<Value>): seq<Piece>
    requires Holes(ps) == |values| && AllSql(values)
    decreases |ps|
  {
    if ps == [] then []
    else match ps[0]
      case Tok(_) => [ps[0]] + Filled(ps[1..], values)
      case Question => [Tok(Plain('?'))] + Filled(ps[1..], values)
      case Hole => LiteralPieces(values[0]) + Filled(ps[1..], values[1..])
  }

  lemma {:induction false} SourcesConcat(a: seq<Piece>, b: seq<Piece>)
    ensures Sources(a + b) == Sources(a) + Sources(b)
  {
    if a == [] {
      assert a + b == b;
    } else {
      assert (a + b)[1..] == a[1..] + b;
      SourcesConcat(a[1..], b);
    }
  }

  lemma {:induction false} SourcesPlains(t: string)
    ensures Sources(Plains(t)) == t
  {
    if t != [] { SourcesPlains(t[1..]); }
  }

  lemma LiteralSources(v: Value)
    requires IsSql(v)
    ensures Literal(v, DoubleEscape) == Some(Sources(LiteralPieces(v)))
  {
    if v.Str? {
      var ps := LiteralPieces(v);
      assert ps[1..] == [] && Sources(ps) == Source(ps[0]);
      assert "'" == ['\''];
    } else {
      SourcesPlains(WordOf(v));
    }
  }

  lemma {:induction false} RenderIsFilled(ps: seq<Piece>, values: seq<Value>)
    requires Holes(ps) == |values| && AllSql(values)
    ensures Render(ps, values, DoubleEscape) == Some(Sources(Filled(ps, values)))
    decreases |ps|
  {
    if ps != [] {
      if ps[0].Hole? {
        LiteralSources(values[0]);
        RenderIsFilled(ps[1..], values[1..]);
        SourcesConcat(LiteralPieces(values[0]), Filled(ps[1..], values[1..]));
      } else {
        RenderIsFilled(ps[1..], values);
        var p := if ps[0].Tok? then ps[0] else Tok(Plain('?'));
        assert Filled(ps, values)[1..] == Filled(ps[1..], values);
      }
    }
  }

  /** The literal of `v` would run into the token before it. */
  predicate RunsInto(t: Token, v: Value) {
    || (t.Quoted? && t.quote == '\'' && v.Str?)
    || (t == Plain('-') && IsSql(v) && !v.Str? && WordOf(v)[0] == '-')
  }

  predicate QuoteNext(ps: seq<Piece>) {
    ps != [] && ps[0].Tok? && ps[0].token.Quoted? && ps[0].token.quote == '\''
  }

  /** No string touches a single quote of the template, and no negative number follows a dash. */
  predicate Safe(ps: seq<Piece>, values: seq<Value>)
    requires Holes(ps) == |values|
    decreases |ps|
  {
    ps == [] ||
    match ps[0]
    case Tok(t) =>
      !(|ps| > 1 && ps[1].Hole? && values != [] && RunsInto(t, values[0])) && Safe(ps[1..], values)
    case Question => Safe(ps[1..], values)
    case Hole => !(values[0].Str? && QuoteNext(ps[1..])) && Safe(ps[1..], values[1..])
  }

  lemma {:induction false} WordTail(t: string)
    requires Word(t)
    ensures |t| == 1 || Word(t[1..])
    ensures WordAt(t, 0)
  {
    forall i | 0 <= i < |t[1..]| ensures WordAt(t[1..], i) {
      assert WordAt(t, i + 1);
    }
  }

  /** Words stand before anything. */
  lemma {:induction false} WordCanonical(t: string, ps: seq<Piece>)
    requires Word(t) || t == []
    ensures Canonical(Plains(t) + ps, false) <==> Canonical(ps, false)
  {
    var all := Plains(t) + ps;
    if t == [] {
      assert all == ps;
    } else {
      assert all[1..] == Plains(t[1..]) + ps;
      WordTail(t);
      WordCanonical(t[1..], ps);
      SourcesConcat(Plains(t[1..]), ps);
      SourcesPlains(t[1..]);
      assert |t| > 1 ==> (t[1..] + Sources(ps))[0] == t[1];
      assert Stands(all[0], Sources(all[1..]), false);
    }
  }

  /** The first character of what follows, before and after filling in. */
  lemma {:induction false} FilledFirst(ps: seq<Piece>, values: seq<Value>)
    requires Holes(ps) == |values| && AllSql(values)
    ensures ps == [] <==> Sources(Filled(ps, values)) == []
    ensures ps == [] <==> Sources(ps) == []
    ensures ps != [] && !ps[0].Hole? ==> Sources(Filled(ps, values))[0] == Sources(ps)[0]
    ensures ps != [] && ps[0].Hole? ==>
              Sources(Filled(ps, values))[0] == if values[0].Str? then '\'' else WordOf(values[0])[0]
  {
    if ps != [] {
      if ps[0].Hole? {
        LiteralSources(values[0]);
        SourcesConcat(LiteralPieces(values[0]), Filled(ps[1..], values[1..]));
      } else {
        assert Filled(ps, values)[0] == if ps[0].Tok? then ps[0] else Tok(Plain('?'));
      }
    }
  }

  /** Filling in keeps the pieces readable exactly when it is safe. */
  lemma {:induction false} FilledCanonical(ps: seq<Piece>, values: seq<Value>)
    requires Canonical(ps, true) && Holes(ps) == |values| && AllSql(values)
    ensures Canonical(Filled(ps, values), false) <==> Safe(ps, values)
    decreases |ps|
  {
    if ps != [] {
      match ps[0]
      case Hole =>
        var later := Filled(ps[1..], values[1..]);
        FilledCanonical(ps[1..], values[1..]);
        if values[0].Str? {
          var lit := Tok(Quoted('\'', Double(values[0].s)));
          DoubleDecodes(values[0].s);
          HoleThenQuote(ps[1..], values[1..]);
          assert Filled(ps, values) == [lit] + later;
          assert Filled(ps, values)[1..] == later;
        } else {
          WordCanonical(WordOf(values[0]), later);
        }
      case Question =>
        FilledCanonical(ps[1..], values);
        assert Filled(ps, values)[1..] == Filled(ps[1..], values);
      case Tok(t) =>
        FilledCanonical(ps[1..], values);
        assert Filled(ps, values)[1..] == Filled(ps[1..], values);
        TokenStands(t, ps[1..], values);
    }
  }

  /** After a placeholder the next thing is a single quote only if it is a quoted string. */
  lemma {:induction false} HoleThenQuote(ps: seq<Piece>, values: seq<Value>)
    requires Canonical(ps, true) && Holes(ps) == |values| && AllSql(values)
    requires !StartsWith(Sources(ps), '?')
    ensures StartsWith(Sources(Filled(ps, values)), '\'') <==> QuoteNext(ps)
  {
    FilledFirst(ps, values);
  }

  lemma {:induction false} TokenStands(t: Token, ps: seq<Piece>, values: seq<Value>)
    requires Stands(Tok(t), Sources(ps), true)
    requires Canonical(ps, true) && Holes(ps) == |values| && AllSql(values)
    ensures Stands(Tok(t), Sources(Filled(ps, values)), false) <==>
              !(ps != [] && ps[0].Hole? && values != [] && RunsInto(t, values[0]))
  {
    FilledFirst(ps, values);
    assert ps != [] && ps[0].Hole? && !values[0].Str? ==> WordAt(WordOf(values[0]), 0);
    var before, after := Sources(ps), Sources(Filled(ps, values));
    StandsBeforeOther(Tok(t), before, before, false);
    StandsBeforeOther(Tok(t), before, after, false);
  }

  /**
    With quote doubling the output scans into the template's own strings, names, comments and
    characters, with one literal for each placeholder, exactly when the template is safe for
    the values.
   */
  lemma {:induction false} FormatKeepsStructure(template: string, ps: seq<Piece>, values: seq<Value>)
    requires Scan(template, true) == Some(ps) && Holes(ps) == |values| && AllSql(values)
    ensures var out := Format(template, values, DoubleEscape);
            out.Some? && (Scan(out.value, false) == Some(Filled(ps, values)) <==> Safe(ps, values))
  {
    RenderIsFilled(ps, values);
    ScanExactly(template, ps, true);
    ScanExactly(Sources(Filled(ps, values)), Filled(ps, values), false);
    FilledCanonical(ps, values);
  }

  // ---------------------------------------------------------------- templates that are safe for all values

  /** A token after which some literal would be read differently. */
  predicate Touchy(t: Token) {
    (t.Quoted? && t.quote == '\'') || t == Plain('-')
  }

  /** No placeholder touches a single quote of the template or directly follows a dash. */
  predicate Spaced(ps: seq<Piece>) {
    ps == [] ||
    match ps[0]
    case Tok(t) => !(|ps| > 1 && ps[1].Hole? && Touchy(t)) && Spaced(ps[1..])
    case Question => Spaced(ps[1..])
    case Hole => !QuoteNext(ps[1..]) && Spaced(ps[1..])
  }

  lemma {:induction false} SpacedIsSafe(ps: seq<Piece>, values: seq<Value>)
    requires Spaced(ps) && Holes(ps) == |values|
    ensures Safe(ps, values)
    decreases |ps|
  {
    if ps != [] {
      SpacedIsSafe(ps[1..], if ps[0].Hole? then values[1..] else values);
    }
  }

  /** Values that clash wherever one can: a negative number after a dash, a string elsewhere. */
  function Worst(ps: seq<Piece>, dash: bool): (values: seq<Value>)
    ensures |values| == Holes(ps) && AllSql(values)
  {
    if ps == [] then []
    else if ps[0].Hole? then [if dash then Integer(-1) else Str("")] + Worst(ps[1..], false)
    else Worst(ps[1..], ps[0] == Tok(Plain('-')))
  }

  lemma {:induction false} WorstIsUnsafe(ps: seq<Piece>, dash: bool)
    requires !Spaced(ps) && !(dash && ps != [] && ps[0].Hole?)
    ensures !Safe(ps, Worst(ps, dash))
    decreases |ps|
  {
    var values := Worst(ps, dash);
    match ps[0]
    case Hole =>
      assert values[1..] == Worst(ps[1..], false);
      if !QuoteNext(ps[1..]) { WorstIsUnsafe(ps[1..], false); }
    case Question => WorstIsUnsafe(ps[1..], false);
    case Tok(t) =>
      if |ps| > 1 && ps[1].Hole? && Touchy(t) {
        assert values == Worst(ps[1..], t == Plain('-'));
        assert IntText(-1)[0] == '-';
      } else {
        WorstIsUnsafe(ps[1..], t == Plain('-'));
      }
  }

  /** The values of a call: as many as there are placeholders, and all of them SQL values. */
  predicate Fits(ps: seq<Piece>, values: seq<Value>) {
    Holes(ps) == |values| && AllSql(values)
  }

  /** The output has the structure of the template. */
  predicate KeepsStructure(template: string, ps: seq<Piece>, values: seq<Value>)
    requires Fits(ps, values)
  {
    var out := Format(template, values, DoubleEscape);
    out.Some? && Scan(out.value, false) == Some(Filled(ps, values))
  }

  /**
    A template keeps its structure for all values exactly when no placeholder touches a single
    quote or directly follows a dash.
   */
  lemma {:induction false} SafeForAllValues(template: string, ps: seq<Piece>)
    requires Scan(template, true) == Some(ps)
    ensures (forall values | Fits(ps, values) :: KeepsStructure(template, ps, values)) <==> Spaced(ps)
  {
    forall values | Fits(ps, values) ensures KeepsStructure(template, ps, values) <==> Safe(ps, values) {
      FormatKeepsStructure(template, ps, values);
    }
    if Spaced(ps) {
      forall values | Fits(ps, values) ensures Safe(ps, values) {
        SpacedIsSafe(ps, values);
      }
    } else {
      WorstIsUnsafe(ps, false);
      assert Fits(ps, Worst(ps, false));
    }
  }

  /** A placeholder right after a dash: the sign of a negative number makes a comment of it. */
  lemma NegativeAfterDash()
    ensures Scan("-?", true) == Some([Tok(Plain('-')), Hole])
    ensures !Safe([Tok(Plain('-')), Hole], [Integer(-1)])
    ensures var out := Format("-?", [Integer(-1)], DoubleEscape);
            out.Some? && Scan(out.value, false) != Some(Filled([Tok(Plain('-')), Hole], [Integer(-1)]))
  {
    var ps, values := [Tok(Plain('-')), Hole], [Integer(-1)];
    assert ps[1..] == [Hole] && ps[1..][1..] == [];
    ScanExactly("-?", ps, true);
    FormatKeepsStructure("-?", ps, values);
  }

  /** A string right after a quoted one: the two quotes between them are read as one inside it. */
  lemma StringAfterQuote(text: string)
    ensures Scan("'a'?", true) == Some([Tok(Quoted('\'', "a")), Hole])
    ensures !Safe([Tok(Quoted('\'', "a")), Hole], [Str(text)])
    ensures var ps := [Tok(Quoted('\'', "a")), Hole];
            var out := Format("'a'?", [Str(text)], DoubleEscape);
            out.Some? && Scan(out.value, false) != Some(Filled(ps, [Str(text)]))
  {
    var ps, values := [Tok(Quoted('\'', "a")), Hole], [Str(text)];
    assert ps[1..] == [Hole] && ps[1..][1..] == [];
    assert Sources(ps) == "'a'?";
    var body := "a" + ['\''];
    assert body[1..] == ['\''] && Close(body, '\'') == Some(1);
    ScanExactly("'a'?", ps, true);
    FormatKeepsStructure("'a'?", ps, values);
  }
}
