/**
  The loops of lua/sql.lua: `skip_quoted` and `sql.format` walk the template by position and
  collect the output as they go.  Positions count from 0 here and from 1 in Lua.
 */
module SqlFormatter {
  import opened Wrappers
  import opened SqlText
  import opened SqlFormat

  datatype Error =
    | NotClosed(position: nat)                 // a quote that is never closed
    | MorePlaceholders                         // more placeholders than values
    | NotSql(index: nat)                       // a value that has no literal
    | FewerPlaceholders(used: nat)             // fewer placeholders than values

  datatype Result = Ok(text: string) | Err(error: Error)

  predicate Special(c: char) {
    c == '?' || IsQuote(c) || c == '/' || c == '-'
  }

  function Shift(r: Option<nat>, n: nat): Option<nat> {
    match r case None => None case Some(k) => Some(k + n)
  }

  /** One round of the search for the closing quote. */
  lemma {:induction false} CloseRound(s: string, quote: char, close: nat, next: nat)
    requires close < next <= |s| && (next < |s| ==> s[next] == quote)
    requires forall i :: close + 1 <= i < next ==> s[i] != quote
    ensures Shift(Close(s[close + 1..], quote), close + 1)
            == if next == |s| then None
               else if next + 1 < |s| && s[next + 1] == quote then Shift(Close(s[next + 2..], quote), next + 2)
               else Some(next)
  {
    SkipTo(s, quote, close + 1, next);
    CloseHere(s, quote, next);
  }

  lemma {:induction false} SkipTo(s: string, quote: char, from: nat, next: nat)
    requires from <= next <= |s| && forall i :: from <= i < next ==> s[i] != quote
    ensures Shift(Close(s[from..], quote), from) == Shift(Close(s[next..], quote), next)
    decreases next - from
  {
    if from < next {
      TailOfTail(s, from, from + 1);
      SkipTo(s, quote, from + 1, next);
    }
  }

  lemma {:induction false} CloseHere(s: string, quote: char, next: nat)
    requires next <= |s| && (next < |s| ==> s[next] == quote)
    ensures Shift(Close(s[next..], quote), next)
            == if next == |s| then None
               else if next + 1 < |s| && s[next + 1] == quote then Shift(Close(s[next + 2..], quote), next + 2)
               else Some(next)
  {
    if next + 1 < |s| { TailOfTail(s, next, next + 2); }
  }

  /** The first place of `c` from `from` on, or the length of the text. */
  method Find(s: string, c: char, from: nat) returns (k: nat)
    requires from <= |s|
    ensures from <= k <= |s| && (k < |s| ==> s[k] == c)
    ensures forall i :: from <= i < k ==> s[i] != c
  {
    k := from;
    while k < |s| && s[k] != c
      invariant from <= k <= |s|
      invariant forall i :: from <= i < k ==> s[i] != c
    {
      k := k + 1;
    }
  }

  /** The position of the character that closes the quote at `start`. */
  method SkipQuoted(s: string, start: nat) returns (r: Option<nat>)
    requires start < |s|
    ensures r == Shift(Close(s[start + 1..], s[start]), start + 1)
  {
    var quote := s[start];
    var close := start;
    ghost var goal := Shift(Close(s[start + 1..], quote), start + 1);
    while true
      invariant start <= close < |s|
      invariant goal == Shift(Close(s[close + 1..], quote), close + 1)
      decreases |s| - close
    {
      var next := Find(s, quote, close + 1);
      CloseRound(s, quote, close, next);
      if next == |s| {
        return None;
      }
      if !(next + 1 < |s| && s[next + 1] == quote) {
        return Some(next);
      }
      close := next + 1;      // a doubled quote stays inside
    }
  }

  /** The end of the line comment whose text starts at `from`. */
  method SkipLine(s: string, from: nat) returns (stop: nat)
    requires from <= |s|
    ensures stop == from + LineLength(s[from..]) <= |s|
  {
    stop := from;
    while stop < |s|
      invariant from <= stop <= |s|
      invariant from + LineLength(s[from..]) == stop + LineLength(s[stop..])
    {
      assert s[stop..][1..] == s[stop + 1..];
      stop := stop + 1;
      if s[stop - 1] == '\n' {
        return;
      }
    }
  }

  /** The end of the block comment whose text starts at `from`. */
  method SkipBlock(s: string, from: nat) returns (stop: nat)
    requires from <= |s|
    ensures stop == from + BlockLength(s[from..]) <= |s|
  {
    stop := from;
    while stop + 1 < |s|
      invariant from <= stop <= |s|
      invariant from + BlockLength(s[from..]) == stop + BlockLength(s[stop..])
    {
      assert s[stop..][1..] == s[stop + 1..];
      if s[stop] == '*' && s[stop + 1] == '/' {
        return stop + 2;
      }
      stop := stop + 1;
    }
    stop := |s|;
  }

  // ---------------------------------------------------------------- one step of the loop

  lemma {:induction false} PrefixPrefix(a: string, b: string, r: Option<string>)
    ensures Prefix(a, Prefix(b, r)) == Prefix(a + b, r)
  {
    if r.Some? { assert a + (b + r.value) == a + b + r.value; }
  }

  /** The first piece of a text and its contribution to the output. */
  lemma {:induction false} FormatStep(s: string, p: Piece, values: seq<Value>, escape: string -> Option<string>)
    requires s != [] && First(s, true) == Some(p)
    ensures |Source(p)| <= |s|
    ensures var rest := s[|Source(p)|..];
            Format(s, values, escape)
            == match p
               case Tok(_) => Prefix(Source(p), Format(rest, values, escape))
               case Question => Prefix("?", Format(rest, values, escape))
               case Hole =>
                 if values == [] || Literal(values[0], escape).None? then None
                 else Prefix(Literal(values[0], escape).value, Format(rest, values[1..], escape))
  {
    FirstIsPrefix(s, true);
    var rest := s[|Source(p)|..];
    if Scan(rest, true).Some? {
      var ps := Scan(rest, true).value;
      assert ([p] + ps)[1..] == ps;
    }
  }

  /** Ordinary characters are copied. */
  lemma {:induction false} FormatCopies(t: string, pos: nat, start: nat, values: seq<Value>, escape: string -> Option<string>)
    requires pos <= start <= |t| && forall i :: pos <= i < start ==> !Special(t[i])
    ensures Format(t[pos..], values, escape) == Prefix(t[pos..start], Format(t[start..], values, escape))
    decreases start - pos
  {
    if pos == start {
      PrefixNothing(Format(t[pos..], values, escape));
    } else {
      FormatPlain(t, pos, values, escape);
      FormatCopies(t, pos + 1, start, values, escape);
      assert [t[pos]] + t[pos + 1..start] == t[pos..start];
      PrefixPrefix([t[pos]], t[pos + 1..start], Format(t[start..], values, escape));
    }
  }

  lemma {:induction false} FormatPlain(t: string, pos: nat, values: seq<Value>, escape: string -> Option<string>)
    requires pos < |t| && !Special(t[pos])
    ensures Format(t[pos..], values, escape) == Prefix([t[pos]], Format(t[pos + 1..], values, escape))
  {
    TailOfTail(t, pos, pos + 1);
    FormatStep(t[pos..], Tok(Plain(t[pos])), values, escape);
  }

  lemma PrefixNothing(r: Option<string>)
    ensures Prefix([], r) == r
  {
    if r.Some? { assert [] + r.value == r.value; }
  }

  // ---------------------------------------------------------------- what the loop keeps

  /** The output, when `out` is written and the template is read up to `pos`. */
  function Goal(out: string, t: string, pos: nat, values: seq<Value>, used: nat, escape: string -> Option<string>)
    : Option<string>
    requires pos <= |t| && used <= |values|
  {
    Prefix(out, Format(t[pos..], values[used..], escape))
  }

  /** The first `n` values are SQL values. */
  predicate AllLiteral(values: seq<Value>, n: nat, escape: string -> Option<string>)
    requires n <= |values|
  {
    forall i :: 0 <= i < n ==> Literal(values[i], escape).Some?
  }

  /** The scanner is at `pos`, after `used` placeholders, and all is well so far. */
  ghost predicate Fine(t: string, pos: nat, values: seq<Value>, used: nat, escape: string -> Option<string>) {
    pos <= |t| && used <= |values| && Reaches(t, pos, used) && AllLiteral(values, used, escape)
  }

  ghost predicate Going(goal: Option<string>, out: string, t: string, pos: nat, values: seq<Value>, used: nat,
                  escape: string -> Option<string>) {
    Fine(t, pos, values, used, escape) && goal == Goal(out, t, pos, values, used, escape)
  }

  /** The scanner comes to placeholder number `n + 1`, and all is well before it. */
  ghost predicate FineUpToHole(t: string, values: seq<Value>, n: nat, escape: string -> Option<string>) {
    exists p: nat :: Fine(t, p, values, n, escape) && p < |t| && First(t[p..], true) == Some(Hole)
  }

  /** What is wrong, and that it is the first thing that is. */
  ghost predicate Wrong(t: string, values: seq<Value>, escape: string -> Option<string>, error: Error) {
    match error
    case NotClosed(p) =>
      p < |t| && IsQuote(t[p]) && Close(t[p + 1..], t[p]) == None && exists n: nat :: Fine(t, p, values, n, escape)
    case NotSql(i) => i < |values| && Literal(values[i], escape) == None && FineUpToHole(t, values, i, escape)
    case MorePlaceholders => FineUpToHole(t, values, |values|, escape)
    case FewerPlaceholders(n) => n < |values| && Fine(t, |t|, values, n, escape)
  }

  /** What that means for the template as a whole. */
  lemma {:induction false} ErrorMeaning(t: string, values: seq<Value>, escape: string -> Option<string>, error: Error)
    requires Wrong(t, values, escape, error)
    ensures error.NotClosed? ==> Scan(t, true) == None
    ensures error.MorePlaceholders? && Scan(t, true).Some? ==> Holes(Scan(t, true).value) > |values|
    ensures error.FewerPlaceholders? ==> Scan(t, true).Some? && Holes(Scan(t, true).value) == error.used < |values|
  {
    match error
    case NotClosed(p) =>
      var n: nat :| Fine(t, p, values, n, escape);
      ReachesCounts(t, p, n);
      assert t[p..][1..] == t[p + 1..];
    case MorePlaceholders =>
      var p: nat :| Fine(t, p, values, |values|, escape) && p < |t| && First(t[p..], true) == Some(Hole);
      ReachesCounts(t, p, |values|);
      var rest := t[p..];
      FirstIsPrefix(rest, true);
      assert Scan(rest, true).Some? ==> Scan(rest, true).value[0] == Hole;
    case FewerPlaceholders(n) =>
      ReachesCounts(t, |t|, n);
      assert t[|t|..] == [];
    case NotSql(_) =>
  }

  lemma {:induction false} ReachesRun(t: string, pos: nat, start: nat, n: nat)
    requires Reaches(t, pos, n) && pos <= start <= |t| && forall i :: pos <= i < start ==> !Special(t[i])
    ensures Reaches(t, start, n)
    decreases start - pos
  {
    if pos < start {
      PlainCut(t, pos);
      ReachesNext(t, pos, n, Tok(Plain(t[pos])), pos + 1);
      ReachesRun(t, pos + 1, start, n);
    }
  }

  lemma PlainCut(t: string, pos: nat)
    requires pos < |t| && !Special(t[pos])
    ensures Cut(t, pos, Tok(Plain(t[pos])), pos + 1)
  {
  }

  // ---------------------------------------------------------------- one round of the loop

  lemma {:induction false} Starts(t: string, values: seq<Value>, escape: string -> Option<string>)
    ensures Going(Format(t, values, escape), [], t, 0, values, 0, escape)
  {
    ReachesStart(t);
    assert t[0..] == t && values[0..] == values;
    PrefixNothing(Format(t, values, escape));
  }

  /** The run of ordinary characters between `pos` and `start`. */
  lemma {:induction false} CopyRun(goal: Option<string>, out: string, t: string, pos: nat, start: nat,
                                   values: seq<Value>, used: nat, escape: string -> Option<string>)
    requires Going(goal, out, t, pos, values, used, escape)
    requires pos <= start <= |t| && forall i :: pos <= i < start ==> !Special(t[i])
    ensures Going(goal, out + t[pos..start], t, start, values, used, escape)
  {
    ReachesRun(t, pos, start, used);
    FormatCopies(t, pos, start, values[used..], escape);
    PrefixPrefix(out, t[pos..start], Format(t[start..], values[used..], escape));
  }

  /** The piece between `start` and `stop`. */
  lemma {:induction false} CopyPiece(goal: Option<string>, out: string, t: string, start: nat, stop: nat, p: Piece,
                                     values: seq<Value>, used: nat, escape: string -> Option<string>)
    requires Going(goal, out, t, start, values, used, escape)
    requires start < |t| && First(t[start..], true) == Some(p) && !p.Hole? && stop == start + |Source(p)| <= |t|
    ensures Going(goal, out + if p.Question? then "?" else Source(p), t, stop, values, used, escape)
  {
    ReachesNext(t, start, used, p, stop);
    FormatStep(t[start..], p, values[used..], escape);
    TailOfTail(t, start, stop);
    PrefixPrefix(out, if p.Question? then "?" else Source(p), Format(t[stop..], values[used..], escape));
  }

  /** The placeholder at `start` takes value number `used`. */
  lemma {:induction false} FillHole(goal: Option<string>, out: string, t: string, start: nat, values: seq<Value>,
                                    used: nat, escape: string -> Option<string>)
    requires Going(goal, out, t, start, values, used, escape) && start < |t| && First(t[start..], true) == Some(Hole)
    ensures if used == |values| then goal == None && Wrong(t, values, escape, MorePlaceholders)
            else if Literal(values[used], escape).None? then goal == None && Wrong(t, values, escape, NotSql(used))
            else Going(goal, out + Literal(values[used], escape).value, t, start + 1, values, used + 1, escape)
  {
    assert FineUpToHole(t, values, used, escape);
    FormatStep(t[start..], Hole, values[used..], escape);
    assert t[start..][1..] == t[start + 1..];
    if used < |values| && Literal(values[used], escape).Some? {
      ReachesNext(t, start, used, Hole, start + 1);
      assert values[used..][1..] == values[used + 1..];
      PrefixPrefix(out, Literal(values[used], escape).value, Format(t[start + 1..], values[used + 1..], escape));
    }
  }

  lemma {:induction false} Unclosed(goal: Option<string>, out: string, t: string, start: nat, values: seq<Value>,
                                    used: nat, escape: string -> Option<string>)
    requires Going(goal, out, t, start, values, used, escape) && start < |t| && First(t[start..], true) == None
    ensures goal == None && Wrong(t, values, escape, NotClosed(start))
  {
    assert t[start..][1..] == t[start + 1..];
  }

  lemma {:induction false} Ends(goal: Option<string>, out: string, t: string, values: seq<Value>, used: nat,
                                escape: string -> Option<string>)
    requires Going(goal, out, t, |t|, values, used, escape)
    ensures if used == |values| then goal == Some(out)
            else goal == None && Wrong(t, values, escape, FewerPlaceholders(used))
  {
    assert t[|t|..] == [] && Scan([], true) == Some([]);
    assert out + [] == out;
  }

  // ---------------------------------------------------------------- sql.format

  method FindSpecial(s: string, from: nat) returns (k: nat)
    requires from <= |s|
    ensures from <= k <= |s| && (k < |s| ==> Special(s[k]))
    ensures forall i :: from <= i < k ==> !Special(s[i])
  {
    k := from;
    while k < |s| && !Special(s[k])
      invariant from <= k <= |s|
      invariant forall i :: from <= i < k ==> !Special(s[i])
    {
      k := k + 1;
    }
  }

  lemma {:induction false} QuotedAt(t: string, start: nat)
    requires start < |t| && IsQuote(t[start])
    ensures First(t[start..], true)
            == match Close(t[start + 1..], t[start])
               case None => None
               case Some(k) => Some(Tok(Quoted(t[start], t[start + 1..start + 1 + k])))
  {
    TailOfTail(t, start, start + 1);
    var close := Close(t[start + 1..], t[start]);
    if close.Some? { PartOfTail(t, start + 1, start + 1 + close.value); }
  }

  lemma {:induction false} LineAt(t: string, start: nat)
    requires start + 1 < |t| && t[start] == '-' && t[start + 1] == '-'
    ensures var stop := start + 2 + LineLength(t[start + 2..]);
            First(t[start..], true) == Some(Tok(Line(t[start + 2..stop])))
  {
    TailOfTail(t, start, start + 2);
    PartOfTail(t, start + 2, start + 2 + LineLength(t[start + 2..]));
  }

  lemma {:induction false} BlockAt(t: string, start: nat)
    requires start + 1 < |t| && t[start] == '/' && t[start + 1] == '*'
    ensures var stop := start + 2 + BlockLength(t[start + 2..]);
            First(t[start..], true) == Some(Tok(Block(t[start + 2..stop])))
  {
    TailOfTail(t, start, start + 2);
    PartOfTail(t, start + 2, start + 2 + BlockLength(t[start + 2..]));
  }

  /** The piece at `start` and where it stops. */
  method NextPiece(t: string, start: nat) returns (r: Option<(Piece, nat)>)
    requires start < |t|
    ensures r.None? <==> First(t[start..], true).None?
    ensures r.Some? ==> First(t[start..], true) == Some(r.value.0) && r.value.1 == start + |Source(r.value.0)| <= |t|
  {
    if t[start] == '?' {
      return Some(if start + 1 < |t| && t[start + 1] == '?' then (Question, start + 2) else (Hole, start + 1));
    }
    if IsQuote(t[start]) {
      r := NextQuoted(t, start);
    } else {
      r := NextComment(t, start);
    }
  }

  method NextQuoted(t: string, start: nat) returns (r: Option<(Piece, nat)>)
    requires start < |t| && IsQuote(t[start])
    ensures r.None? <==> First(t[start..], true).None?
    ensures r.Some? ==> First(t[start..], true) == Some(r.value.0) && r.value.1 == start + |Source(r.value.0)| <= |t|
  {
    QuotedAt(t, start);
    var close := SkipQuoted(t, start);
    if close.None? {
      return None;
    }
    return Some((Tok(Quoted(t[start], t[start + 1..close.value])), close.value + 1));
  }

  /** A comment, or a character that starts none. */
  method NextComment(t: string, start: nat) returns (r: Option<(Piece, nat)>)
    requires start < |t| && t[start] != '?' && !IsQuote(t[start])
    ensures r.Some? && First(t[start..], true) == Some(r.value.0) && r.value.1 == start + |Source(r.value.0)| <= |t|
  {
    var after := start + 1 < |t|;
    if t[start] == '-' && after && t[start + 1] == '-' {
      LineAt(t, start);
      var stop := SkipLine(t, start + 2);
      return Some((Tok(Line(t[start + 2..stop])), stop));
    }
    if t[start] == '/' && after && t[start + 1] == '*' {
      BlockAt(t, start);
      var stop := SkipBlock(t, start + 2);
      return Some((Tok(Block(t[start + 2..stop])), stop));
    }
    return Some((Tok(Plain(t[start])), start + 1));
  }

  /** What one round of the loop comes to: it goes on with this output, position and count, or fails. */
  datatype Round = Next(out: string, pos: nat, used: nat) | Fails(error: Error)

  ghost predicate RoundOk(r: Round, goal: Option<string>, t: string, start: nat, values: seq<Value>,
                          escape: string -> Option<string>) {
    match r
    case Next(out, pos, used) => start < pos && Going(goal, out, t, pos, values, used, escape)
    case Fails(error) => goal == None && Wrong(t, values, escape, error)
  }

  /** The placeholder at `start`. */
  method Fill(out: string, t: string, start: nat, values: seq<Value>, used: nat, escape: string -> Option<string>,
              ghost goal: Option<string>) returns (r: Round)
    requires Going(goal, out, t, start, values, used, escape) && start < |t| && First(t[start..], true) == Some(Hole)
    ensures RoundOk(r, goal, t, start, values, escape)
  {
    FillHole(goal, out, t, start, values, used, escape);
    if used == |values| {
      return Fails(MorePlaceholders);
    }
    var literal := Literal(values[used], escape);
    if literal.None? {
      return Fails(NotSql(used));
    }
    return Next(out + literal.value, start + 1, used + 1);
  }

  /** The piece at `start`. */
  method TakePiece(out: string, t: string, start: nat, values: seq<Value>, used: nat, escape: string -> Option<string>,
                   ghost goal: Option<string>) returns (r: Round)
    requires Going(goal, out, t, start, values, used, escape) && start < |t|
    ensures RoundOk(r, goal, t, start, values, escape)
  {
    var next := NextPiece(t, start);
    if next.None? {
      Unclosed(goal, out, t, start, values, used, escape);
      return Fails(NotClosed(start));
    }
    var (piece, stop) := next.value;
    if piece.Hole? {
      r := Fill(out, t, start, values, used, escape, goal);
    } else {
      CopyPiece(goal, out, t, start, stop, piece, values, used, escape);
      r := Next(out + if piece.Question? then "?" else Source(piece), stop, used);
    }
  }

  /**
    sql.format.  It succeeds exactly when the specification does, with the same text, and
    otherwise reports the first thing that is wrong.
   */
  method FormatSql(template: string, values: seq<Value>, escape: string -> Option<string>) returns (r: Result)
    ensures r.Ok? ==> Format(template, values, escape) == Some(r.text)
    ensures r.Err? ==> Format(template, values, escape) == None && Wrong(template, values, escape, r.error)
  {
    var out: string, used: nat, pos: nat := [], 0, 0;
    ghost var goal := Format(template, values, escape);
    Starts(template, values, escape);
    while pos < |template|
      invariant Going(goal, out, template, pos, values, used, escape)
      decreases |template| - pos
    {
      var start := FindSpecial(template, pos);
      CopyRun(goal, out, template, pos, start, values, used, escape);
      out, pos := out + template[pos..start], start;
      if start == |template| {
        break;
      }
      var round := TakePiece(out, template, start, values, used, escape, goal);
      if round.Fails? {
        return Err(round.error);
      }
      out, pos, used := round.out, round.pos, round.used;
    }
    Ends(goal, out, template, values, used, escape);
    if used != |values| {
      return Err(FewerPlaceholders(used));
    }
    return Ok(out);
  }
}
