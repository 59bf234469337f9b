/**
  How a chat command becomes the arguments of onPlayerCommand (src/plugin/callbacks.cpp): the
  words are the maximal runs without a space, and `text` is everything from the second word on.
 */
module CommandSplitter {
  import opened Wrappers

  /** The arguments the handlers get; None is nil. */
  datatype Command = Command(name: Option<string>, args: Option<seq<string>>, text: string)

  /** How many characters from the front are spaces, or are not. */
  function Run(s: string, spaces: bool): (n: nat)
    ensures n <= |s|
  {
    if s == [] || (s[0] == ' ') != spaces then 0 else 1 + Run(s[1..], spaces)
  }

  function DropSpaces(s: string): (t: string)
    ensures |t| <= |s|
  {
    s[Run(s, true)..]
  }

  function DropWord(s: string): (t: string)
    ensures |t| <= |s|
    ensures s != [] && s[0] != ' ' ==> |t| < |s|
  {
    s[Run(s, false)..]
  }

  lemma {:induction false} AfterSpaces(s: string)
    ensures DropSpaces(s) == [] || DropSpaces(s)[0] != ' '
  {
    if s != [] && s[0] == ' ' {
      AfterSpaces(s[1..]);
      assert DropSpaces(s) == DropSpaces(s[1..]);
    }
  }

  /** The first word, and what follows it. */
  function Head(s: string): string {
    var t := DropSpaces(s);
    t[..Run(t, false)]
  }

  function Rest(s: string): (rest: string)
    ensures DropSpaces(s) != [] ==> |rest| < |s|
  {
    AfterSpaces(s);
    DropWord(DropSpaces(s))
  }

  function Words(s: string): seq<string>
    decreases |s|
  {
    if DropSpaces(s) == [] then [] else [Head(s)] + Words(Rest(s))
  }

  /** What follows the first word and the spaces after it. */
  function AfterName(s: string): string {
    DropSpaces(Rest(s))
  }

  // ---------------------------------------------------------------- what the words are

  predicate IsWord(w: string) {
    w != [] && ' ' !in w
  }

  predicate IsGap(g: string) {
    forall c <- g :: c == ' '
  }

  /** Gaps and words in turn, a gap at either end. */
  function Join(gaps: seq<string>, words: seq<string>): string
    requires |gaps| == |words| + 1
    decreases |words|
  {
    if words == [] then gaps[0] else gaps[0] + words[0] + Join(gaps[1..], words[1..])
  }

  /** Words with at least one space between any two of them; `first`: a word may come at once. */
  predicate Apart(gaps: seq<string>, words: seq<string>, first: bool)
    decreases |words|
  {
    && |gaps| == |words| + 1 && IsGap(gaps[0])
    && (words != [] ==> (first || gaps[0] != []) && IsWord(words[0]) && Apart(gaps[1..], words[1..], false))
  }

  function Gaps(s: string): (gaps: seq<string>)
    decreases |s|
  {
    if DropSpaces(s) == [] then [s] else [s[..Run(s, true)]] + Gaps(Rest(s))
  }

  lemma {:induction false} RunIs(s: string, spaces: bool)
    ensures var n := Run(s, spaces);
            && (forall c <- s[..n] :: (c == ' ') == spaces)
            && (n < |s| ==> (s[n] == ' ') != spaces)
  {
    if s != [] && (s[0] == ' ') == spaces {
      RunIs(s[1..], spaces);
      assert s[..Run(s, spaces)] == [s[0]] + s[1..][..Run(s[1..], spaces)];
    }
  }

  lemma {:induction false} RunThrough(w: string, rest: string, spaces: bool)
    requires (forall c <- w :: (c == ' ') == spaces) && (rest == [] || (rest[0] == ' ') != spaces)
    ensures Run(w + rest, spaces) == |w| && (w + rest)[|w|..] == rest && (w + rest)[..|w|] == w
  {
    if w == [] {
      assert w + rest == rest;
    } else {
      assert (w + rest)[1..] == w[1..] + rest;
      assert w[0] in w && forall c <- w[1..] :: c in w;
      RunThrough(w[1..], rest, spaces);
    }
  }

  lemma {:induction false} JoinOne(g: string, w: string, gaps: seq<string>, words: seq<string>, first: bool)
    requires IsGap(g) && IsWord(w) && (first || g != []) && Apart(gaps, words, false)
    ensures Apart([g] + gaps, [w] + words, first)
    ensures Join([g] + gaps, [w] + words) == g + w + Join(gaps, words)
  {
    assert ([g] + gaps)[1..] == gaps && ([w] + words)[1..] == words;
  }

  lemma {:induction false} FirstWord(s: string)
    ensures IsGap(s[..Run(s, true)])
    ensures if DropSpaces(s) == [] then s[..Run(s, true)] == s
            else && s == s[..Run(s, true)] + Head(s) + Rest(s) && IsWord(Head(s))
                 && (Rest(s) == [] || Rest(s)[0] == ' ')
  {
    RunIs(s, true);
    AfterSpaces(s);
    RunIs(DropSpaces(s), false);
    assert s == s[..Run(s, true)] + DropSpaces(s);
    assert DropSpaces(s) == Head(s) + Rest(s);
  }

  /** Every text is its words with gaps around them. */
  lemma {:induction false} WordsJoin(s: string, first: bool)
    requires first || s == [] || s[0] == ' '
    ensures Apart(Gaps(s), Words(s), first) && Join(Gaps(s), Words(s)) == s
    decreases |s|
  {
    FirstWord(s);
    if DropSpaces(s) != [] {
      WordsJoin(Rest(s), false);
      assert first || s[..Run(s, true)] != [];
      JoinOne(s[..Run(s, true)], Head(s), Gaps(Rest(s)), Words(Rest(s)), first);
    }
  }

  /** And there is only one way to read it so: the words are the maximal runs without a space. */
  lemma {:induction false} JoinWords(gaps: seq<string>, words: seq<string>, first: bool)
    requires Apart(gaps, words, first)
    ensures Words(Join(gaps, words)) == words
    ensures !first ==> Join(gaps, words) == [] || Join(gaps, words)[0] == ' '
    decreases |words|
  {
    var s := Join(gaps, words);
    if words == [] {
      RunThrough(s, [], true);
      assert s + [] == s;
    } else {
      var g, w, rest := gaps[0], words[0], Join(gaps[1..], words[1..]);
      JoinWords(gaps[1..], words[1..], false);
      assert s == g + (w + rest);
      RunThrough(w, rest, false);
      RunThrough(g, w + rest, true);
    }
  }

  lemma {:induction false} WordsAfterSpaces(s: string)
    ensures Words(DropSpaces(s)) == Words(s)
    ensures Words(s) == [] <==> DropSpaces(s) == []
  {
    AfterSpaces(s);
    assert DropSpaces(DropSpaces(s)) == DropSpaces(s);
  }

  /** Splitting what follows the first word gives the other words. */
  lemma {:induction false} AfterNameWords(s: string)
    ensures Words(s) == [] ==> AfterName(s) == []
    ensures Words(s) != [] ==> Words(AfterName(s)) == Words(s)[1..]
    ensures AfterName(s) == [] <==> |Words(s)| <= 1
  {
    WordsAfterSpaces(s);
    WordsAfterSpaces(Rest(s));
    var t, more := DropSpaces(s), Words(Rest(s));
    if t != [] {
      assert Words(s) == [Head(s)] + more;
      assert ([Head(s)] + more)[1..] == more;
    }
  }

  lemma {:induction false} FirstGap(s: string)
    ensures Gaps(s) != [] && (DropSpaces(s) != [] ==> Gaps(s)[0] == s[..Run(s, true)])
    ensures DropSpaces(s) != [] ==> |Gaps(s)| >= 2 && Gaps(s)[1] == Gaps(Rest(s))[0] && Words(s)[0] == Head(s)
    ensures s == s[..Run(s, true)] + DropSpaces(s)
    decreases |s|
  {
    if DropSpaces(s) != [] { FirstGap(Rest(s)); }
  }

  lemma {:induction false} TwoGaps(s: string)
    requires |Words(s)| >= 2
    ensures |Gaps(s)| >= 2 && IsGap(Gaps(s)[0]) && IsGap(Gaps(s)[1])
    ensures s == Gaps(s)[0] + Words(s)[0] + Rest(s) && Rest(s) == Gaps(s)[1] + AfterName(s)
  {
    WordsAfterSpaces(s);
    WordsAfterSpaces(Rest(s));
    AfterNameWords(s);
    FirstWord(s);
    FirstWord(Rest(s));
    FirstGap(s);
    FirstGap(Rest(s));
  }

  /** The message is the first word with a gap on either side, and then everything from the second word on. */
  lemma {:induction false} MessageIs(s: string)
    requires |Words(s)| >= 2
    ensures |Gaps(s)| >= 2 && s == Gaps(s)[0] + Words(s)[0] + Gaps(s)[1] + AfterName(s)
    ensures IsGap(Gaps(s)[0]) && IsGap(Gaps(s)[1]) && AfterName(s) != [] && AfterName(s)[0] != ' '
  {
    TwoGaps(s);
    ConcatAssociative(Gaps(s)[0] + Words(s)[0], Gaps(s)[1], AfterName(s));
    AfterSpaces(Rest(s));
    AfterNameWords(s);
  }

  // ---------------------------------------------------------------- the loop

  method Skip(s: string, from: nat, spaces: bool) returns (stop: nat)
    requires from <= |s|
    ensures stop == from + Run(s[from..], spaces) <= |s|
    ensures s[from..][stop - from..] == s[stop..]
  {
    stop := from;
    while stop < |s| && (s[stop] == ' ') == spaces
      invariant from <= stop <= |s|
      invariant from + Run(s[from..], spaces) == stop + Run(s[stop..], spaces)
    {
      assert s[stop..][1..] == s[stop + 1..];
      stop := stop + 1;
    }
  }

  /** The first word of a text, by position. */
  lemma {:induction false} WordAt(s: string, pos: nat, start: nat, end: nat)
    requires pos <= |s| && start == pos + Run(s[pos..], true) < |s|
    requires end == start + Run(s[start..], false) <= |s|
    ensures start < end && DropSpaces(s[pos..]) == s[start..] && DropWord(s[start..]) == s[end..]
    ensures Words(s[pos..]) == [s[start..end]] + Words(s[end..])
  {
    TailOfTail(s, pos, start);
    TailOfTail(s, start, end);
    PartOfTail(s, start, end);
    FirstOf(s[pos..], s[start..], s[start..end], s[end..]);
  }

  lemma {:induction false} FirstOf(t: string, u: string, word: string, rest: string)
    requires u != [] && DropSpaces(t) == u && u[..Run(u, false)] == word && DropWord(u) == rest
    ensures word != [] && Words(t) == [word] + Words(rest)
  {
    AfterSpaces(t);
    assert Head(t) == word && Rest(t) == rest;
  }

  /** Where the second word starts, once the first one is found. */
  lemma {:induction false} AfterFirst(s: string, start: nat, end: nat)
    requires start == Run(s, true) < |s| && end == start + Run(s[start..], false) <= |s|
    ensures AfterName(s) == DropSpaces(s[end..])
  {
    assert s[0..] == s;
    WordAt(s, 0, start, end);
  }

  /** Midway through the loop: `more` words to come, the first of them at the start of `ahead`. */
  predicate Midway(s: string, all: seq<string>, after: string, words: seq<string>, more: seq<string>, ahead: string,
                   rest: nat) {
    && all == words + more && rest <= |s|
    && (|words| <= 1 ==> rest == |s|)
    && (|words| == 1 ==> after == ahead)
    && (|words| > 1 ==> after == s[rest..])
  }

  /** One word more; when it is the first one, `after` is what comes behind it. */
  lemma {:induction false} OneMore(s: string, all: seq<string>, after: string, words: seq<string>, word: string,
                                   more: seq<string>, start: nat, ahead: string, rest: nat)
    requires start <= |s| && Midway(s, all, after, words, [word] + more, s[start..], rest)
    requires words == [] ==> after == ahead
    ensures Midway(s, all, after, words + [word], more, ahead, if |words| == 1 then start else rest)
  {
    ConcatAssociative(words, [word], more);
  }

  lemma {:induction false} NoMore(s: string, all: seq<string>, after: string, words: seq<string>, rest: nat)
    requires Midway(s, all, after, words, [], [], rest)
    ensures words == all && (words != [] ==> s[rest..] == after)
  {
  }

  /** Nothing but spaces is left. */
  lemma {:induction false} NoWord(t: string)
    requires Run(t, true) == |t|
    ensures DropSpaces(t) == [] && Words(t) == []
  {
  }

  /**
    OnPlayerCommand: the command is the first word, the arguments are the other words, and
    splitting `text`, the end of the message from the second word on, gives exactly those.
   */
  method Split(message: Option<string>) returns (c: Command)
    ensures var s := if message.Some? then message.value else "";
            var words := Words(s);
            && c.name == (if words == [] then None else Some(words[0]))
            && c.args == (if |words| <= 1 then None else Some(words[1..]))
            && c.text == AfterName(s)
            && Words(c.text) == (if c.args.Some? then c.args.value else [])
            && (c.text == "" <==> c.args.None?)
            && (c.args.Some? ==> |Gaps(s)| >= 2 && s == Gaps(s)[0] + words[0] + Gaps(s)[1] + c.text)
  {
    var s := if message.Some? then message.value else "";
    AfterNameWords(s);
    if |Words(s)| >= 2 { MessageIs(s); }
    var words, rest := SplitWords(s);
    if words == [] {
      return Command(None, None, "");
    }
    var text := s[rest..];
    if |words| == 1 {
      return Command(Some(words[0]), None, text);
    }
    return Command(Some(words[0]), Some(words[1..]), text);
  }

  /** The loop: all the words, and where the second one starts. */
  method SplitWords(s: string) returns (words: seq<string>, rest: nat)
    ensures words == Words(s) && rest <= |s| && (words != [] ==> s[rest..] == AfterName(s))
  {
    words, rest := [], |s|;
    var pos := 0;
    ghost var all, after := Words(s), AfterName(s);
    assert s[0..] == s;
    while pos < |s|
      invariant pos <= |s| && (words == [] ==> pos == 0)
      invariant Midway(s, all, after, words, Words(s[pos..]), DropSpaces(s[pos..]), rest)
      decreases |s| - pos
    {
      var start := Skip(s, pos, true);
      if start == |s| {
        break;
      }
      var end := Skip(s, start, false);
      WordAt(s, pos, start, end);
      if words == [] {
        AfterFirst(s, start, end);
      }
      OneMore(s, all, after, words, s[start..end], Words(s[end..]), start, DropSpaces(s[end..]), rest);
      if |words| == 1 {
        rest := start;
      }
      words := words + [s[start..end]];
      pos := end;
    }
    NoWord(s[pos..]);
    NoMore(s, all, after, words, rest);
  }
}
