/** The incremental sentence splitter that feeds the speech synthesiser. */
module Sentence {
  import opened Text

  const MIN_SENTENCE_CHARS := 2

  predicate IsTerm(c: char)
  {
    c == '.' || c == '!' || c == '?' || c == '\U{2026}'
  }

  predicate IsTail(c: char)
  {
    IsSpace(c) || c == '"' || c == '\''
  }

  predicate IsBoundary(c: char)
  {
    IsTerm(c) || c == '\n'
  }

  datatype Class = Plain | Term | Tail | Newline

  predicate Is(p: Class, c: char)
  {
    match p
    case Plain => !IsBoundary(c)
    case Term => IsTerm(c)
    case Tail => IsTail(c)
    case Newline => c == '\n'
  }

  // ---------- the regular expression  [.!?…]+[\s"']* | \n+ ----------

  /** First position at or after `i` whose character does not satisfy `p`. */
  function Skip(s: string, i: nat, p: Class): (j: nat)
    requires i <= |s|
    ensures i <= j <= |s|
    decreases |s| - i
  {
    if i < |s| && Is(p, s[i]) then Skip(s, i + 1, p) else i
  }

  lemma {:induction false} SkipStops(s: string, i: nat, p: Class)
    requires i <= |s|
    ensures forall k :: i <= k < Skip(s, i, p) ==> Is(p, s[k])
    ensures Skip(s, i, p) < |s| ==> !Is(p, s[Skip(s, i, p)])
    decreases |s| - i
  {
    if i < |s| && Is(p, s[i]) {
      SkipStops(s, i + 1, p);
    }
  }

  /** End of the greedy match that starts at the boundary character `s[p]`. */
  function GreedyEnd(s: string, p: nat): (e: nat)
    requires p < |s|
    ensures p < e <= |s|
  {
    if IsTerm(s[p]) then Skip(s, Skip(s, p + 1, Term), Tail) else Skip(s, p + 1, Newline)
  }

  function FirstBoundary(s: string): (p: nat)
    ensures p <= |s|
  {
    Skip(s, 0, Plain)
  }

  /** `re.search(...).end()`, or `None` when there is no boundary. */
  function MatchEnd(s: string): (r: Option<nat>)
    ensures r.Some? ==> 0 < r.value <= |s|
  {
    var p := FirstBoundary(s);
    if p == |s| then None else Some(GreedyEnd(s, p))
  }

  /** The language of the expression, read off its text. */
  ghost predicate InLanguage(m: string)
  {
    || (exists k :: TermsThenTail(m, k))
    || (m != "" && forall i :: 0 <= i < |m| ==> m[i] == '\n')
  }

  ghost predicate TermsThenTail(m: string, k: int)
  {
    && 1 <= k <= |m|
    && (forall i :: 0 <= i < k ==> m[i] in ".!?\U{2026}")
    && (forall i :: k <= i < |m| ==> IsSpace(m[i]) || m[i] in "\"'")
  }

  /** What the search returns is a match of the expression ... */
  lemma MatchInLanguage(s: string)
    requires MatchEnd(s).Some?
    ensures InLanguage(s[FirstBoundary(s)..MatchEnd(s).value])
  {
    var p := FirstBoundary(s);
    var found := s[p..MatchEnd(s).value];
    SkipStops(s, 0, Plain);
    if IsTerm(s[p]) {
      var q := Skip(s, p + 1, Term);
      SkipStops(s, p + 1, Term);
      SkipStops(s, q, Tail);
      assert TermsThenTail(found, q - p);
    } else {
      SkipStops(s, p + 1, Newline);
      assert forall i :: 0 <= i < |found| ==> found[i] == '\n';
    }
  }

  /** ... no match starts further left, and none starting there is longer. */
  lemma MatchIsLeftmostLongest(s: string, start: nat, end: nat)
    requires start < end <= |s| && InLanguage(s[start..end])
    ensures MatchEnd(s).Some? && FirstBoundary(s) <= start
    ensures start == FirstBoundary(s) ==> end <= MatchEnd(s).value
  {
    var m := s[start..end];
    SkipStops(s, 0, Plain);
    assert m[0] == s[start];
    var p := FirstBoundary(s);
    if k :| TermsThenTail(m, k) {
      assert IsTerm(m[0]);
      if start == p {
        assert forall i :: p <= i < end ==> s[i] == m[i - p];
        GreedyTermsLongest(s, p, end, p + k);
      }
    } else {
      if start == p {
        assert forall i :: p <= i < end ==> s[i] == m[i - p];
        GreedyNewlinesLongest(s, p, end);
      }
    }
  }

  lemma GreedyTermsLongest(s: string, p: nat, end: nat, k: nat)
    requires p < k <= end <= |s|
    requires forall i :: p <= i < k ==> IsTerm(s[i])
    requires forall i :: k <= i < end ==> IsTail(s[i])
    ensures end <= GreedyEnd(s, p)
  {
    var q := Skip(s, p + 1, Term);
    SkipStops(s, p + 1, Term);
    SkipStops(s, q, Tail);
    assert k <= q;
  }

  lemma GreedyNewlinesLongest(s: string, p: nat, end: nat)
    requires p < end <= |s| && forall i :: p <= i < end ==> s[i] == '\n'
    ensures end <= GreedyEnd(s, p)
  {
    SkipStops(s, p + 1, Newline);
  }

  // ---------- what a text is cut into ----------

  datatype Cut = Cut(segments: seq<string>, rest: string)

  /** Cut after every match, greedily from the left. */
  function Segments(s: string): (c: Cut)
    decreases |s|
  {
    match MatchEnd(s)
    case None => Cut([], s)
    case Some(e) => var c := Segments(s[e..]); Cut([s[..e]] + c.segments, c.rest)
  }

  function Kept(candidate: string): seq<string>
  {
    if |candidate| >= MIN_SENTENCE_CHARS then [candidate] else []
  }

  /** The sentences handed to the synthesiser for a list of raw segments. */
  function SpokenOf(segments: seq<string>): (r: seq<string>)
  {
    if segments == [] then [] else Kept(Strip(segments[0])) + SpokenOf(segments[1..])
  }

  /** Spoken are the stripped segments of at least two characters, and so is the remainder. */
  lemma {:induction false} LongPiecesAreSpoken(segments: seq<string>, rest: string)
    ensures forall x :: x in SpokenOf(segments) <==> exists g :: g in segments && x == Strip(g) && |Strip(g)| >= 2
    ensures FlushOf(rest).Some? <==> |Strip(rest)| >= 2
    ensures FlushOf(rest).Some? ==> FlushOf(rest).value == Strip(rest)
  {
    hide Strip;
    if segments != [] {
      LongPiecesAreSpoken(segments[1..], rest);
      assert segments == [segments[0]] + segments[1..];
    }
  }

  function Sentences(s: string): seq<string> { SpokenOf(Segments(s).segments) }

  function Rest(s: string): string { Segments(s).rest }

  function FlushOf(rest: string): Option<string>
  {
    if |Strip(rest)| >= MIN_SENTENCE_CHARS then Some(Strip(rest)) else None
  }

  lemma SentencesStep(s: string)
    ensures MatchEnd(s).Some? ==>
      var e := MatchEnd(s).value;
      && Sentences(s) == Kept(Strip(s[..e])) + Sentences(s[e..])
      && Rest(s) == Rest(s[e..])
    ensures MatchEnd(s).None? ==> Sentences(s) == [] && Rest(s) == s
  {
    if MatchEnd(s).Some? {
      var e := MatchEnd(s).value;
      SpokenCons(s[..e], Segments(s[e..]).segments);
    }
  }

  lemma SpokenCons(segment: string, segments: seq<string>)
    ensures SpokenOf([segment] + segments) == Kept(Strip(segment)) + SpokenOf(segments)
  {
    assert ([segment] + segments)[1..] == segments;
  }

  lemma KeptIs(candidate: string, before: seq<string>, after: seq<string>)
    requires after == if |candidate| >= MIN_SENTENCE_CHARS then before + [candidate] else before
    ensures after == before + Kept(candidate)
  {
  }

  // ---------- the source's object ----------

  class SentenceSplitter {
    var buffer: string

    constructor ()
      ensures buffer == ""
    {
      buffer := "";
    }

    method Feed(text: string) returns (sentences: seq<string>)
      modifies this
      ensures sentences == Sentences(old(buffer) + text)
      ensures buffer == Rest(old(buffer) + text)
    {
      buffer := buffer + text;
      ghost var allSentences, finalRest := Sentences(buffer), Rest(buffer);
      sentences := [];
      while true
        invariant allSentences == sentences + Sentences(buffer)
        invariant finalRest == Rest(buffer)
        decreases |buffer|
      {
        SentencesStep(buffer);
        var m := MatchEnd(buffer);
        if m.None? {
          break;
        }
        var candidate := Strip(buffer[..m.value]);
        ghost var before := sentences;
        Associative(sentences, Kept(candidate), Sentences(buffer[m.value..]));
        buffer := buffer[m.value..];
        if |candidate| >= MIN_SENTENCE_CHARS {
          sentences := sentences + [candidate];
        }
        KeptIs(candidate, before, sentences);
      }
    }

    method Flush() returns (remainder: Option<string>)
      modifies this
      ensures remainder == FlushOf(old(buffer)) && buffer == ""
    {
      var stripped := Strip(buffer);
      buffer := "";
      remainder := if |stripped| >= MIN_SENTENCE_CHARS then Some(stripped) else None;
    }
  }

  // ---------- nothing is lost ----------

  /** Segments and remainder put back together are the text; what remains holds no boundary. */
  lemma {:induction false} NothingLost(s: string)
    ensures Concat(Segments(s).segments) + Segments(s).rest == s
    ensures MatchEnd(Segments(s).rest).None?
    decreases |s|
  {
    var m := MatchEnd(s);
    if m.Some? {
      var t := s[m.value..];
      NothingLost(t);
      var c := Segments(t);
      ConcatCons(s[..m.value], c.segments);
      Glue(s, m.value, Concat(c.segments), c.rest);
    }
  }

  // ---------- independence of how the text was cut into pieces ----------

  /** How much of `t` a match ending exactly at the end of `segment` would swallow. */
  function Extension(segment: string, t: string): (n: nat)
    requires MatchEnd(segment) == Some(|segment|)
    ensures n <= |t|
  {
    var p := FirstBoundary(segment);
    if !IsTerm(segment[p]) then Skip(t, 0, Newline)
    else if Skip(segment, p + 1, Term) == |segment| then Skip(t, Skip(t, 0, Term), Tail)
    else Skip(t, 0, Tail)
  }

  /** The cut between `s` and `t` is outside a match, or only blanks of that match are still to come. */
  predicate Seamless(s: string, t: string)
  {
    var c := Segments(s);
    c.rest != "" || c.segments == [] ||
    (LastSegmentEndsThere(s); AllSpace(t[..Extension(c.segments[|c.segments| - 1], t)]))
  }

  lemma {:induction false} LastSegmentEndsThere(s: string)
    requires Segments(s).segments != []
    ensures var last := Segments(s).segments[|Segments(s).segments| - 1]; MatchEnd(last) == Some(|last|)
    decreases |s|
  {
    var e := MatchEnd(s).value;
    if Segments(s[e..]).segments == [] {
      SearchIgnoresTheFuture(s, e);
    } else {
      LastSegmentEndsThere(s[e..]);
    }
  }

  lemma {:induction false} SkipLocal(s: string, t: string, i: nat, p: Class)
    requires i <= |s|
    ensures Skip(s, i, p) < |s| ==> Skip(s + t, i, p) == Skip(s, i, p)
    ensures Skip(s, i, p) == |s| ==> Skip(s + t, i, p) == |s| + Skip(t, 0, p)
    decreases |s| - i
  {
    if i < |s| {
      if Is(p, s[i]) {
        SkipLocal(s, t, i + 1, p);
      }
    } else {
      SkipShift(s, t, 0, p);
    }
  }

  lemma {:induction false} SkipShift(s: string, t: string, i: nat, p: Class)
    requires i <= |t|
    ensures Skip(s + t, |s| + i, p) == |s| + Skip(t, i, p)
    decreases |t| - i
  {
    if i < |t| && Is(p, t[i]) {
      SkipShift(s, t, i + 1, p);
    }
  }

  /** A match depends only on the characters it covers and on the first one it does not. */
  lemma SearchIgnoresTheFuture(s: string, e: nat)
    requires MatchEnd(s) == Some(e)
    ensures MatchEnd(s[..e]) == Some(e)
  {
    var a, b := s[..e], s[e..];
    assert s == a + b;
    var p := FirstBoundary(s);
    SkipLocal(a, b, 0, Plain);
    assert a[p] == s[p];
    if IsTerm(s[p]) {
      SkipLocal(a, b, p + 1, Term);
      var q := Skip(a, p + 1, Term);
      SkipLocal(a, b, q, Tail);
    } else {
      SkipLocal(a, b, p + 1, Newline);
    }
  }

  /** What the first match becomes when more text follows. */
  lemma MatchEndAppend(s: string, t: string)
    requires MatchEnd(s).Some?
    ensures MatchEnd(s).value < |s| ==> MatchEnd(s + t) == MatchEnd(s)
    ensures MatchEnd(s).value == |s| ==> MatchEnd(s + t) == Some(|s| + Extension(s, t))
  {
    hide IsTerm, IsTail, IsSpace;
    var p := FirstBoundary(s);
    SkipLocal(s, t, 0, Plain);
    assert (s + t)[p] == s[p];
    if IsTerm(s[p]) {
      SkipLocal(s, t, p + 1, Term);
      var q := Skip(s, p + 1, Term);
      SkipLocal(s, t, q, Tail);
      if q == |s| {
        SkipShift(s, t, Skip(t, 0, Term), Tail);
      }
    } else {
      SkipLocal(s, t, p + 1, Newline);
    }
  }

  /** Unless it ends exactly at the end of a match, a text is cut the same whatever follows. */
  lemma {:induction false} SegmentsAppend(s: string, t: string)
    requires Rest(s) != "" || Segments(s).segments == []
    ensures Sentences(s + t) == Sentences(s) + Sentences(Rest(s) + t)
    ensures Rest(s + t) == Rest(Rest(s) + t)
    decreases |s|
  {
    hide MatchEnd, Strip, Kept, SpokenOf;
    var m := MatchEnd(s);
    SentencesStep(s);
    if m.Some? {
      var e := m.value;
      MatchEndAppend(s, t);
      SegmentsAppend(s[e..], t);
      SentencesStep(s + t);
      DropFromSum(s, t, e);
      assert (s + t)[..e] == s[..e];
      Associative(Kept(Strip(s[..e])), Sentences(s[e..]), Sentences(Rest(s) + t));
    }
  }

  /** A text that ends exactly at the end of a match: only its last segment looks at what follows. */
  lemma {:induction false} SegmentsAppendAtMatch(s: string, t: string) returns (last: string, kept: seq<string>)
    requires Rest(s) == "" && Segments(s).segments != []
    ensures Segments(s).segments[|Segments(s).segments| - 1] == last && MatchEnd(last) == Some(|last|)
    ensures Sentences(s) == kept + Kept(Strip(last))
    ensures Sentences(s + t) == kept + Sentences(last + t) && Rest(s + t) == Rest(last + t)
    decreases |s|
  {
    hide MatchEnd, Strip, Kept;
    var e := MatchEnd(s).value;
    SentencesStep(s);
    if e == |s| {
      last, kept := s, [];
      assert s[e..] == "" && s[..e] == s;
      NoSentences();
    } else {
      MatchEndAppend(s, t);
      SentencesStep(s + t);
      assert (s + t)[e..] == s[e..] + t && (s + t)[..e] == s[..e];
      NonemptySegments(s);
      var more;
      last, more := SegmentsAppendAtMatch(s[e..], t);
      kept := Kept(Strip(s[..e])) + more;
      Associative(Kept(Strip(s[..e])), more, Kept(Strip(last)));
      Associative(Kept(Strip(s[..e])), more, Sentences(last + t));
    }
  }

  lemma NoSentences()
    ensures Segments("") == Cut([], "") && Sentences("") == []
  {
  }

  lemma NonemptySegments(s: string)
    requires Rest(s) == "" && MatchEnd(s).Some? && MatchEnd(s).value < |s|
    ensures Segments(s[MatchEnd(s).value..]).segments != []
  {
    NothingLost(s[MatchEnd(s).value..]);
  }

  /** `a` is `b` with blanks in front. */
  predicate Padded(a: string, b: string)
  {
    |a| >= |b| && a[|a| - |b|..] == b && AllSpace(a[..|a| - |b|])
  }

  lemma PaddedFlush(a: string, b: string)
    requires Padded(a, b)
    ensures FlushOf(a) == FlushOf(b)
  {
    var n := |a| - |b|;
    StripIgnoresBlanks(a[..n], b, "");
    assert a[..n] + b + "" == a;
  }

  /** Blanks at the front of the buffer never show. */
  lemma {:induction false} LeadingBlanks(e: string, u: string)
    requires AllSpace(e)
    ensures Sentences(e + u) == Sentences(u) && Padded(Rest(e + u), Rest(u))
    decreases |e|
  {
    hide Sentences, Rest, IsSpace;
    if e == "" {
      assert e + u == u;
    } else {
      DropFromSum(e, u, 1);
      LeadingBlanks(e[1..], u);
      LeadingBlank(e[0], e[1..] + u);
    }
  }

  lemma LeadingBlank(c: char, u: string)
    requires IsSpace(c)
    ensures Sentences([c] + u) == Sentences(u)
    ensures Rest([c] + u) == Rest(u) || Rest([c] + u) == [c] + Rest(u)
  {
    hide MatchEnd, Strip, IsSpace, Sentences, Rest;
    SentencesStep(u);
    SentencesStep([c] + u);
    if c == '\n' {
      NewlineFirst(u);
    } else {
      assert !IsBoundary(c) by { SpaceIsNoTerm(c); }
      BlankFirst(c, u);
      if MatchEnd(u).Some? {
        var e := MatchEnd(u).value;
        assert ([c] + u)[..e + 1] == [c] + u[..e] && ([c] + u)[e + 1..] == u[e..];
        StripIgnoresBlanks([c], u[..e], "");
        assert [c] + u[..e] + "" == [c] + u[..e];
      }
    }
  }

  lemma SpaceIsNoTerm(c: char)
    requires IsSpace(c)
    ensures !IsTerm(c)
  {
  }

  lemma BlankFirst(c: char, u: string)
    requires !IsBoundary(c)
    ensures MatchEnd([c] + u) == if MatchEnd(u).None? then None else Some(MatchEnd(u).value + 1)
  {
    hide IsTerm, IsTail;
    SkipShift([c], u, 0, Plain);
    assert FirstBoundary([c] + u) == 1 + FirstBoundary(u);
    if FirstBoundary(u) < |u| {
      GreedyEndShift(c, u, FirstBoundary(u));
    }
  }

  lemma GreedyEndShift(c: char, u: string, p: nat)
    requires p < |u|
    ensures GreedyEnd([c] + u, p + 1) == GreedyEnd(u, p) + 1
  {
    hide IsTerm, IsTail;
    assert ([c] + u)[p + 1] == u[p];
    SkipShift([c], u, p + 1, Newline);
    SkipShift([c], u, p + 1, Term);
    SkipShift([c], u, Skip(u, p + 1, Term), Tail);
  }

  lemma NewlineFirst(u: string)
    ensures Sentences(['\n'] + u) == Sentences(u) && Rest(['\n'] + u) == Rest(u)
  {
    hide Strip, Sentences, Rest;
    var s := ['\n'] + u;
    var k := Skip(u, 0, Newline);
    SkipShift(['\n'], u, 0, Newline);
    SkipStops(u, 0, Newline);
    assert MatchEnd(s) == Some(1 + k);
    SentencesStep(s);
    assert s[1 + k..] == u[k..];
    NewlinesKeepNothing(s[..1 + k]);
    if k > 0 {
      assert MatchEnd(u) == Some(k);
      SentencesStep(u);
      NewlinesKeepNothing(u[..k]);
    } else {
      assert u[k..] == u;
    }
  }

  lemma NewlinesKeepNothing(s: string)
    requires forall i :: 0 <= i < |s| ==> s[i] == '\n'
    ensures Kept(Strip(s)) == []
  {
    StripBlank(s);
  }

  /** What a match still to be finished swallows starts the next piece in one of two ways. */
  lemma ExtensionShape(last: string, t: string)
    requires MatchEnd(last) == Some(|last|) && !AllSpace(t[..Extension(last, t)])
    ensures !AllSpace(last) && last[FirstBoundary(last)] != '\n'
    ensures var n := Extension(last, t);
      || MatchEnd(t) == Some(n)
      || (TailRun(t[..n]) && (n < |t| ==> !IsTail(t[n])))
  {
    hide IsSpace, Strip;
    var p := FirstBoundary(last);
    SkipStops(last, 0, Plain);
    SkipStops(last, p + 1, Newline);
    SkipStops(t, 0, Newline);
    SkipStops(t, 0, Tail);
    assert last[p] == '\n' || IsTerm(last[p]);
    NewlinesAreBlank(t[..Skip(t, 0, Newline)]);
    if IsTerm(last[p]) {
      TermIsVisible(last, p);
      if t != "" && IsTerm(t[0]) {
        assert FirstBoundary(t) == 0;
      }
    }
  }

  predicate TailRun(s: string)
  {
    forall i :: 0 <= i < |s| ==> IsTail(s[i])
  }

  lemma NewlinesAreBlank(s: string)
    ensures (forall i :: 0 <= i < |s| ==> s[i] == '\n') ==> AllSpace(s)
  {
  }

  lemma TermIsVisible(s: string, p: nat)
    requires p < |s| && IsTerm(s[p])
    ensures !AllSpace(s)
  {
    assert !IsSpace(s[p]);
  }

  /** Quotes left at the front of the buffer either vanish or open the next sentence. */
  lemma {:induction false} LeadingQuotes(e: string, u: string)
    requires TailRun(e) && (u != "" ==> !IsTail(u[0]))
    ensures Sentences(e + u) == Sentences(u) || OpensWithQuote(Sentences(e + u))
    decreases |e|
  {
    hide Strip, MatchEnd, Sentences, IsSpace, OpensWithQuote;
    if e == "" {
      assert e + u == u;
    } else if IsSpace(e[0]) {
      DropFromSum(e, u, 1);
      LeadingBlank(e[0], e[1..] + u);
      LeadingQuotes(e[1..], u);
    } else {
      QuoteFirst(e, u);
      if MatchEnd(e + u).Some? && |Strip((e + u)[..MatchEnd(e + u).value])| < MIN_SENTENCE_CHARS {
        var n := MatchEnd(e + u).value;
        SentencesStep(e + u);
        DropFromSum(e, u, n);
        LeadingQuotes(e[n..], u);
        assert [] + Sentences(e[n..] + u) == Sentences(e[n..] + u);
      }
    }
  }

  lemma DropFromSum(e: string, u: string, n: nat)
    requires n <= |e|
    ensures (e + u)[n..] == e[n..] + u && e + u == e[..n] + (e[n..] + u)
    ensures n == 1 ==> e[..n] == [e[0]]
  {
  }

  predicate OpensWithQuote(sentences: seq<string>)
  {
    sentences != [] && sentences[0] != "" && (sentences[0][0] == '"' || sentences[0][0] == '\'')
  }

  lemma FirstOf(l: string, rest: string)
    ensures l != "" ==> (l + rest)[0] == l[0]
  {
  }

  /** A visible first character is the first character of the first segment, once stripped. */
  lemma StripKeepsFirst(s: string)
    requires s != "" && !IsSpace(s[0])
    ensures Strip(s) != "" && Strip(s)[0] == s[0]
  {
    var l, r := StripParts(s);
    StripEmpty(s);
    assert !AllSpace(s);
    FirstOf(l, Strip(s) + r);
    assert s == l + (Strip(s) + r);
  }

  lemma QuoteFirst(e: string, u: string)
    requires TailRun(e) && (u != "" ==> !IsTail(u[0])) && e != "" && !IsSpace(e[0])
    ensures MatchEnd(e + u).None? ==> Sentences(e + u) == Sentences(u) == []
    ensures MatchEnd(e + u).Some? ==>
      var n := MatchEnd(e + u).value;
      if |Strip((e + u)[..n])| >= MIN_SENTENCE_CHARS then OpensWithQuote(Sentences(e + u))
      else 0 < n <= |e|
  {
    var s := e + u;
    SentencesStep(s);
    if MatchEnd(s).Some? {
      var n := MatchEnd(s).value;
      StripKeepsFirst(s[..n]);
      assert s[0] == e[0];
      if n > |e| {
        LongSegment(s[..n], |e|, u[0]);
      }
    }
    SentencesStep(u);
    SkipShift(e, u, 0, Plain);
    SkipStops(s, 0, Plain);
    SkipStops(u, 0, Plain);
    if MatchEnd(u).Some? {
      assert s[|e| + FirstBoundary(u)] == u[FirstBoundary(u)];
    }
  }

  /** Two visible characters make a segment long enough to be spoken. */
  lemma LongSegment(s: string, k: nat, c: char)
    requires 0 < k < |s| && s[k] == c && !IsSpace(s[0]) && !IsSpace(c)
    ensures |Strip(s)| >= MIN_SENTENCE_CHARS
  {
    assert s == s[..k] + s[k..];
    assert s[..k][0] == s[0] && s[k..][0] == c;
    StripGrows(s[..k], s[k..]);
  }

  /** Feeding `t` after `s` shows the listener what feeding `s + t` at once does. */
  predicate SameSpeech(s: string, t: string)
  {
    && Sentences(s) + Sentences(Rest(s) + t) == Sentences(s + t)
    && FlushOf(Rest(Rest(s) + t)) == FlushOf(Rest(s + t))
  }

  /** Where the text is cut is invisible exactly when the cut is seamless. */
  lemma ChunkIndependence(s: string, t: string)
    ensures SameSpeech(s, t) <==> Seamless(s, t)
    ensures Seamless(s, t) ==> Padded(Rest(Rest(s) + t), Rest(s + t))
  {
    hide Strip, MatchEnd, Sentences, Rest, FlushOf, AllSpace, Segments, SameSpeech;
    CutIs(s);
    if Segments(s).rest != "" || Segments(s).segments == [] {
      CutOutsideMatch(s, t);
      PaddedSelf(Rest(s + t));
    } else {
      LastSegmentEndsThere(s);
      CutAtMatch(s, t);
    }
  }

  lemma HiSegments()
    ensures Segments("Hi.") == Cut(["Hi."], "") && Sentences("Hi.") == ["Hi."] && Rest("Hi.") == ""
  {
    var s := "Hi.";
    assert Skip(s, 2, Plain) == 2;
    assert Skip(s, 1, Plain) == 2;
    assert FirstBoundary(s) == 2;
    assert MatchEnd(s) == Some(3);
    assert s[3..] == "" && s[..3] == s;
    NoSentences();
    StripUnique("", s, "");
    assert "" + s + "" == s;
    SentencesStep(s);
  }

  /** "Hi." and then "." is spoken as "Hi."; fed at once it is "Hi..". */
  lemma CutInsideABoundary()
    ensures !SameSpeech("Hi.", ".")
  {
    HiSegments();
    ChunkIndependence("Hi.", ".");
    assert Skip("Hi.", 3, Term) == 3;
    assert Skip(".", 0, Term) == 1;
    assert Extension("Hi.", ".") == 1;
    assert "."[..1] == ".";
  }

  lemma CutOutsideMatch(s: string, t: string)
    requires Rest(s) != "" || Segments(s).segments == []
    ensures SameSpeech(s, t) && Rest(Rest(s) + t) == Rest(s + t)
  {
    hide Sentences, Rest, FlushOf, Segments;
    SegmentsAppend(s, t);
  }

  lemma CutAtMatch(s: string, t: string)
    requires Rest(s) == "" && Segments(s).segments != []
    requires var last := Segments(s).segments[|Segments(s).segments| - 1]; MatchEnd(last) == Some(|last|)
    ensures var last := Segments(s).segments[|Segments(s).segments| - 1];
      && (SameSpeech(s, t) <==> AllSpace(t[..Extension(last, t)]))
      && (SameSpeech(s, t) ==> Padded(Rest(Rest(s) + t), Rest(s + t)))
  {
    hide Strip, MatchEnd, Sentences, Rest, FlushOf, AllSpace, Segments, Extension, Kept, Padded;
    var last, kept := SegmentsAppendAtMatch(s, t);
    assert Rest(s) + t == t;
    FinishSegment(last, t);
    Associative(kept, Kept(Strip(last)), Sentences(t));
    SamePrefix(kept, Kept(Strip(last)) + Sentences(t), Sentences(last + t));
    if AllSpace(t[..Extension(last, t)]) {
      PaddedFlush(Rest(t), Rest(last + t));
    }
  }

  lemma FinishSegment(last: string, t: string)
    requires MatchEnd(last) == Some(|last|)
    ensures Kept(Strip(last)) + Sentences(t) == Sentences(last + t) <==> AllSpace(t[..Extension(last, t)])
    ensures AllSpace(t[..Extension(last, t)]) ==> Padded(Rest(t), Rest(last + t))
  {
    hide Strip, MatchEnd, Sentences, Rest, FlushOf, AllSpace, Segments, Extension, Kept, Padded;
    MatchEndAppend(last, t);
    SentencesStep(last + t);
    var n := Extension(last, t);
    var e, u := t[..n], t[n..];
    assert (last + t)[..|last| + n] == last + e && (last + t)[|last| + n..] == u && t == e + u;
    if AllSpace(e) {
      StripIgnoresBlanks("", last, e);
      assert "" + last + e == last + e;
      LeadingBlanks(e, u);
    } else {
      VisibleExtensionShows(last, t);
    }
  }

  lemma CutIs(s: string)
    ensures Rest(s) == Segments(s).rest && Sentences(s) == SpokenOf(Segments(s).segments)
  {
  }

  lemma SamePrefix<T>(a: seq<T>, b: seq<T>, c: seq<T>)
    ensures a + b == a + c <==> b == c
  {
    if a + b == a + c {
      assert b == (a + b)[|a|..] == (a + c)[|a|..] == c;
    }
  }

  lemma QuoteNeverEqual(a: string, ae: string, st: seq<string>, su: seq<string>)
    requires a != "" && |ae| > |a| && ae[0] == a[0]
    requires |a| == 1 ==> IsTerm(a[0])
    requires st == su || OpensWithQuote(st)
    ensures Kept(a) + st != Kept(ae) + su
  {
    assert (Kept(ae) + su)[0] == ae;
    assert Kept(a) == [] ==> Kept(a) + st == st;
    assert Kept(a) != [] ==> (Kept(a) + st)[0] == a;
  }

  lemma TermNeverEqual(a: string, e: string, ae: string, su: seq<string>)
    requires |ae| > |a| && |ae| > |e| && |ae| >= MIN_SENTENCE_CHARS
    ensures Kept(a) + (Kept(e) + su) != Kept(ae) + su
  {
    assert (Kept(ae) + su)[0] == ae;
    assert |Kept(a) + (Kept(e) + su)| == |Kept(a)| + |Kept(e)| + |su|;
    assert Kept(a) != [] ==> (Kept(a) + (Kept(e) + su))[0] == a;
    assert Kept(a) == [] && Kept(e) != [] ==> (Kept(a) + (Kept(e) + su))[0] == e;
  }

  lemma OneVisibleIsTerm(last: string)
    requires MatchEnd(last).Some? && last[FirstBoundary(last)] != '\n'
    ensures |Strip(last)| == 1 ==> IsTerm(Strip(last)[0])
  {
    hide Strip, Skip, GreedyEnd;
    var p := FirstBoundary(last);
    SkipStops(last, 0, Plain);
    var l, r := StripParts(last);
    var core := Strip(last);
    assert forall i :: 0 <= i < |l| ==> last[i] == l[i];
    assert forall i :: |l| + |core| <= i < |last| ==> last[i] == r[i - |l| - |core|];
  }

  lemma VisibleExtensionShows(last: string, t: string)
    requires MatchEnd(last) == Some(|last|) && !AllSpace(t[..Extension(last, t)])
    ensures var n := Extension(last, t);
      Kept(Strip(last)) + Sentences(t) != Kept(Strip(last + t[..n])) + Sentences(t[n..])
  {
    hide Strip, MatchEnd, Sentences, Extension, AllSpace, TailRun, OpensWithQuote;
    var n := Extension(last, t);
    var e, u := t[..n], t[n..];
    assert t == e + u;
    ExtensionShape(last, t);
    StripGrows(last, e);
    SentencesStep(t);
    if TailRun(e) && (n < |t| ==> !IsTail(t[n])) {
      LeadingQuotes(e, u);
      OneVisibleIsTerm(last);
      QuoteNeverEqual(Strip(last), Strip(last + e), Sentences(t), Sentences(u));
    } else {
      TermNeverEqual(Strip(last), Strip(e), Strip(last + e), Sentences(u));
    }
  }

  /** The sentences emitted and the buffer left when `pieces` are fed one after another. */
  function Fed(pieces: seq<string>): (r: (seq<string>, string))
  {
    if pieces == [] then ([], "")
    else
      var n := |pieces| - 1;
      var before := Fed(pieces[..n]);
      (before.0 + Sentences(before.1 + pieces[n]), Rest(before.1 + pieces[n]))
  }

  /** Every cut of the stream into pieces is seamless. */
  predicate AllSeamless(pieces: seq<string>)
  {
    pieces == [] ||
    var n := |pieces| - 1;
    AllSeamless(pieces[..n]) && Seamless(Concat(pieces[..n]), pieces[n])
  }

  /** A stream whose cuts are all seamless is spoken as the whole text would be. */
  lemma {:induction false} SeamlessStream(pieces: seq<string>)
    requires AllSeamless(pieces)
    ensures Fed(pieces).0 == Sentences(Concat(pieces))
    ensures FlushOf(Fed(pieces).1) == FlushOf(Rest(Concat(pieces)))
    ensures Padded(Fed(pieces).1, Rest(Concat(pieces)))
  {
    hide Sentences, Rest, FlushOf, Seamless, Padded;
    NoSentences();
    CutIs("");
    PaddedSelf("");
    if pieces != [] {
      var n := |pieces| - 1;
      var before, t := Concat(pieces[..n]), pieces[n];
      SeamlessStream(pieces[..n]);
      assert pieces == pieces[..n] + [t];
      ConcatSnoc(pieces[..n], t);
      var buffer, r := Fed(pieces[..n]).1, Rest(before);
      PaddedFeed(buffer, r, t);
      ChunkIndependence(before, t);
      PaddedTrans(Rest(buffer + t), Rest(r + t), Rest(before + t));
    }
    PaddedFlush(Fed(pieces).1, Rest(Concat(pieces)));
  }

  /** Raw segments cut off a stream, in order. */
  function FedSegments(pieces: seq<string>): seq<string>
  {
    if pieces == [] then []
    else
      var n := |pieces| - 1;
      FedSegments(pieces[..n]) + Segments(Fed(pieces[..n]).1 + pieces[n]).segments
  }

  /**
   * Whatever the pieces, the segments cut off and the remainder are together the whole text, and what is
   * spoken is exactly the segments with at least two visible characters, stripped, in order.
   */
  lemma {:induction false} StreamNothingLost(pieces: seq<string>)
    ensures Concat(FedSegments(pieces)) + Fed(pieces).1 == Concat(pieces)
    ensures Fed(pieces).0 == SpokenOf(FedSegments(pieces))
  {
    hide Segments, SpokenOf, Concat, Sentences, Rest, Fed, FedSegments;
    if pieces == [] {
      NothingFed();
    } else {
      var n := |pieces| - 1;
      var before, t := pieces[..n], pieces[n];
      StreamNothingLost(before);
      FedStep(pieces);
      CutIs(Fed(before).1 + t);
      NothingLost(Fed(before).1 + t);
      var segments := Segments(Fed(before).1 + t).segments;
      SpokenAppend(FedSegments(before), segments);
      assert pieces == before + [t];
      ConcatSnoc(before, t);
      CarriedOver(FedSegments(before), segments, Fed(before).1, t, Fed(pieces).1);
    }
  }

  lemma NoRemainder()
    ensures FlushOf("") == None
  {
    StripBlank("");
  }

  lemma NothingFed()
    ensures Fed([]) == ([], "") && FedSegments([]) == [] && SpokenOf([]) == [] && Concat([]) == "" && "" + "" == ""
  {
  }

  lemma CarriedOver(before: seq<string>, segments: seq<string>, buffer: string, t: string, rest: string)
    requires Concat(segments) + rest == buffer + t
    ensures Concat(before + segments) + rest == (Concat(before) + buffer) + t
  {
    ConcatAppend(before, segments);
    hide Concat;
    Associative(Concat(before), Concat(segments), rest);
    Associative(Concat(before), buffer, t);
  }

  lemma FedStep(pieces: seq<string>)
    requires pieces != []
    ensures var n := |pieces| - 1;
      var before, text := Fed(pieces[..n]), Fed(pieces[..n]).1 + pieces[n];
      && Fed(pieces) == (before.0 + Sentences(text), Rest(text))
      && FedSegments(pieces) == FedSegments(pieces[..n]) + Segments(text).segments
  {
    hide Segments, Sentences, Rest;
  }

  lemma {:induction false} SpokenAppend(a: seq<string>, b: seq<string>)
    ensures SpokenOf(a + b) == SpokenOf(a) + SpokenOf(b)
  {
    hide Kept, Strip;
    if a == [] {
      assert a + b == b;
    } else {
      assert (a + b)[1..] == a[1..] + b;
      SpokenAppend(a[1..], b);
      Associative(Kept(Strip(a[0])), SpokenOf(a[1..]), SpokenOf(b));
    }
  }

  lemma PaddedSelf(a: string)
    ensures Padded(a, a)
  {
    assert a[0..] == a;
  }

  lemma PaddedFeed(buffer: string, r: string, t: string)
    requires Padded(buffer, r)
    ensures Sentences(buffer + t) == Sentences(r + t) && Padded(Rest(buffer + t), Rest(r + t))
  {
    hide Sentences, Rest;
    var l := buffer[..|buffer| - |r|];
    assert buffer + t == l + (r + t);
    LeadingBlanks(l, r + t);
  }

  lemma PaddedTrans(a: string, b: string, c: string)
    requires Padded(a, b) && Padded(b, c)
    ensures Padded(a, c)
  {
    var n, m := |a| - |b|, |b| - |c|;
    assert a[n..] == b && b[m..] == c;
    assert a[n + m..] == a[n..][m..];
    forall i | 0 <= i < n + m ensures IsSpace(a[i]) {
      if i < n {
        assert a[..n][i] == a[i];
      } else {
        assert a[n..][i - n] == a[i] == b[..m][i - n];
      }
    }
  }
}
