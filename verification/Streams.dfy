/** Streams of pieces: cutting one anywhere but at a seamless place always shows in what is spoken. */
module Streams {
  import opened Text
  import opened Sentence

  // ---------- the segments of a stream, first to last ----------

  function Length(pieces: seq<string>): nat
  {
    if pieces == [] then 0 else |pieces[0]| + Length(pieces[1..])
  }

  lemma LengthCons(p: string, pieces: seq<string>)
    ensures Length([p] + pieces) == |p| + Length(pieces)
  {
    assert ([p] + pieces)[1..] == pieces;
  }

  /** The segments the splitter cuts off when the pieces are fed one after another. */
  function Cuts(pieces: seq<string>): seq<string>
    decreases Length(pieces), |pieces|
  {
    if pieces == [] then []
    else
      match MatchEnd(pieces[0])
      case Some(e) =>
        LengthCons(pieces[0][e..], pieces[1..]);
        [pieces[0][..e]] + Cuts([pieces[0][e..]] + pieces[1..])
      case None =>
        if |pieces| == 1 then []
        else
          LengthCons(pieces[0] + pieces[1], pieces[2..]);
          LengthCons(pieces[1], pieces[2..]);
          assert [pieces[1]] + pieces[2..] == pieces[1..];
          Cuts([pieces[0] + pieces[1]] + pieces[2..])
  }

  /** The splitter from a given buffer on. */
  function FedFrom(buffer: string, pieces: seq<string>): seq<string>
    decreases |pieces|
  {
    if pieces == [] then []
    else Sentences(buffer + pieces[0]) + FedFrom(Rest(buffer + pieces[0]), pieces[1..])
  }

  lemma {:induction false} FedInTwo(front: seq<string>, back: seq<string>)
    ensures Fed(front + back).0 == Fed(front).0 + FedFrom(Fed(front).1, back)
    decreases |back|
  {
    hide Sentences, Rest;
    if back == [] {
      assert front + back == front && Fed(front).0 + [] == Fed(front).0;
    } else {
      var more := front + [back[0]];
      assert more + back[1..] == front + back && more[..|more| - 1] == front;
      FedInTwo(more, back[1..]);
      var text := Fed(front).1 + back[0];
      Associative(Fed(front).0, Sentences(text), FedFrom(Rest(text), back[1..]));
    }
  }

  lemma {:induction false} PaddedStream(buffer: string, r: string, pieces: seq<string>)
    requires Padded(buffer, r)
    ensures FedFrom(buffer, pieces) == FedFrom(r, pieces)
    decreases |pieces|
  {
    hide Sentences, Rest, Padded;
    if pieces != [] {
      PaddedFeed(buffer, r, pieces[0]);
      PaddedStream(Rest(buffer + pieces[0]), Rest(r + pieces[0]), pieces[1..]);
    }
  }

  lemma {:induction false} CutsOfFirst(x: string, pieces: seq<string>)
    ensures SpokenOf(Cuts([x] + pieces)) == Sentences(x) + SpokenOf(Cuts([Rest(x)] + pieces))
    decreases |x|
  {
    hide MatchEnd, Strip, Kept, Sentences, Rest, SpokenOf;
    SentencesStep(x);
    var m := MatchEnd(x);
    if m.Some? {
      var e := m.value;
      CutsStep([x] + pieces);
      assert ([x] + pieces)[1..] == pieces;
      CutsOfFirst(x[e..], pieces);
      SpokenCons(x[..e], Cuts([x[e..]] + pieces));
      Associative(Kept(Strip(x[..e])), Sentences(x[e..]), SpokenOf(Cuts([Rest(x)] + pieces)));
    } else {
      assert [] + SpokenOf(Cuts([x] + pieces)) == SpokenOf(Cuts([x] + pieces));
    }
  }

  lemma CutsStep(pieces: seq<string>)
    requires pieces != []
    ensures MatchEnd(pieces[0]).Some? ==>
      var e := MatchEnd(pieces[0]).value;
      Cuts(pieces) == [pieces[0][..e]] + Cuts([pieces[0][e..]] + pieces[1..])
    ensures MatchEnd(pieces[0]).None? ==>
      Cuts(pieces) == if |pieces| == 1 then [] else Cuts([pieces[0] + pieces[1]] + pieces[2..])
  {
    hide MatchEnd;
  }

  lemma {:induction false} FedIsCuts(buffer: string, pieces: seq<string>)
    requires MatchEnd(buffer).None?
    ensures FedFrom(buffer, pieces) == SpokenOf(Cuts([buffer] + pieces))
    decreases |pieces|
  {
    hide MatchEnd, Sentences, Rest, SpokenOf;
    CutsStep([buffer] + pieces);
    if pieces == [] {
      NothingFed();
    } else {
      var x := buffer + pieces[0];
      assert ([buffer] + pieces)[1] == pieces[0] && ([buffer] + pieces)[2..] == pieces[1..];
      CutsOfFirst(x, pieces[1..]);
      RestHasNoMatch(x);
      FedIsCuts(Rest(x), pieces[1..]);
    }
  }

  lemma RestHasNoMatch(x: string)
    ensures MatchEnd(Rest(x)).None?
  {
    NothingLost(x);
  }

  /** The first segment of a stream, and the stream that is left. */
  lemma {:induction false} FirstCut(pieces: seq<string>) returns (g: string, left: seq<string>)
    ensures Cuts(pieces) == [] || (
      && Cuts(pieces) == [g] + Cuts(left) && Concat(pieces) == g + Concat(left)
      && g != "" && MatchEnd(g) == Some(|g|))
    decreases |pieces|
  {
    g, left := "", [];
    if pieces != [] {
      hide MatchEnd, Cuts;
      CutsStep(pieces);
      var m := MatchEnd(pieces[0]);
      if m.Some? {
        var e := m.value;
        g, left := pieces[0][..e], [pieces[0][e..]] + pieces[1..];
        SearchIgnoresTheFuture(pieces[0], e);
        ConcatCons(pieces[0][e..], pieces[1..]);
        Associative(g, pieces[0][e..], Concat(pieces[1..]));
        assert g + pieces[0][e..] == pieces[0];
      } else if |pieces| > 1 {
        var merged := [pieces[0] + pieces[1]] + pieces[2..];
        g, left := FirstCut(merged);
        ConcatMerged(pieces);
      } else {
        NoCuts(pieces);
      }
    } else {
      NoCuts(pieces);
    }
  }

  lemma NoCuts(pieces: seq<string>)
    requires pieces == [] || (|pieces| == 1 && MatchEnd(pieces[0]).None?)
    ensures Cuts(pieces) == []
  {
    hide MatchEnd;
  }

  lemma ConcatMerged(pieces: seq<string>)
    requires |pieces| > 1
    ensures Concat([pieces[0] + pieces[1]] + pieces[2..]) == Concat(pieces)
  {
    ConcatCons(pieces[0] + pieces[1], pieces[2..]);
    assert pieces[1..][1..] == pieces[2..];
    Associative(pieces[0], pieces[1], Concat(pieces[2..]));
  }

  // ---------- visible characters ----------

  function Visible(s: string): nat
  {
    if s == "" then 0 else (if IsSpace(s[0]) then 0 else 1) + Visible(s[1..])
  }

  lemma {:induction false} VisibleAppend(a: string, b: string)
    ensures Visible(a + b) == Visible(a) + Visible(b)
  {
    hide IsSpace;
    if a == "" {
      assert a + b == b;
    } else {
      assert (a + b)[1..] == a[1..] + b;
      VisibleAppend(a[1..], b);
    }
  }

  lemma {:induction false} VisibleBlank(s: string)
    ensures Visible(s) == 0 <==> AllSpace(s)
  {
    hide IsSpace;
    if s != "" {
      VisibleBlank(s[1..]);
      assert s == [s[0]] + s[1..];
    }
  }

  lemma VisibleStrip(s: string)
    ensures Visible(Strip(s)) == Visible(s)
  {
    hide Strip;
    var l, r := StripParts(s);
    VisibleAppend(l + Strip(s), r);
    VisibleAppend(l, Strip(s));
    VisibleBlank(l);
    VisibleBlank(r);
  }

  function VisibleAll(ys: seq<string>): nat
  {
    if ys == [] then 0 else Visible(ys[0]) + VisibleAll(ys[1..])
  }

  lemma {:induction false} VisibleAllAppend(a: seq<string>, b: seq<string>)
    ensures VisibleAll(a + b) == VisibleAll(a) + VisibleAll(b)
  {
    if a == [] {
      assert a + b == b;
    } else {
      assert (a + b)[1..] == a[1..] + b;
      VisibleAllAppend(a[1..], b);
    }
  }

  // ---------- sentences that are nothing but punctuation ----------

  ghost predicate TermsThenTails(s: string, k: nat)
  {
    && k <= |s|
    && (forall i :: 0 <= i < k ==> IsTerm(s[i]))
    && (forall i :: k <= i < |s| ==> IsTail(s[i]))
  }

  /** Terminators, then blanks and quotes. */
  ghost predicate TermLed(y: string)
  {
    y != "" && IsTerm(y[0]) && exists k: nat :: TermsThenTails(y, k)
  }

  ghost predicate AllTermLed(ys: seq<string>)
  {
    forall i :: 0 <= i < |ys| ==> TermLed(ys[i])
  }

  /** What is left of a match that ends where `u` begins. */
  ghost predicate MatchTail(e: string, u: string, k: nat)
  {
    && TermsThenTails(e, k)
    && (e != "" && u != "" ==> !IsTail(u[0]) && (k == |e| ==> !IsTerm(u[0])))
  }

  /** A whole segment that begins, blanks aside, with a terminator is nothing but punctuation. */
  lemma SegmentIsTermLed(h: string)
    requires MatchEnd(h) == Some(|h|) && Strip(h) != "" && IsTerm(Strip(h)[0])
    ensures TermLed(Strip(h))
  {
    hide Strip, IsSpace;
    var l, r := StripParts(h);
    var q := |l|;
    var x := Strip(h);
    assert h[q] == x[0];
    SkipStops(h, 0, Plain);
    var p := FirstBoundary(h);
    assert p <= q;
    if p < q {
      assert h[p] == l[p];
      BlankBoundary(l[p]);
      SkipStops(h, p + 1, Newline);
      assert false;
    }
    SkipStops(h, p + 1, Term);
    var t := Skip(h, p + 1, Term);
    SkipStops(h, t, Tail);
    var k := if t - p <= |x| then t - p else |x|;
    assert forall i :: 0 <= i < |x| ==> x[i] == h[q + i];
    assert TermsThenTails(x, k);
  }

  lemma BlankBoundary(c: char)
    requires IsSpace(c)
    ensures !IsTerm(c)
  {
  }

  /** What a match still swallows of the text that follows. */
  lemma ExtensionIsTail(g: string, t: string) returns (k: nat)
    requires MatchEnd(g) == Some(|g|) && !AllSpace(t[..Extension(g, t)])
    ensures var n := Extension(g, t); MatchTail(t[..n], t[n..], k)
  {
    hide IsSpace, AllSpace;
    ExtensionShape(g, t);
    var p := FirstBoundary(g);
    SkipStops(g, 0, Plain);
    SkipStops(t, 0, Term);
    SkipStops(t, 0, Tail);
    SkipStops(t, Skip(t, 0, Term), Tail);
    k := if Skip(g, p + 1, Term) == |g| then Skip(t, 0, Term) else 0;
  }

  /** A segment that starts inside what is left of a match and goes on beyond it opens with a quote. */
  lemma BeyondTheMatch(e: string, u: string, k: nat, g: string)
    requires MatchTail(e, u, k) && !AllSpace(e) && |e| < |g| <= |e + u| && g == (e + u)[..|g|]
    requires MatchEnd(g) == Some(|g|)
    ensures |Strip(g)| >= MIN_SENTENCE_CHARS && !IsTerm(Strip(g)[0])
  {
    assert g[..|e|] == e && g[|e|] == u[0];
    NoBoundaryIn(e, u, k, g);
    var v := g[|e|..];
    assert g == e + v;
    NotBlank(v);
    StripGrows(e, v);
    StripEmpty(e);
    StripInside(e);
    assert Strip(g)[0] == Strip(e)[0];
  }

  lemma NotBlank(v: string)
    requires v != "" && !IsTail(v[0])
    ensures !AllSpace(v)
  {
  }

  lemma StripInside(e: string)
    requires !AllSpace(e)
    ensures Strip(e) != "" && exists i :: 0 <= i < |e| && e[i] == Strip(e)[0]
  {
    hide Strip;
    StripEmpty(e);
    var l, r := StripParts(e);
    assert e[|l|] == Strip(e)[0];
  }

  lemma TailsAreNotTerms()
    ensures IsTail('\n') && forall c :: IsTerm(c) ==> !IsTail(c)
  {
  }

  lemma {:induction false} SkipStaysBefore(s: string, i: nat, p: Class, stop: nat)
    requires i <= stop < |s| && !Is(p, s[stop])
    ensures Skip(s, i, p) <= stop
    decreases stop - i
  {
    if i < stop && Is(p, s[i]) {
      SkipStaysBefore(s, i + 1, p, stop);
    }
  }

  /** A match that starts inside what is left of another one ends there too. */
  lemma BoundaryEndsInside(e: string, u: string, k: nat, g: string)
    requires MatchTail(e, u, k) && u != "" && |g| > |e| && g[..|e|] == e && g[|e|] == u[0]
    requires FirstBoundary(g) < |e|
    ensures MatchEnd(g).Some? && MatchEnd(g).value <= |e|
  {
    hide IsSpace;
    TailsAreNotTerms();
    var p := FirstBoundary(g);
    SkipStops(g, 0, Plain);
    assert forall i :: 0 <= i < |e| ==> g[i] == e[i];
    if IsTerm(g[p]) {
      SkipStaysBefore(g, 0, Plain, 0);
      SkipStaysBefore(g, 1, Term, if k < |e| then k else |e|);
      SkipStaysBefore(g, Skip(g, 1, Term), Tail, |e|);
    } else {
      SkipStaysBefore(g, p + 1, Newline, |e|);
    }
  }

  lemma NoBoundaryIn(e: string, u: string, k: nat, g: string)
    requires MatchTail(e, u, k) && e != "" && u != "" && |g| > |e| && g[..|e|] == e && g[|e|] == u[0]
    requires MatchEnd(g) == Some(|g|)
    ensures forall i :: 0 <= i < |e| ==> !IsBoundary(e[i])
  {
    hide IsSpace, MatchEnd;
    SkipStops(g, 0, Plain);
    if FirstBoundary(g) < |e| {
      BoundaryEndsInside(e, u, k, g);
    }
    assert forall i :: 0 <= i < |e| ==> g[i] == e[i];
  }

  // ---------- a stream never catches up ----------

  /** How a stream and the whole text go on after the first segment of the stream. */
  lemma Step(pieces: seq<string>, g: string, left: seq<string>) returns (f: string, u: string)
    requires Concat(pieces) == g + Concat(left) && MatchEnd(g) == Some(|g|)
    ensures f == Concat(left)[..Extension(g, Concat(left))] && Concat(left) == f + u
    ensures u == Concat(left)[Extension(g, Concat(left))..]
    ensures Sentences(Concat(pieces)) == Kept(Strip(g + f)) + Sentences(u)
    ensures MatchEnd(g + f) == Some(|g + f|)
  {
    hide MatchEnd, Strip, Sentences, Kept, Extension;
    var t := Concat(left);
    MatchEndAppend(g, t);
    SentencesStep(g + t);
    var n := Extension(g, t);
    f, u := t[..n], t[n..];
    assert (g + t)[..|g| + n] == g + f && (g + t)[|g| + n..] == u;
    SearchIgnoresTheFuture(g + t, |g| + n);
  }

  /**
   * However the text is cut into pieces, what is spoken is not the speech of its tail `u` with further punctuation
   * sentences in front, when these hold more than is left of the match before `u`.
   */
  lemma {:induction false} NeverCatchesUp(e: string, u: string, k: nat, pieces: seq<string>, ys: seq<string>)
    requires Concat(pieces) == e + u && MatchTail(e, u, k)
    requires AllTermLed(ys) && VisibleAll(ys) > Visible(e)
    ensures SpokenOf(Cuts(pieces)) != ys + Sentences(u)
    decreases |e + u|, |e|
  {
    hide Cuts, Strip, Kept, Sentences, MatchEnd, Extension, Visible, TermLed, AllSpace, IsSpace, MatchTail, SpokenOf,
      Concat, AllTermLed;
    assert ys != [];
    var g, left := FirstCut(pieces);
    if Cuts(pieces) == [] {
      NothingFed();
    } else {
      SpokenCons(g, Cuts(left));
      VisibleBlank(e);
      if |g| <= |e| {
        InsideTheMatch(e, u, k, pieces, ys, g, left);
      } else if !AllSpace(e) {
        assert g == (e + u)[..|g|];
        BeyondTheMatch(e, u, k, g);
        OpensOtherwise(g, Cuts(left), ys, Sentences(u));
      } else if e != "" {
        LeadingBlanks(e, u);
        NothingLeft(e + u);
        NeverCatchesUp("", e + u, 0, pieces, ys);
      } else {
        assert e + u == u;
        FromTheStart(u, pieces, ys, g, left);
      }
    }
  }

  lemma Unshift<T>(x: T, f: seq<T>, ys: seq<T>, s: seq<T>)
    requires ys != []
    ensures [x] + f == ys + s <==> ys[0] == x && f == ys[1..] + s
  {
    if [x] + f == ys + s {
      assert ([x] + f)[0] == (ys + s)[0] && ([x] + f)[1..] == (ys + s)[1..];
      assert ([x] + f)[1..] == f && (ys + s)[1..] == ys[1..] + s;
    } else if ys[0] == x {
      assert ys == [x] + ys[1..];
      Associative([x], ys[1..], s);
    }
  }

  lemma OpensOtherwise(g: string, cuts: seq<string>, ys: seq<string>, s: seq<string>)
    requires |Strip(g)| >= MIN_SENTENCE_CHARS && !IsTerm(Strip(g)[0]) && ys != [] && AllTermLed(ys)
    ensures SpokenOf([g] + cuts) != ys + s
  {
    hide Strip;
    SpokenCons(g, cuts);
    Unshift(Strip(g), SpokenOf(cuts), ys, s);
    assert TermLed(ys[0]);
  }

  lemma NothingLeft(t: string)
    ensures MatchTail("", t, 0) && Visible("") == 0
  {
  }

  lemma MatchTailRest(e: string, u: string, k: nat, n: nat)
    requires MatchTail(e, u, k) && n <= |e|
    ensures MatchTail(e[n..], u, if k >= n then k - n else 0)
  {
  }

  lemma {:induction false} InsideTheMatch(e: string, u: string, k: nat, pieces: seq<string>, ys: seq<string>,
                                          g: string, left: seq<string>)
    requires Concat(pieces) == e + u && MatchTail(e, u, k) && ys != []
    requires AllTermLed(ys) && VisibleAll(ys) > Visible(e)
    requires Cuts(pieces) == [g] + Cuts(left) && Concat(pieces) == g + Concat(left) && g != "" && |g| <= |e|
    ensures SpokenOf(Cuts(pieces)) != ys + Sentences(u)
    decreases |e + u|, |e|, 0
  {
    hide Cuts, Strip, Sentences, MatchEnd, Extension, Visible, TermLed, AllSpace, IsSpace, MatchTail, SpokenOf, Concat;
    var n := |g|;
    var rest := e[n..];
    assert (e + u)[..n] == e[..n] && (e + u)[n..] == rest + u;
    assert g == (g + Concat(left))[..n] && Concat(left) == (g + Concat(left))[n..];
    assert e == g + rest;
    MatchTailRest(e, u, k, n);
    VisibleAppend(g, rest);
    VisibleStrip(g);
    SpokenCons(g, Cuts(left));
    var x, spoken := Strip(g), SpokenOf(Cuts(left));
    if |x| < MIN_SENTENCE_CHARS {
      NeverCatchesUp(rest, u, if k >= n then k - n else 0, left, ys);
      assert [] + spoken == spoken;
    } else {
      Unshift(x, spoken, ys, Sentences(u));
      if ys[0] == x {
        NeverCatchesUp(rest, u, if k >= n then k - n else 0, left, ys[1..]);
      }
    }
  }

  lemma {:induction false} FromTheStart(u: string, pieces: seq<string>, ys: seq<string>, g: string, left: seq<string>)
    requires Concat(pieces) == u && ys != [] && AllTermLed(ys)
    requires Cuts(pieces) == [g] + Cuts(left) && Concat(pieces) == g + Concat(left) && g != ""
    requires MatchEnd(g) == Some(|g|)
    ensures SpokenOf(Cuts(pieces)) != ys + Sentences(u)
    decreases |u|, 0, 0
  {
    hide Cuts, Strip, Sentences, MatchEnd, Extension, Visible, TermLed, AllSpace, IsSpace, MatchTail, SpokenOf, Concat,
      AllTermLed, Kept;
    var f, v := Step(pieces, g, left);
    SpokenCons(g, Cuts(left));
    var spoken := SpokenOf(Cuts(left));
    if AllSpace(f) {
      StripIgnoresBlanks("", g, f);
      assert "" + g + f == g + f;
      LeadingBlanks(f, v);
      SameSentenceFirst(Strip(g), spoken, ys, Sentences(v));
      NothingLeft(f + v);
      assert "" + (f + v) == f + v;
      PunctuationShows(ys);
      if Kept(Strip(g)) == [] {
        NeverCatchesUp("", f + v, 0, left, ys);
      } else if ys[0] == Strip(g) {
        HeadIsTermLed(ys);
        Rotated(ys, Strip(g));
        PunctuationShows(ys[1..] + [Strip(g)]);
        NeverCatchesUp("", f + v, 0, left, ys[1..] + [Strip(g)]);
      }
    } else {
      var k := ExtensionIsTail(g, Concat(left));
      ExtensionShape(g, Concat(left));
      var ys' := LongerSentenceFirst(g, f, spoken, ys, Sentences(v));
      if ys' != [] {
        NeverCatchesUp(f, v, k, left, ys');
      }
    }
  }

  lemma HeadIsTermLed(ys: seq<string>)
    requires ys != [] && AllTermLed(ys)
    ensures TermLed(ys[0])
  {
  }

  lemma Rotated(ys: seq<string>, x: string)
    requires ys != [] && AllTermLed(ys) && TermLed(x)
    ensures AllTermLed(ys[1..] + [x])
  {
    hide TermLed;
  }

  /** Punctuation sentences are visible. */
  lemma PunctuationShows(ys: seq<string>)
    requires ys != [] && AllTermLed(ys)
    ensures VisibleAll(ys) > 0
  {
    assert TermLed(ys[0]);
    TermIsVisible(ys[0], 0);
    VisibleBlank(ys[0]);
  }

  lemma SameSentenceFirst(x: string, spoken: seq<string>, ys: seq<string>, s: seq<string>)
    requires ys != []
    ensures Kept(x) == [] ==> (Kept(x) + spoken == ys + (Kept(x) + s) <==> spoken == ys + s)
    ensures Kept(x) != [] ==>
      (Kept(x) + spoken == ys + (Kept(x) + s) <==> ys[0] == x && spoken == (ys[1..] + [x]) + s)
  {
    if Kept(x) == [] {
      assert [] + spoken == spoken && [] + s == s;
    } else {
      Unshift(x, spoken, ys, [x] + s);
      Associative(ys[1..], [x], s);
    }
  }

  /**
   * The whole text begins with the segment `g + f`, the stream with `g` alone. Either the two differ at once, which
   * is the empty answer, or the stream falls behind by one more punctuation sentence.
   */
  lemma LongerSentenceFirst(g: string, f: string, spoken: seq<string>, ys: seq<string>, s: seq<string>)
    returns (more: seq<string>)
    requires ys != [] ==> AllTermLed(ys)
    requires MatchEnd(g) == Some(|g|) && MatchEnd(g + f) == Some(|g + f|) && !AllSpace(g) && !AllSpace(f)
    requires g[FirstBoundary(g)] != '\n'
    ensures more == [] ==> Kept(Strip(g)) + spoken != ys + (Kept(Strip(g + f)) + s)
    ensures more != [] ==> AllTermLed(more) && VisibleAll(more) > Visible(f)
    ensures more != [] && spoken != more + s ==> Kept(Strip(g)) + spoken != ys + (Kept(Strip(g + f)) + s)
  {
    hide Strip, MatchEnd, Visible, AllSpace, IsSpace, TermLed;
    var x, z := Strip(g), Strip(g + f);
    StripGrows(g, f);
    assert Kept(z) == [z];
    VisibleStrip(g + f);
    VisibleAppend(g, f);
    VisibleBlank(g);
    if |x| < MIN_SENTENCE_CHARS {
      OneVisibleIsTerm(g);
      SegmentIsTermLed(g + f);
      more := ys + [z];
      Associative(ys, [z], s);
      assert [] + spoken == spoken;
      VisibleAllAppend(ys, [z]);
    } else if ys != [] && ys[0] == x {
      FirstIsTerm(x);
      SegmentIsTermLed(g + f);
      more := ys[1..] + [z];
      Unshift(x, spoken, ys, [z] + s);
      Associative(ys[1..], [z], s);
      VisibleAllAppend(ys[1..], [z]);
    } else {
      more := [];
      if ys != [] {
        Unshift(x, spoken, ys, [z] + s);
      } else {
        assert ([x] + spoken)[0] == x && ([] + ([z] + s))[0] == z;
      }
    }
  }

  lemma FirstIsTerm(x: string)
    requires TermLed(x)
    ensures IsTerm(x[0])
  {
  }

  // ---------- the exact condition ----------

  /** The first place where a stream is cut visibly. */
  lemma {:induction false} FirstBadCut(pieces: seq<string>) returns (n: nat)
    requires !AllSeamless(pieces)
    ensures n < |pieces| && AllSeamless(pieces[..n]) && !Seamless(Concat(pieces[..n]), pieces[n])
  {
    hide Seamless;
    var m := |pieces| - 1;
    if AllSeamless(pieces[..m]) {
      n := m;
    } else {
      n := FirstBadCut(pieces[..m]);
      assert pieces[..m][..n] == pieces[..n];
    }
  }

  /** What a match swallows of a piece it also swallows when more text follows. */
  lemma ExtensionGrows(last: string, t: string, more: string)
    requires MatchEnd(last) == Some(|last|)
    ensures Extension(last, t) <= Extension(last, t + more)
    ensures t[..Extension(last, t)] == (t + more)[..Extension(last, t)]
  {
    SkipLocal(t, more, 0, Newline);
    SkipLocal(t, more, 0, Tail);
    SkipLocal(t, more, 0, Term);
    SkipLocal(t, more, Skip(t, 0, Term), Tail);
  }

  lemma ExtensionShows(last: string, t: string, more: string)
    requires MatchEnd(last) == Some(|last|) && !AllSpace(t[..Extension(last, t)])
    ensures !AllSpace((t + more)[..Extension(last, t + more)])
  {
    hide IsSpace, Extension, MatchEnd;
    ExtensionGrows(last, t, more);
    var n, m := Extension(last, t), Extension(last, t + more);
    var i :| 0 <= i < n && !IsSpace(t[..n][i]);
    assert (t + more)[..m][i] == t[..n][i];
  }

  /** From a cut inside a match on, nothing makes the stream sound like the whole text again. */
  lemma BadCutShows(s: string, pieces: seq<string>, buffer: string)
    requires pieces != [] && !Seamless(s, pieces[0]) && Padded(buffer, Rest(s))
    ensures Sentences(s) + FedFrom(buffer, pieces) != Sentences(s + Concat(pieces))
  {
    hide Strip, MatchEnd, Sentences, Rest, AllSpace, IsSpace, Segments, Extension, Kept, Padded, FedFrom, Cuts, Concat,
      Visible, TermLed, SpokenOf;
    CutIs(s);
    LastSegmentEndsThere(s);
    var t, more := pieces[0], Concat(pieces[1..]);
    ConcatCons(t, pieces[1..]);
    assert [t] + pieces[1..] == pieces;
    var last, kept := SegmentsAppendAtMatch(s, t + more);
    ExtensionShows(last, t, more);
    ExtensionShape(last, t + more);
    var k := ExtensionIsTail(last, t + more);
    ConcatCons(last, pieces);
    var f, u := Step([last] + pieces, last, pieces);
    PaddedStream(buffer, "", pieces);
    NoSentences();
    FedFromNothing(pieces);
    var spoken := SpokenOf(Cuts(pieces));
    var ys := LongerSentenceFirst(last, f, spoken, [], Sentences(u));
    if ys != [] {
      NeverCatchesUp(f, u, k, pieces, ys);
    }
    Associative(kept, Kept(Strip(last)), spoken);
    assert [] + (Kept(Strip(last + f)) + Sentences(u)) == Kept(Strip(last + f)) + Sentences(u);
    SamePrefix(kept, Kept(Strip(last)) + spoken, Sentences(last + (t + more)));
  }

  lemma FedFromNothing(pieces: seq<string>)
    ensures FedFrom("", pieces) == SpokenOf(Cuts(pieces))
  {
    hide Strip, Sentences, SpokenOf;
    assert MatchEnd("").None?;
    FedIsCuts("", pieces);
    if pieces == [] {
      NoCuts([""]);
      NoCuts([]);
    } else {
      CutsStep([""] + pieces);
      assert ([""] + pieces)[0] + ([""] + pieces)[1] == pieces[0];
      assert [pieces[0]] + ([""] + pieces)[2..] == pieces;
    }
  }

  /**
   * A stream of pieces is spoken as the whole text would be if and only if every cut is seamless; then what is
   * flushed at the end is the same too.
   */
  lemma StreamIndependence(pieces: seq<string>)
    ensures AllSeamless(pieces) <==> Fed(pieces).0 == Sentences(Concat(pieces))
    ensures AllSeamless(pieces) ==> FlushOf(Fed(pieces).1) == FlushOf(Rest(Concat(pieces)))
  {
    hide Sentences, Rest, FlushOf, Seamless, Padded, Fed, FedFrom;
    if AllSeamless(pieces) {
      SeamlessStream(pieces);
    } else {
      var n := FirstBadCut(pieces);
      var front, back := pieces[..n], pieces[n..];
      SeamlessStream(front);
      FedInTwo(front, back);
      assert pieces == front + back;
      ConcatAppend(front, back);
      BadCutShows(Concat(front), back, Fed(front).1);
    }
  }
}
