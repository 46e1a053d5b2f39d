/** Python's `str.strip`, `"".join` and `xs[-n:]`, shared by the components below. */
module Text {

  datatype Option<+T> = None | Some(value: T)

  /** Unicode whitespace: the characters `str.strip()` removes and `\s` matches. */
  predicate IsSpace(c: char)
  {
    || '\t' <= c <= '\r'
    || '\U{1C}' <= c <= ' '
    || c == '\U{85}' || c == '\U{A0}' || c == '\U{1680}'
    || '\U{2000}' <= c <= '\U{200A}'
    || c == '\U{2028}' || c == '\U{2029}' || c == '\U{202F}' || c == '\U{205F}' || c == '\U{3000}'
  }

  predicate AllSpace(s: string)
  {
    forall i :: 0 <= i < |s| ==> IsSpace(s[i])
  }

  function Lstrip(s: string): (r: string)
    ensures |r| <= |s|
  {
    if s != "" && IsSpace(s[0]) then Lstrip(s[1..]) else s
  }

  function Rstrip(s: string): (r: string)
    ensures |r| <= |s|
  {
    if s != "" && IsSpace(s[|s| - 1]) then Rstrip(s[..|s| - 1]) else s
  }

  function Strip(s: string): (r: string)
    ensures |r| <= |s|
  {
    Rstrip(Lstrip(s))
  }

  /** A string that `strip` leaves alone. */
  predicate Trimmed(s: string)
  {
    s == "" || (!IsSpace(s[0]) && !IsSpace(s[|s| - 1]))
  }

  /** `strip` cuts a string into blank, trimmed core, blank. */
  lemma {:induction false} StripParts(s: string) returns (l: string, r: string)
    ensures s == l + Strip(s) + r && AllSpace(l) && AllSpace(r) && Trimmed(Strip(s))
  {
    hide IsSpace, AllSpace, Lstrip, Rstrip;
    l := LstripParts(s);
    r := RstripParts(Lstrip(s));
    if Strip(s) != "" {
      assert Lstrip(s)[0] == Strip(s)[0];
    }
    assert s == l + (Strip(s) + r);
  }

  lemma {:induction false} LstripParts(s: string) returns (l: string)
    ensures s == l + Lstrip(s) && AllSpace(l)
    ensures Lstrip(s) == "" || !IsSpace(Lstrip(s)[0])
  {
    if s != "" && IsSpace(s[0]) {
      var rest := LstripParts(s[1..]);
      l := [s[0]] + rest;
    } else {
      l := "";
    }
  }

  lemma {:induction false} RstripParts(s: string) returns (r: string)
    ensures s == Rstrip(s) + r && AllSpace(r)
    ensures Rstrip(s) == "" || !IsSpace(Rstrip(s)[|Rstrip(s)| - 1])
  {
    if s != "" && IsSpace(s[|s| - 1]) {
      var rest := RstripParts(s[..|s| - 1]);
      r := rest + [s[|s| - 1]];
      assert s == s[..|s| - 1] + [s[|s| - 1]];
    } else {
      r := "";
    }
  }

  /** The trimmed core is unique, so this is all there is to know about `strip`. */
  lemma {:induction false} StripUnique(l: string, core: string, r: string)
    requires AllSpace(l) && AllSpace(r) && Trimmed(core)
    ensures Strip(l + core + r) == core
  {
    LstripBlank(l, core + r);
    assert l + (core + r) == l + core + r;
    if core == "" {
      LstripBlank(r, "");
      assert core + r == r + "";
    } else {
      assert (core + r)[0] == core[0];
    }
    if core != "" {
      RstripBlank(core, r);
    }
  }

  lemma {:induction false} LstripBlank(l: string, s: string)
    requires AllSpace(l)
    ensures Lstrip(l + s) == Lstrip(s)
  {
    if l == "" {
      assert l + s == s;
    } else {
      assert (l + s)[1..] == l[1..] + s;
      LstripBlank(l[1..], s);
    }
  }

  lemma {:induction false} RstripBlank(s: string, r: string)
    requires AllSpace(r)
    ensures Rstrip(s + r) == Rstrip(s)
  {
    if r == "" {
      assert s + r == s;
    } else {
      assert (s + r)[..|s + r| - 1] == s + r[..|r| - 1];
      RstripBlank(s, r[..|r| - 1]);
    }
  }

  /** Blanks on either side are invisible after `strip`. */
  lemma StripIgnoresBlanks(l: string, s: string, r: string)
    requires AllSpace(l) && AllSpace(r)
    ensures Strip(l + s + r) == Strip(s)
  {
    var a, b := StripParts(s);
    assert l + s + r == (l + a) + Strip(s) + (b + r);
    StripUnique(l + a, Strip(s), b + r);
  }

  lemma StripBlank(s: string)
    requires AllSpace(s)
    ensures Strip(s) == ""
  {
    StripUnique(s, "", "");
    assert s + "" + "" == s;
  }

  lemma StripEmpty(s: string)
    ensures Strip(s) == "" <==> AllSpace(s)
  {
    var l, r := StripParts(s);
    if AllSpace(s) {
      StripBlank(s);
    }
  }

  /** Appending something visible makes the stripped text strictly longer. */
  lemma StripGrows(s: string, e: string)
    requires !AllSpace(e)
    ensures |Strip(s + e)| > |Strip(s)|
    ensures !AllSpace(s) ==>
      && |Strip(s + e)| > |Strip(e)|
      && Strip(s) != ""
      && Strip(s + e)[0] == Strip(s)[0]
  {
    hide IsSpace, Lstrip, Rstrip, Strip;
    var l, r := StripParts(s);
    var a, b := StripParts(e);
    StripEmpty(e);
    StripEmpty(s);
    if AllSpace(s) {
      StripUnique(s + a, Strip(e), b);
      assert s + e == (s + a) + Strip(e) + b;
    } else {
      var core := Strip(s) + (r + a) + Strip(e);
      assert s + e == l + core + b;
      StripUnique(l, core, b);
    }
  }

  /** `"".join(parts)`. */
  function Concat(parts: seq<string>): string
  {
    if parts == [] then "" else parts[0] + Concat(parts[1..])
  }

  lemma Glue(s: string, e: nat, x: string, r: string)
    requires e <= |s| && x + r == s[e..]
    ensures (s[..e] + x) + r == s
  {
    assert (s[..e] + x) + r == s[..e] + (x + r);
  }

  lemma Associative<T>(a: seq<T>, b: seq<T>, c: seq<T>)
    ensures (a + b) + c == a + (b + c)
  {
  }

  lemma DropDrop<T>(s: seq<T>, a: nat, b: nat)
    requires a + b <= |s|
    ensures s[a..][b..] == s[a + b..]
  {
  }

  lemma ConcatCons(p: string, parts: seq<string>)
    ensures Concat([p] + parts) == p + Concat(parts)
  {
    assert ([p] + parts)[1..] == parts;
  }

  lemma {:induction false} ConcatAppend(a: seq<string>, b: seq<string>)
    ensures Concat(a + b) == Concat(a) + Concat(b)
  {
    if a == [] {
      assert a + b == b;
    } else {
      assert (a + b)[1..] == a[1..] + b;
      ConcatAppend(a[1..], b);
    }
  }

  lemma ConcatSnoc(a: seq<string>, s: string)
    ensures Concat(a + [s]) == Concat(a) + s
  {
    ConcatAppend(a, [s]);
    assert Concat([s]) == s + Concat([]);
  }

  /** The last `n` elements, or all of them when there are fewer. */
  function LastN<T>(s: seq<T>, n: nat): (r: seq<T>)
    ensures |r| == if |s| <= n then |s| else n
  {
    if |s| <= n then s else s[|s| - n..]
  }

  lemma Inhabited(s: set<int>)
    ensures s == {} || exists x :: x in s
  {
    if forall x :: x !in s {
      assert s == {};
    }
  }

  predicate IsMin(s: set<int>, m: int)
  {
    m in s && forall x :: x in s ==> m <= x
  }

  lemma {:induction false} MinExists(s: set<int>)
    requires s != {}
    ensures exists m :: IsMin(s, m)
    decreases |s|
  {
    Inhabited(s);
    var x :| x in s;
    if exists y :: y in s && y < x {
      var y :| y in s && y < x;
      var rest := s - {x};
      assert y in rest && forall z :: z in s ==> z == x || z in rest;
      MinExists(rest);
      var m :| IsMin(rest, m);
      assert IsMin(s, m);
    } else {
      assert IsMin(s, x);
    }
  }

  /** `sorted(...)` of the distinct keys of a dictionary. */
  function Sorted(s: set<int>): (r: seq<int>)
    ensures forall i :: 0 <= i < |r| ==> r[i] in s
    ensures forall x :: x in s ==> x in r
    ensures forall i, j :: 0 <= i < j < |r| ==> r[i] < r[j]
  {
    if s == {} then []
    else
      MinExists(s);
      var m :| IsMin(s, m);
      [m] + Sorted(s - {m})
  }
}
