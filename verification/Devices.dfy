/** Devices: room-aware resolution of a spoken reference, and control with retries. */
module Devices {
  import opened Text

  datatype Room = Room(id: nat, slug: string, name: string)

  datatype Device = Device(id: nat, name: string, kind: string, adapter: string, capabilities: set<string>)

  datatype Row = Row(device: Device, room: Room)

  /** A spoken word and the device types it may stand for. */
  datatype Alias = Alias(word: string, kinds: set<string>)

  /** `str.lower` and the alias table, both left arbitrary. */
  datatype Lexicon = Lexicon(lower: string -> string, aliases: seq<Alias>)

  function WithoutSpaces(s: string): string
  {
    if s == "" then ""
    else if s[0] == ' ' then WithoutSpaces(s[1..])
    else [s[0]] + WithoutSpaces(s[1..])
  }

  function Normalize(lex: Lexicon, text: string): string
  {
    lex.lower(Strip(WithoutSpaces(text)))
  }

  /** Python's `part in whole`. */
  predicate Within(part: string, whole: string)
  {
    exists i :: 0 <= i <= |whole| && BeginsAt(part, whole, i)
  }

  predicate BeginsAt(part: string, whole: string, i: nat)
  {
    i + |part| <= |whole| && whole[i..i + |part|] == part
  }

  /** An alias is looked for in the reference as spoken, not in its normal form. */
  predicate Matches(lex: Lexicon, ref: string, d: Device)
  {
    var spoken, name := Normalize(lex, ref), Normalize(lex, d.name);
    || spoken == name || Within(spoken, name) || Within(name, spoken)
    || exists k :: 0 <= k < |lex.aliases| && Within(lex.aliases[k].word, ref) && d.kind in lex.aliases[k].kinds
  }

  datatype Outcome = NotFound | Ambiguous(candidates: seq<string>) | Found(row: Row, crossRoom: bool)

  /** A Python string argument that is neither `None` nor empty. */
  predicate Given(s: Option<string>)
  {
    s.Some? && s.value != ""
  }

  predicate InRoom(lex: Lexicon, row: Row, room: string)
  {
    var wanted := Normalize(lex, room);
    wanted == Normalize(lex, row.room.slug) || wanted == Normalize(lex, row.room.name)
  }

  predicate InHubRoom(lex: Lexicon, row: Row, hubRoom: string)
  {
    Normalize(lex, row.room.slug) == Normalize(lex, hubRoom)
  }

  function Where(p: Row -> bool, rows: seq<Row>): seq<Row>
  {
    if rows == [] then []
    else (if p(rows[0]) then [rows[0]] else []) + Where(p, rows[1..])
  }

  function Matching(lex: Lexicon, ref: string): Row -> bool
  {
    (row: Row) => Matches(lex, ref, row.device)
  }

  function Inside(lex: Lexicon, room: string): Row -> bool
  {
    (row: Row) => InRoom(lex, row, room)
  }

  function AtHub(lex: Lexicon, hubRoom: string): Row -> bool
  {
    (row: Row) => InHubRoom(lex, row, hubRoom)
  }

  function Labels(rows: seq<Row>): seq<string>
  {
    if rows == [] then [] else [rows[0].room.name + " " + rows[0].device.name] + Labels(rows[1..])
  }

  /** `rows` is the join as the database happens to return it. */
  function Resolve(lex: Lexicon, rows: seq<Row>, ref: string, room: Option<string>, hubRoom: Option<string>): Outcome
  {
    var matched := Where(Matching(lex, ref), rows);
    if matched == [] then NotFound
    else if Given(room) then
      var scoped := Where(Inside(lex, room.value), matched);
      if |scoped| == 1 then Found(scoped[0], false)
      else if |scoped| > 1 then Ambiguous(Labels(scoped))
      else NotFound
    else
      var scoped := if Given(hubRoom) then Where(AtHub(lex, hubRoom.value), matched) else [];
      if |scoped| == 1 then Found(scoped[0], false)
      else if |scoped| > 1 then Ambiguous(Labels(scoped))
      else if |matched| == 1 then Found(matched[0], true)
      else Ambiguous(Labels(matched))
  }

  // ---------- the order of the rows does not matter ----------

  /** The same kind of answer, the same device, the same candidates up to order. */
  predicate SameAnswer(a: Outcome, b: Outcome)
  {
    match a
    case NotFound => b.NotFound?
    case Found(_, _) => a == b
    case Ambiguous(cs) => b.Ambiguous? && multiset(cs) == multiset(b.candidates)
  }

  lemma {:induction false} WhereCounts(p: Row -> bool, rows: seq<Row>, row: Row)
    ensures multiset(Where(p, rows))[row] == if p(row) then multiset(rows)[row] else 0
  {
    if rows != [] {
      assert rows == [rows[0]] + rows[1..];
      WhereCounts(p, rows[1..], row);
    }
  }

  lemma WhereIsOrderFree(p: Row -> bool, a: seq<Row>, b: seq<Row>)
    requires multiset(a) == multiset(b)
    ensures multiset(Where(p, a)) == multiset(Where(p, b)) && |Where(p, a)| == |Where(p, b)|
  {
    forall row ensures multiset(Where(p, a))[row] == multiset(Where(p, b))[row] {
      WhereCounts(p, a, row);
      WhereCounts(p, b, row);
    }
    SameSize(Where(p, a), Where(p, b));
  }

  lemma SameSize<T>(a: seq<T>, b: seq<T>)
    requires multiset(a) == multiset(b)
    ensures |a| == |b|
    ensures |a| == 1 ==> a[0] == b[0]
  {
    assert |multiset(a)| == |a| && |multiset(b)| == |b|;
    if |a| == 1 {
      assert a == [a[0]] && b == [b[0]];
      assert multiset(a)[a[0]] == 1;
      assert multiset(b)[a[0]] == 1;
      assert a[0] in multiset(b);
    }
  }

  lemma {:induction false} LabelsAppend(a: seq<Row>, b: seq<Row>)
    ensures Labels(a + b) == Labels(a) + Labels(b)
  {
    if a == [] {
      assert a + b == b;
    } else {
      assert (a + b)[1..] == a[1..] + b;
      LabelsAppend(a[1..], b);
    }
  }

  lemma RemoveOne(a: seq<Row>, b: seq<Row>, k: nat)
    requires a != [] && k < |b| && b[k] == a[0] && multiset(a) == multiset(b)
    ensures multiset(a[1..]) == multiset(b[..k] + b[k + 1..])
  {
    assert a == [a[0]] + a[1..];
    assert b == b[..k] + [b[k]] + b[k + 1..];
    forall x ensures multiset(a[1..])[x] == multiset(b[..k] + b[k + 1..])[x] {
      assert multiset(a)[x] == multiset([a[0]])[x] + multiset(a[1..])[x];
      assert multiset(b)[x] == multiset(b[..k])[x] + multiset([b[k]])[x] + multiset(b[k + 1..])[x];
    }
  }

  lemma Position(a: seq<Row>, b: seq<Row>) returns (k: nat)
    requires a != [] && multiset(a) == multiset(b)
    ensures k < |b| && b[k] == a[0]
  {
    assert a[0] in multiset(a);
    assert a[0] in b;
    k :| 0 <= k < |b| && b[k] == a[0];
  }

  lemma LabelsMiddle(a: seq<Row>, row: Row, b: seq<Row>)
    ensures multiset(Labels(a + [row] + b)) == multiset(Labels([row])) + multiset(Labels(a + b))
  {
    LabelsAppend(a + [row], b);
    LabelsAppend(a, [row]);
    LabelsAppend(a, b);
  }

  lemma LabelsWithout(a: seq<Row>, k: nat)
    requires k < |a|
    ensures multiset(Labels(a)) == multiset(Labels([a[k]])) + multiset(Labels(a[..k] + a[k + 1..]))
  {
    hide Labels;
    assert a == a[..k] + [a[k]] + a[k + 1..];
    LabelsMiddle(a[..k], a[k], a[k + 1..]);
  }

  lemma {:induction false} LabelsAreOrderFree(a: seq<Row>, b: seq<Row>)
    requires multiset(a) == multiset(b)
    ensures multiset(Labels(a)) == multiset(Labels(b))
  {
    hide Labels;
    SameSize(a, b);
    if a == [] {
      assert b == [];
    } else {
      var k := Position(a, b);
      RemoveOne(a, b, k);
      LabelsAreOrderFree(a[1..], b[..k] + b[k + 1..]);
      LabelsWithout(a, 0);
      LabelsWithout(b, k);
      assert a[..0] + a[1..] == a[1..];
    }
  }

  /** Permuting the rows changes neither the kind of answer, nor the device, nor the candidates. */
  lemma ResolveIsOrderFree(lex: Lexicon, a: seq<Row>, b: seq<Row>, ref: string, room: Option<string>,
                           hubRoom: Option<string>)
    requires multiset(a) == multiset(b)
    ensures SameAnswer(Resolve(lex, a, ref, room, hubRoom), Resolve(lex, b, ref, room, hubRoom))
  {
    hide Matches, InRoom, InHubRoom, Where, Labels;
    var isMatch := Matching(lex, ref);
    var ma, mb := Where(isMatch, a), Where(isMatch, b);
    WhereIsOrderFree(isMatch, a, b);
    Interchangeable(ma, mb);
    if Given(room) {
      var inRoom := Inside(lex, room.value);
      WhereIsOrderFree(inRoom, ma, mb);
      Interchangeable(Where(inRoom, ma), Where(inRoom, mb));
    } else if Given(hubRoom) {
      var inHub := AtHub(lex, hubRoom.value);
      WhereIsOrderFree(inHub, ma, mb);
      Interchangeable(Where(inHub, ma), Where(inHub, mb));
    }
  }

  lemma Interchangeable(a: seq<Row>, b: seq<Row>)
    requires multiset(a) == multiset(b)
    ensures |a| == |b| && (|a| == 1 ==> a[0] == b[0]) && multiset(Labels(a)) == multiset(Labels(b))
  {
    SameSize(a, b);
    LabelsAreOrderFree(a, b);
  }

  // ---------- what an answer means ----------

  /**
   * The rows an answer is chosen among: the matching ones in the named room; else those in the hub's room if there
   * are any; else all matching ones.
   */
  predicate InScope(lex: Lexicon, rows: seq<Row>, ref: string, room: Option<string>, hubRoom: Option<string>, row: Row)
  {
    && Matches(lex, ref, row.device)
    && (Given(room) ==> InRoom(lex, row, room.value))
    && (!Given(room) && HubHasOne(lex, rows, ref, hubRoom) ==> InHubRoom(lex, row, hubRoom.value))
  }

  function Scope(lex: Lexicon, rows: seq<Row>, ref: string, room: Option<string>, hubRoom: Option<string>): Row -> bool
  {
    (row: Row) => InScope(lex, rows, ref, room, hubRoom, row)
  }

  predicate HubHasOne(lex: Lexicon, rows: seq<Row>, ref: string, hubRoom: Option<string>)
  {
    Given(hubRoom) && exists row :: row in rows && Matches(lex, ref, row.device) && InHubRoom(lex, row, hubRoom.value)
  }

  lemma {:induction false} WhereWhere(p: Row -> bool, q: Row -> bool, r: Row -> bool, rows: seq<Row>)
    requires forall row :: row in rows ==> (r(row) <==> p(row) && q(row))
    ensures Where(q, Where(p, rows)) == Where(r, rows)
  {
    if rows != [] {
      WhereWhere(p, q, r, rows[1..]);
      if p(rows[0]) {
        assert Where(p, rows)[1..] == Where(p, rows[1..]);
      } else {
        assert Where(p, rows) == Where(p, rows[1..]);
      }
    }
  }

  lemma {:induction false} WhereSame(p: Row -> bool, q: Row -> bool, rows: seq<Row>)
    requires forall row :: row in rows ==> (p(row) <==> q(row))
    ensures Where(p, rows) == Where(q, rows)
  {
    if rows != [] {
      WhereSame(p, q, rows[1..]);
    }
  }

  lemma {:induction false} WhereMembers(p: Row -> bool, rows: seq<Row>)
    ensures forall row :: row in Where(p, rows) <==> row in rows && p(row)
  {
    forall row ensures row in Where(p, rows) <==> row in rows && p(row) {
      WhereCounts(p, rows, row);
      assert row in Where(p, rows) <==> row in multiset(Where(p, rows));
      assert row in rows <==> row in multiset(rows);
    }
  }

  /** Nothing in scope, one row in scope, or at least two: this alone decides the answer. */
  lemma ResolveByScope(lex: Lexicon, rows: seq<Row>, ref: string, room: Option<string>, hubRoom: Option<string>)
    ensures var scope := Where(Scope(lex, rows, ref, room, hubRoom), rows);
      Resolve(lex, rows, ref, room, hubRoom) ==
        if scope == [] then NotFound
        else if |scope| == 1 then Found(scope[0], !Given(room) && !HubHasOne(lex, rows, ref, hubRoom))
        else Ambiguous(Labels(scope))
  {
    hide Matches, InRoom, InHubRoom, Where, Labels, Normalize;
    var isMatch := Matching(lex, ref);
    var inScope := Scope(lex, rows, ref, room, hubRoom);
    var matched := Where(isMatch, rows);
    NoneLeft();
    WhereMembers(isMatch, rows);
    if Given(room) {
      var inRoom := Inside(lex, room.value);
      WhereWhere(isMatch, inRoom, inScope, rows);
    } else if Given(hubRoom) {
      var inHub := AtHub(lex, hubRoom.value);
      WhereMembers(inHub, matched);
      if HubHasOne(lex, rows, ref, hubRoom) {
        WhereWhere(isMatch, inHub, inScope, rows);
        assert Where(inHub, matched) != [];
      } else {
        NoMembers(Where(inHub, matched));
        WhereSame(isMatch, inScope, rows);
      }
    } else {
      WhereSame(isMatch, inScope, rows);
    }
  }

  lemma NoMembers(rows: seq<Row>)
    requires forall row :: row !in rows
    ensures rows == []
  {
    assert forall row :: row in multiset(rows) <==> row in rows;
    assert multiset(rows) == multiset{};
    assert |multiset(rows)| == |rows|;
  }

  lemma NoneLeft()
    ensures forall p: Row -> bool :: Where(p, []) == []
  {
  }

  /** How many rows pass a filter, read off the rows themselves. */
  lemma {:induction false} WhereSize(p: Row -> bool, rows: seq<Row>)
    ensures Where(p, rows) == [] <==> forall i :: 0 <= i < |rows| ==> !p(rows[i])
    ensures |Where(p, rows)| == 1 <==> exists i :: 0 <= i < |rows| && OnlyAt(p, rows, i)
    ensures forall i :: 0 <= i < |rows| && OnlyAt(p, rows, i) ==> Where(p, rows) == [rows[i]]
  {
    if rows != [] {
      WhereSize(p, rows[1..]);
      assert forall i :: 0 <= i < |rows| - 1 ==> rows[1..][i] == rows[i + 1];
      if p(rows[0]) {
        assert OnlyAt(p, rows, 0) <==> Where(p, rows[1..]) == [];
      } else {
        forall i | 0 < i < |rows| ensures OnlyAt(p, rows, i) <==> OnlyAt(p, rows[1..], i - 1) {
          OnlyAtTail(p, rows, i);
        }
        if i :| 0 <= i < |rows| - 1 && OnlyAt(p, rows[1..], i) {
          assert OnlyAt(p, rows, i + 1);
        }
      }
    }
  }

  predicate OnlyAt(p: Row -> bool, rows: seq<Row>, i: nat)
  {
    i < |rows| && forall j :: 0 <= j < |rows| ==> (p(rows[j]) <==> j == i)
  }

  lemma OnlyAtTail(p: Row -> bool, rows: seq<Row>, i: nat)
    requires 0 < i < |rows| && !p(rows[0])
    ensures OnlyAt(p, rows, i) <==> OnlyAt(p, rows[1..], i - 1)
  {
    if OnlyAt(p, rows[1..], i - 1) {
      forall j | 0 <= j < |rows| ensures p(rows[j]) <==> j == i {
        if j > 0 {
          assert rows[1..][j - 1] == rows[j];
        }
      }
    }
  }

  /**
   * Soundness and completeness: a device is chosen exactly when it is the one row in scope, `crossRoom` exactly when
   * no room was named and nothing matches in the hub's own room (so that it is the one match anywhere); nothing is
   * found exactly when nothing is in scope; an ambiguity names at least two.
   */
  lemma ResolveIsSound(lex: Lexicon, rows: seq<Row>, ref: string, room: Option<string>, hubRoom: Option<string>)
    ensures var inScope := Scope(lex, rows, ref, room, hubRoom);
      var r := Resolve(lex, rows, ref, room, hubRoom);
      && (r.NotFound? <==> forall i :: 0 <= i < |rows| ==> !inScope(rows[i]))
      && (r.Found? <==> exists i :: 0 <= i < |rows| && OnlyAt(inScope, rows, i))
      && (forall i :: 0 <= i < |rows| && OnlyAt(inScope, rows, i) ==> r.Found? && r.row == rows[i])
      && (r.Found? ==> (r.crossRoom <==> !Given(room) && !HubHasOne(lex, rows, ref, hubRoom)))
      && (r.Found? && r.crossRoom ==> forall row :: row in rows && Matches(lex, ref, row.device) ==> row == r.row)
      && (r.Ambiguous? ==> |r.candidates| >= 2)
      && (r.Ambiguous? ==> forall i :: 0 <= i < |r.candidates| ==> IsCandidate(inScope, rows, r.candidates[i]))
  {
    hide Matches, InRoom, InHubRoom, Where, Normalize, Resolve, OnlyAt;
    var inScope := Scope(lex, rows, ref, room, hubRoom);
    ResolveByScope(lex, rows, ref, room, hubRoom);
    WhereSize(inScope, rows);
    WhereMembers(inScope, rows);
    var chosen := Where(inScope, rows);
    LabelsSize(chosen);
    forall i | 0 <= i < |chosen| ensures IsCandidate(inScope, rows, Labels(chosen)[i]) {
      assert chosen[i] in chosen;
    }
  }

  /** Room and name of a row that is in scope. */
  predicate IsCandidate(inScope: Row -> bool, rows: seq<Row>, candidate: string)
  {
    exists row :: row in rows && inScope(row) && candidate == row.room.name + " " + row.device.name
  }

  lemma {:induction false} LabelsSize(rows: seq<Row>)
    ensures |Labels(rows)| == |rows|
    ensures forall i :: 0 <= i < |rows| ==> Labels(rows)[i] == rows[i].room.name + " " + rows[i].device.name
  {
    if rows != [] {
      LabelsSize(rows[1..]);
    }
  }

  /**
   * The device a reference may mean: one of the two names contains the other, or the reference contains a word that
   * stands for devices of its kind.
   */
  predicate Meant(lex: Lexicon, ref: string, d: Device)
  {
    || Within(Normalize(lex, ref), Normalize(lex, d.name)) || Within(Normalize(lex, d.name), Normalize(lex, ref))
    || exists alias :: alias in lex.aliases && Within(alias.word, ref) && d.kind in alias.kinds
  }

  lemma MatchesIffMeant(lex: Lexicon, ref: string, d: Device)
    ensures Matches(lex, ref, d) <==> Meant(lex, ref, d)
  {
    var spoken, name := Normalize(lex, ref), Normalize(lex, d.name);
    assert spoken[0..|spoken|] == spoken;
    assert spoken == name ==> BeginsAt(spoken, name, 0);
    forall alias | alias in lex.aliases && Within(alias.word, ref) && d.kind in alias.kinds
      ensures Matches(lex, ref, d)
    {
      var k :| 0 <= k < |lex.aliases| && lex.aliases[k] == alias;
    }
  }

  /** In the room named, by its slug or by its name; in any room when none is named. */
  predicate InNamedRoom(lex: Lexicon, row: Row, room: Option<string>)
  {
    room.Some? && room.value != "" ==>
      Normalize(lex, room.value) in {Normalize(lex, row.room.slug), Normalize(lex, row.room.name)}
  }

  /**
   * Nothing is found exactly when no row in the named room can be meant. What is found can be meant and is in the
   * named room; and when the room was left open and the answer is not cross-room, it is in the hub's room.
   */
  lemma ReferenceFinds(lex: Lexicon, rows: seq<Row>, ref: string, room: Option<string>, hubRoom: Option<string>)
    ensures var r := Resolve(lex, rows, ref, room, hubRoom);
      && (r.NotFound? <==>
           forall i :: 0 <= i < |rows| ==> !(Meant(lex, ref, rows[i].device) && InNamedRoom(lex, rows[i], room)))
      && (r.Found? ==> r.row in rows && Meant(lex, ref, r.row.device) && InNamedRoom(lex, r.row, room))
      && (r.Found? && !r.crossRoom && (room.None? || room.value == "") ==>
           hubRoom.Some? && Normalize(lex, r.row.room.slug) == Normalize(lex, hubRoom.value))
  {
    ResolveIsSound(lex, rows, ref, room, hubRoom);
    hide Resolve, Normalize, Meant, InScope, OnlyAt, InNamedRoom, HubHasOne, IsCandidate;
    var inScope := Scope(lex, rows, ref, room, hubRoom);
    SomeInScope(lex, rows, ref, room, hubRoom);
    if i :| 0 <= i < |rows| && OnlyAt(inScope, rows, i) {
      TheOne(inScope, rows, i);
      InScopeMeans(lex, rows, ref, room, hubRoom, rows[i]);
    }
  }

  lemma TheOne(p: Row -> bool, rows: seq<Row>, i: nat)
    requires OnlyAt(p, rows, i)
    ensures i < |rows| && p(rows[i])
  {
  }

  lemma InScopeMeans(lex: Lexicon, rows: seq<Row>, ref: string, room: Option<string>, hubRoom: Option<string>, row: Row)
    requires InScope(lex, rows, ref, room, hubRoom, row)
    ensures Meant(lex, ref, row.device) && InNamedRoom(lex, row, room)
    ensures !Given(room) && HubHasOne(lex, rows, ref, hubRoom) ==>
      hubRoom.Some? && Normalize(lex, row.room.slug) == Normalize(lex, hubRoom.value)
  {
    hide Normalize, Matches, Meant;
    MatchesIffMeant(lex, ref, row.device);
  }

  /** Some row is in scope exactly when some row in the named room can be meant. */
  lemma SomeInScope(lex: Lexicon, rows: seq<Row>, ref: string, room: Option<string>, hubRoom: Option<string>)
    ensures (forall i :: 0 <= i < |rows| ==> !InScope(lex, rows, ref, room, hubRoom, rows[i])) <==>
      forall i :: 0 <= i < |rows| ==> !(Meant(lex, ref, rows[i].device) && InNamedRoom(lex, rows[i], room))
  {
    hide Normalize, Meant, Matches;
    forall i | 0 <= i < |rows| ensures Matches(lex, ref, rows[i].device) <==> Meant(lex, ref, rows[i].device) {
      MatchesIffMeant(lex, ref, rows[i].device);
    }
    if !Given(room) && HubHasOne(lex, rows, ref, hubRoom) {
      var row :| row in rows && Matches(lex, ref, row.device) && InHubRoom(lex, row, hubRoom.value);
      var i :| 0 <= i < |rows| && rows[i] == row;
      assert InScope(lex, rows, ref, room, hubRoom, rows[i]);
    }
  }

  /**
   * A word from the alias table is enough: with no rooms given, it finds the one device of its kinds, unless some
   * other device can be meant as well.
   */
  lemma AliasFinds(lex: Lexicon, rows: seq<Row>, ref: string, alias: Alias, k: nat)
    requires alias in lex.aliases && Within(alias.word, ref) && k < |rows| && rows[k].device.kind in alias.kinds
    ensures var r := Resolve(lex, rows, ref, None, None);
      && !r.NotFound?
      && ((forall j :: 0 <= j < |rows| && j != k ==> !Meant(lex, ref, rows[j].device)) ==> r == Found(rows[k], true))
  {
    ResolveIsSound(lex, rows, ref, None, None);
    hide Resolve, Normalize, Within, Matches;
    var inScope := Scope(lex, rows, ref, None, None);
    forall j | 0 <= j < |rows| ensures inScope(rows[j]) <==> Meant(lex, ref, rows[j].device) {
      MatchesIffMeant(lex, ref, rows[j].device);
    }
    assert inScope(rows[k]);
    if forall j :: 0 <= j < |rows| && j != k ==> !Meant(lex, ref, rows[j].device) {
      assert OnlyAt(inScope, rows, k);
    }
  }

  lemma {:induction false} WithoutSpacesAppend(a: string, b: string)
    ensures WithoutSpaces(a + b) == WithoutSpaces(a) + WithoutSpaces(b)
  {
    if a == "" {
      assert a + b == b;
    } else {
      assert (a + b)[1..] == a[1..] + b;
      WithoutSpacesAppend(a[1..], b);
    }
  }

  /** Where a name is written with a space and where without makes no difference. */
  lemma SpacesDoNotMatter(lex: Lexicon, a: string, b: string)
    ensures Normalize(lex, a + " " + b) == Normalize(lex, a + b)
  {
    WithoutSpacesAppend(a + " ", b);
    WithoutSpacesAppend(a, " ");
    WithoutSpacesAppend(a, b);
    assert WithoutSpaces(" ") == "" by {
      assert " "[1..] == "";
    }
    assert WithoutSpaces(a) + "" == WithoutSpaces(a);
  }

  /**
   * A stored device's own name, with no rooms given, never resolves to nothing or to another device: it resolves to
   * the device exactly when no other row matches that name, and is ambiguous otherwise.
   */
  lemma OwnName(lex: Lexicon, rows: seq<Row>, k: nat)
    requires k < |rows|
    ensures var r := Resolve(lex, rows, rows[k].device.name, None, None);
      && !r.NotFound?
      && (r.Found? ==> r == Found(rows[k], true))
      && (r.Found? <==> forall j :: 0 <= j < |rows| && j != k ==> !Matches(lex, rows[k].device.name, rows[j].device))
  {
    var ref := rows[k].device.name;
    var inScope := Scope(lex, rows, ref, None, None);
    ResolveIsSound(lex, rows, ref, None, None);
    hide Resolve, Normalize, Within;
    assert Matches(lex, ref, rows[k].device);
    assert inScope(rows[k]);
    if Resolve(lex, rows, ref, None, None).Found? {
      var i :| 0 <= i < |rows| && OnlyAt(inScope, rows, i);
    }
    if forall j :: 0 <= j < |rows| && j != k ==> !Matches(lex, ref, rows[j].device) {
      assert OnlyAt(inScope, rows, k);
    }
  }

  /** So a touch command, which names the device it already holds, can be refused: "A" beside "AB". */
  lemma TouchCanBeAmbiguous(hall: Room)
    ensures var rows := [Row(Device(0, "A", "lamp", "kasa", {}), hall), Row(Device(1, "AB", "lamp", "kasa", {}), hall)];
      Resolve(Lexicon(s => s, []), rows, "A", None, None).Ambiguous?
  {
    var lex := Lexicon(s => s, []);
    var rows := [Row(Device(0, "A", "lamp", "kasa", {}), hall), Row(Device(1, "AB", "lamp", "kasa", {}), hall)];
    ShortNames(lex);
    OwnName(lex, rows, 0);
    hide Resolve, Normalize;
    assert BeginsAt("A", "AB", 0);
    assert Matches(lex, "A", rows[1].device);
  }

  lemma ShortNames(lex: Lexicon)
    requires lex.lower == (s => s)
    ensures Normalize(lex, "A") == "A" && Normalize(lex, "AB") == "AB"
  {
    assert "AB"[1..] == "B" && "A"[1..] == "" && "B"[1..] == "";
    assert WithoutSpaces("B") == "B";
    assert WithoutSpaces("A") == "A";
    assert WithoutSpaces("AB") == "AB";
    StripUnique("", "A", "");
    StripUnique("", "AB", "");
    assert "" + "A" + "" == "A" && "" + "AB" + "" == "AB";
  }

  // ---------- control, with retries ----------

  const ATTEMPTS := 3

  datatype CommandResult = CommandResult(ok: bool, detail: string)

  /** What one call of the adapter does. */
  datatype Attempt = Returned(result: CommandResult) | Raised(detail: string)

  function ResultOf(a: Attempt): CommandResult
  {
    match a
    case Returned(result) => result
    case Raised(detail) => CommandResult(false, detail)
  }

  predicate SomeAttemptWorks(reply: nat -> Attempt)
  {
    exists n: nat :: n < ATTEMPTS && ResultOf(reply(n)).ok
  }

  /** Stops at the first success; otherwise reports the last of three failures. */
  method ExecuteWithRetry(reply: nat -> Attempt) returns (result: CommandResult, made: nat)
    ensures 1 <= made <= ATTEMPTS && result == ResultOf(reply(made - 1))
    ensures forall n: nat :: n < made - 1 ==> !ResultOf(reply(n)).ok
    ensures result.ok <==> SomeAttemptWorks(reply)
    ensures !result.ok ==> made == ATTEMPTS
  {
    result := CommandResult(false, "not attempted");
    made := 0;
    while made < ATTEMPTS
      invariant 0 <= made <= ATTEMPTS
      invariant forall n: nat :: n < made ==> !ResultOf(reply(n)).ok
      invariant made > 0 ==> result == ResultOf(reply(made - 1))
    {
      match reply(made) {
        case Returned(r) => result := r;
        case Raised(detail) => result := CommandResult(false, detail);
      }
      made := made + 1;
      if result.ok {
        return;
      }
    }
  }

  /** What a caller of `control_device` sees: an exception for the first and third, a dictionary otherwise. */
  datatype Control =
    | Unresolved(outcome: Outcome)
    | Unsupported(supported: set<string>)
    | NoAdapter
    | Done(row: Row, crossRoom: bool)
    | Failed(row: Row, error: string)

  function Allowed(d: Device, defaults: string -> set<string>): set<string>
  {
    if d.capabilities != {} then d.capabilities else defaults(d.kind)
  }

  class DeviceService {
    const lex: Lexicon
    const rows: seq<Row>
    const defaults: string -> set<string>
    const adapterKnown: string -> bool
    var online: map<nat, bool>

    constructor (lex: Lexicon, rows: seq<Row>, defaults: string -> set<string>, adapterKnown: string -> bool)
      ensures this.lex == lex && this.rows == rows && this.defaults == defaults && this.adapterKnown == adapterKnown
      ensures online == map[]
    {
      this.lex, this.rows, this.defaults, this.adapterKnown := lex, rows, defaults, adapterKnown;
      online := map[];
    }

    /** The device a command is really sent to, if it gets that far. */
    function Commanded(ref: string, room: Option<string>, hubRoom: Option<string>, capability: string): Option<Row>
    {
      var r := Resolve(lex, rows, ref, room, hubRoom);
      if r.Found? && capability in Allowed(r.row.device, defaults) && adapterKnown(r.row.device.adapter)
      then Some(r.row)
      else None
    }

    /**
     * `calls` counts calls of the adapter. Only a command that reached an adapter touches `online`, and then only
     * that device's flag, which becomes whether one of its attempts worked; only success is broadcast.
     */
    method ControlDevice(ref: string, room: Option<string>, hubRoom: Option<string>, capability: string,
                         reply: nat -> Attempt)
      returns (control: Control, calls: nat, broadcast: bool)
      modifies this`online
      ensures Commanded(ref, room, hubRoom, capability).None? ==>
        calls == 0 && online == old(online) && !control.Done? && !control.Failed?
      ensures Commanded(ref, room, hubRoom, capability).Some? ==>
        var row := Commanded(ref, room, hubRoom, capability).value;
        && 1 <= calls <= ATTEMPTS
        && online == old(online)[row.device.id := SomeAttemptWorks(reply)]
        && (if SomeAttemptWorks(reply) then control == Done(row, Resolve(lex, rows, ref, room, hubRoom).crossRoom)
            else control.Failed? && control.row == row && control.error != "")
      ensures broadcast <==> control.Done?
      ensures control.Unresolved? <==> !Resolve(lex, rows, ref, room, hubRoom).Found?
      ensures var r := Resolve(lex, rows, ref, room, hubRoom);
        r.Found? ==>
          var d := r.row.device;
          var supported := if d.capabilities == {} then defaults(d.kind) else d.capabilities;
          && (control == Unsupported(supported) <==> capability !in supported)
          && (control.NoAdapter? <==> capability in supported && !adapterKnown(d.adapter))
          && (calls > 0 <==> capability in supported && adapterKnown(d.adapter))
    {
      calls, broadcast := 0, false;
      var r := Resolve(lex, rows, ref, room, hubRoom);
      if !r.Found? {
        return Unresolved(r), 0, false;
      }
      var allowed := Allowed(r.row.device, defaults);
      if capability !in allowed {
        return Unsupported(allowed), 0, false;
      }
      if !adapterKnown(r.row.device.adapter) {
        return NoAdapter, 0, false;
      }
      var result;
      result, calls := ExecuteWithRetry(reply);
      online := online[r.row.device.id := result.ok];
      if result.ok {
        return Done(r.row, r.crossRoom), calls, true;
      }
      control := Failed(r.row, if result.detail != "" then result.detail else "device offline");
    }
  }
}
