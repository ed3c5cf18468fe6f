/** Deep merge of JSON objects: the higher object wins, and objects under the same key are merged in turn. */
module ContextMerge {
  import opened Prelude
  import opened Json

  const LARGEST_INDEX := 0xFFFF_FFFE

  function Digits(s: string): nat
    requires forall i :: 0 <= i < |s| ==> IsDigit(s[i])
  {
    if s == "" then 0
    else
      assert IsDigit(s[|s| - 1]);
      Digits(s[..|s| - 1]) * 10 + (s[|s| - 1] as int - '0' as int)
  }

  /** The array index that a key is the numeral of. */
  function IndexOf(key: string): Option<nat> {
    if IsIntegerPart(key) && Digits(key) <= LARGEST_INDEX then Some(Digits(key)) else None
  }

  /** The host enumerates array indexes first, in rising order, and all other keys as they were added. */
  predicate Precedes(a: string, b: string) {
    IndexOf(a).Some? && (IndexOf(b).None? || IndexOf(a).value < IndexOf(b).value)
  }

  function Replace(members: seq<Member>, m: Member): seq<Member> {
    if members == [] then []
    else if members[0].key == m.key then [m] + members[1..]
    else [members[0]] + Replace(members[1..], m)
  }

  function Place(members: seq<Member>, m: Member): seq<Member> {
    if members == [] then [m]
    else if Precedes(m.key, members[0].key) then [m] + members
    else [members[0]] + Place(members[1..], m)
  }

  /** Assigns a key: in place when it is there, at its place in the host's order when it is new. */
  function Put(members: seq<Member>, key: string, value: Value): seq<Member> {
    if Get(members, key).Some? then Replace(members, Member(key, value)) else Place(members, Member(key, value))
  }

  /** What a key holds after the higher value is assigned over the previous one. */
  function Overlay(previous: Option<Value>, value: Value): Value
    decreases value, 1
  {
    match (previous, value)
    case (Some(Object(p)), Object(q)) => Object(Merge(p, q))
    case _ => value
  }

  /** The members of `higher` assigned over `lower`, one after the other. */
  function Merge(lower: seq<Member>, higher: seq<Member>): seq<Member>
    decreases higher, 0
  {
    if higher == [] then lower
    else
      var merged := Merge(lower, higher[..|higher| - 1]);
      var m := higher[|higher| - 1];
      Put(merged, m.key, Overlay(Get(merged, m.key), m.value))
  }

  method MergeValues(lower: seq<Member>, higher: seq<Member>) returns (merged: seq<Member>)
    ensures merged == Merge(lower, higher)
    decreases higher
  {
    merged := lower;
    for i := 0 to |higher|
      invariant merged == Merge(lower, higher[..i])
    {
      var m := higher[i];
      var previous := Get(merged, m.key);
      var value := m.value;
      if previous.Some? && previous.value.Object? && m.value.Object? {
        var nested := MergeValues(previous.value.members, m.value.members);
        value := Object(nested);
      }
      assert higher[..i + 1][..i] == higher[..i];
      merged := Put(merged, m.key, value);
    }
    assert higher[..|higher|] == higher;
  }

  // ---------------------------------------------------------------------------
  // Values at paths
  // ---------------------------------------------------------------------------

  type Path = seq<string>

  /** What is seen at a path: an object to go on from, or anything else as it is. */
  datatype Face = Branch | Leaf(value: Value)

  function FaceOf(v: Value): Face {
    if v.Object? then Branch else Leaf(v)
  }

  function FaceAt(v: Option<Value>, path: Path): Option<Face>
    decreases path
  {
    if v.None? then None
    else if path == [] then Some(FaceOf(v.value))
    else if v.value.Object? then FaceAt(Get(v.value.members, path[0]), path[1..])
    else None
  }

  /** The value says nothing about the path: following it ends at a key that is missing, not at a leaf. */
  predicate Silent(v: Option<Value>, path: Path)
    decreases path
  {
    if v.None? then true
    else if path == [] then false
    else if v.value.Object? then Silent(Get(v.value.members, path[0]), path[1..])
    else false
  }

  function Combine(lower: Option<Value>, higher: Option<Value>): Option<Value> {
    if higher.None? then lower else Some(Overlay(lower, higher.value))
  }

  lemma {:induction false} GetAfterReplace(members: seq<Member>, m: Member, other: string)
    requires Get(members, m.key).Some?
    ensures Get(Replace(members, m), other) == if other == m.key then Some(m.value) else Get(members, other)
  {
    if members[0].key != m.key {
      GetAfterReplace(members[1..], m, other);
    }
  }

  lemma {:induction false} GetAfterPlace(members: seq<Member>, m: Member, other: string)
    requires Get(members, m.key).None?
    ensures Get(Place(members, m), other) == if other == m.key then Some(m.value) else Get(members, other)
  {
    if members != [] {
      if Precedes(m.key, members[0].key) {
        assert ([m] + members)[1..] == members;
      } else {
        GetAfterPlace(members[1..], m, other);
      }
    }
  }

  lemma GetAfterPut(members: seq<Member>, key: string, value: Value, other: string)
    ensures Get(Put(members, key, value), other) == if other == key then Some(value) else Get(members, other)
  {
    if Get(members, key).Some? {
      GetAfterReplace(members, Member(key, value), other);
    } else {
      GetAfterPlace(members, Member(key, value), other);
    }
  }

  lemma {:induction false} GetAppend(members: seq<Member>, m: Member, key: string)
    requires forall i :: 0 <= i < |members| ==> members[i].key != m.key
    ensures Get(members + [m], key) == if key == m.key then Some(m.value) else Get(members, key)
  {
    if members != [] {
      assert (members + [m])[1..] == members[1..] + [m];
      assert forall i :: 0 <= i < |members[1..]| ==> members[1..][i] == members[i + 1];
      GetAppend(members[1..], m, key);
    }
  }

  lemma {:induction false} GetMissing(members: seq<Member>, key: string)
    requires forall i :: 0 <= i < |members| ==> members[i].key != key
    ensures Get(members, key) == None
  {
    if members != [] {
      assert forall i :: 0 <= i < |members[1..]| ==> members[1..][i] == members[i + 1];
      GetMissing(members[1..], key);
    }
  }

  /** Key by key, a merge combines what the two objects hold. */
  lemma {:induction false} GetMerged(lower: seq<Member>, higher: seq<Member>, key: string)
    requires forall i, j :: 0 <= i < j < |higher| ==> higher[i].key != higher[j].key
    ensures Get(Merge(lower, higher), key) == Combine(Get(lower, key), Get(higher, key))
  {
    if higher != [] {
      var rest, m := higher[..|higher| - 1], higher[|higher| - 1];
      assert higher == rest + [m];
      GetMerged(lower, rest, key);
      GetMerged(lower, rest, m.key);
      GetMissing(rest, m.key);
      GetAppend(rest, m, key);
      var merged := Merge(lower, rest);
      GetAfterPut(merged, m.key, Overlay(Get(merged, m.key), m.value), key);
    }
  }

  lemma {:induction false} DistinctMember(members: seq<Member>, key: string)
    requires DistinctKeys(Object(members)) && Get(members, key).Some?
    ensures DistinctKeys(Get(members, key).value)
  {
    if members[0].key != key {
      assert forall i :: 0 <= i < |members[1..]| ==> members[1..][i] == members[i + 1];
      DistinctMember(members[1..], key);
    }
  }

  lemma {:induction false} SilentShowsNothing(v: Option<Value>, path: Path)
    requires Silent(v, path)
    ensures FaceAt(v, path) == None
    decreases path
  {
    if v.Some? {
      SilentShowsNothing(Get(v.value.members, path[0]), path[1..]);
    }
  }

  /** At every path the higher value decides unless it is silent there, and then the lower one does. */
  lemma {:induction false} HigherWins(lower: Option<Value>, higher: Option<Value>, path: Path)
    requires higher.Some? ==> DistinctKeys(higher.value)
    ensures FaceAt(Combine(lower, higher), path) ==
            if Silent(higher, path) then FaceAt(lower, path) else FaceAt(higher, path)
    decreases path
  {
    if higher.Some? && path != [] && higher.value.Object? {
      var q := higher.value.members;
      if lower.Some? && lower.value.Object? {
        var p := lower.value.members;
        GetMerged(p, q, path[0]);
        if Get(q, path[0]).Some? {
          DistinctMember(q, path[0]);
        }
        HigherWins(Get(p, path[0]), Get(q, path[0]), path[1..]);
      } else if Silent(higher, path) {
        SilentShowsNothing(higher, path);
      }
    }
  }

  // ---------------------------------------------------------------------------
  // When merging is associative
  // ---------------------------------------------------------------------------

  predicate KeysFrom(rest: seq<Member>, tail: seq<Member>, key: string) {
    forall n :: n in rest ==> n.key == key || exists t :: t in tail && t.key == n.key
  }

  lemma {:induction false} ReplaceKeepsKeys(members: seq<Member>, m: Member)
    requires DistinctKeys(Object(members)) && DistinctKeys(m.value)
    ensures DistinctKeys(Object(Replace(members, m))) && KeysFrom(Replace(members, m), members, m.key)
  {
    if members == [] {
    } else if members[0].key == m.key {
      assert Replace(members, m)[0] == m;
      assert forall i :: 1 <= i < |members| ==> Replace(members, m)[i] == members[i];
    } else {
      var tail := members[1..];
      assert forall i :: 0 <= i < |tail| ==> tail[i] == members[i + 1];
      ReplaceKeepsKeys(tail, m);
      PrependKeepsKeys(members[0], Replace(tail, m), tail, m.key);
    }
  }

  lemma {:induction false} PlaceKeepsKeys(members: seq<Member>, m: Member)
    requires DistinctKeys(Object(members)) && DistinctKeys(m.value)
    requires forall n :: n in members ==> n.key != m.key
    ensures DistinctKeys(Object(Place(members, m))) && KeysFrom(Place(members, m), members, m.key)
  {
    if members == [] {
    } else if Precedes(m.key, members[0].key) {
      PrependKeepsKeys(m, members, members, members[0].key);
    } else {
      var tail := members[1..];
      assert forall i :: 0 <= i < |tail| ==> tail[i] == members[i + 1];
      PlaceKeepsKeys(tail, m);
      PrependKeepsKeys(members[0], Place(tail, m), tail, m.key);
    }
  }

  lemma PrependKeepsKeys(m: Member, rest: seq<Member>, tail: seq<Member>, key: string)
    requires DistinctKeys(m.value) && DistinctKeys(Object(rest)) && m.key != key
    requires (forall n :: n in tail ==> n.key != m.key) && KeysFrom(rest, tail, key)
    ensures DistinctKeys(Object([m] + rest))
  {
    forall i, j | 0 <= i < j < |[m] + rest| ensures ([m] + rest)[i].key != ([m] + rest)[j].key {
      if i == 0 {
        assert rest[j - 1] in rest;
      }
    }
  }

  lemma {:induction false} MissingIsAbsent(members: seq<Member>, key: string)
    requires Get(members, key).None?
    ensures forall n :: n in members ==> n.key != key
  {
    if members != [] {
      MissingIsAbsent(members[1..], key);
      assert members == [members[0]] + members[1..];
    }
  }

  lemma PutKeepsKeys(members: seq<Member>, key: string, value: Value)
    requires DistinctKeys(Object(members)) && DistinctKeys(value)
    ensures DistinctKeys(Object(Put(members, key, value)))
  {
    if Get(members, key).Some? {
      ReplaceKeepsKeys(members, Member(key, value));
    } else {
      MissingIsAbsent(members, key);
      PlaceKeepsKeys(members, Member(key, value));
    }
  }

  lemma {:induction false} OverlayKeepsKeys(previous: Option<Value>, value: Value)
    requires (previous.Some? ==> DistinctKeys(previous.value)) && DistinctKeys(value)
    ensures DistinctKeys(Overlay(previous, value))
    decreases value, 1
  {
    if previous.Some? && previous.value.Object? && value.Object? {
      MergeKeepsKeys(previous.value.members, value.members);
    }
  }

  lemma {:induction false} MergeKeepsKeys(lower: seq<Member>, higher: seq<Member>)
    requires DistinctKeys(Object(lower)) && DistinctKeys(Object(higher))
    ensures DistinctKeys(Object(Merge(lower, higher)))
    decreases higher, 0
  {
    if higher != [] {
      var rest, m := higher[..|higher| - 1], higher[|higher| - 1];
      MergeKeepsKeys(lower, rest);
      var merged := Merge(lower, rest);
      if Get(merged, m.key).Some? {
        DistinctMember(merged, m.key);
      }
      OverlayKeepsKeys(Get(merged, m.key), m.value);
      PutKeepsKeys(merged, m.key, Overlay(Get(merged, m.key), m.value));
    }
  }

  /** On the way to the path the lower value ends in a leaf where the higher one has an object. */
  predicate LeafUnderObject(lower: Option<Value>, higher: Option<Value>, path: Path)
    decreases path
  {
    && path != [] && lower.Some? && higher.Some? && higher.value.Object?
    && (lower.value.Object? ==>
          LeafUnderObject(Get(lower.value.members, path[0]), Get(higher.value.members, path[0]), path[1..]))
  }

  lemma {:induction false} HiddenShowsNothing(lower: Option<Value>, higher: Option<Value>, path: Path)
    requires LeafUnderObject(lower, higher, path)
    ensures !Silent(lower, path) && FaceAt(lower, path) == None
    decreases path
  {
    if lower.value.Object? {
      HiddenShowsNothing(Get(lower.value.members, path[0]), Get(higher.value.members, path[0]), path[1..]);
    }
  }

  /** A combination is silent where both parts are, or where the higher one is and covers the lower one's leaf. */
  lemma {:induction false} CombinedSilence(lower: Option<Value>, higher: Option<Value>, path: Path)
    requires higher.Some? ==> DistinctKeys(higher.value)
    ensures Silent(Combine(lower, higher), path) <==>
              Silent(higher, path) && (Silent(lower, path) || LeafUnderObject(lower, higher, path))
    decreases path
  {
    if path != [] && lower.Some? && higher.Some? && lower.value.Object? && higher.value.Object? {
      var p, q := lower.value.members, higher.value.members;
      GetMerged(p, q, path[0]);
      if Get(q, path[0]).Some? {
        DistinctMember(q, path[0]);
      }
      CombinedSilence(Get(p, path[0]), Get(q, path[0]), path[1..]);
    }
  }

  /** The path shows that the order of merging matters. */
  predicate Clash(a: Value, b: Value, c: Value, path: Path) {
    Silent(Some(c), path) && LeafUnderObject(Some(b), Some(c), path) && FaceAt(Some(a), path).Some?
  }

  /**
   Merging left to right and right to left show the same at a path exactly when no leaf of the middle
   value hides there something of the lowest value that an object of the highest value uncovers.
   */
  lemma AssociativeUnlessHidden(a: Value, b: Value, c: Value, path: Path)
    requires DistinctKeys(a) && DistinctKeys(b) && DistinctKeys(c)
    ensures FaceAt(Combine(Combine(Some(a), Some(b)), Some(c)), path) ==
            FaceAt(Combine(Some(a), Combine(Some(b), Some(c))), path)
            <==> !Clash(a, b, c, path)
  {
    var lowest, middle, highest := Some(a), Some(b), Some(c);
    OverlayKeepsKeys(middle, c);
    HigherWins(Combine(lowest, middle), highest, path);
    HigherWins(lowest, middle, path);
    HigherWins(lowest, Combine(middle, highest), path);
    HigherWins(middle, highest, path);
    CombinedSilence(middle, highest, path);
    if LeafUnderObject(middle, highest, path) {
      HiddenShowsNothing(middle, highest, path);
    }
  }

  /** Such a case: the middle layer replaces an object by a number, the highest puts an object back. */
  lemma MergingIsNotAssociative() returns (a: Value, b: Value, c: Value, path: Path)
    ensures DistinctKeys(a) && DistinctKeys(b) && DistinctKeys(c) && Clash(a, b, c, path)
  {
    a := Object([Member("limits", Object([Member("cost", Bool(true))]))]);
    b := Object([Member("limits", Null)]);
    c := Object([Member("limits", Object([Member("time", Bool(false))]))]);
    path := ["limits", "cost"];
    assert path[1..] == ["cost"];
    assert path[1..][1..] == [];
  }

  // ---------------------------------------------------------------------------
  // The order of members
  // ---------------------------------------------------------------------------

  /** The members of the object are in the host's order; nested objects are not looked at. */
  predicate InHostOrder(members: seq<Member>) {
    forall i, j :: 0 <= i < j < |members| ==> !Precedes(members[j].key, members[i].key)
  }

  lemma {:induction false} ReplaceKeepsOrder(members: seq<Member>, m: Member)
    ensures var replaced := Replace(members, m);
            |replaced| == |members| && forall i :: 0 <= i < |members| ==> replaced[i].key == members[i].key
  {
    if members != [] && members[0].key != m.key {
      ReplaceKeepsOrder(members[1..], m);
      var rest := Replace(members[1..], m);
      forall i | 0 <= i < |members| ensures ([members[0]] + rest)[i].key == members[i].key {
        if i > 0 {
          assert rest[i - 1].key == members[1..][i - 1].key;
        }
      }
    }
  }

  /** A new member stands somewhere between the others, which keep their order. */
  lemma {:induction false} PlaceInserts(members: seq<Member>, m: Member) returns (p: nat)
    ensures p <= |members| && Place(members, m) == members[..p] + [m] + members[p..]
  {
    if members == [] || Precedes(m.key, members[0].key) {
      p := 0;
    } else {
      var q := PlaceInserts(members[1..], m);
      p := q + 1;
      assert members[..p] == [members[0]] + members[1..][..q] && members[p..] == members[1..][q..];
    }
  }

  lemma PlacedMember(members: seq<Member>, m: Member, x: Member)
    requires x in Place(members, m)
    ensures x == m || x in members
  {
    var p := PlaceInserts(members, m);
  }

  lemma OrderExtends(first: Member, rest: seq<Member>)
    requires InHostOrder(rest) && forall x :: x in rest ==> !Precedes(x.key, first.key)
    ensures InHostOrder([first] + rest)
  {
    assert forall j :: 1 <= j <= |rest| ==> ([first] + rest)[j] == rest[j - 1] && rest[j - 1] in rest;
  }

  lemma {:induction false} PlaceKeepsOrder(members: seq<Member>, m: Member)
    requires InHostOrder(members)
    ensures InHostOrder(Place(members, m))
  {
    if members != [] {
      if Precedes(m.key, members[0].key) {
        forall x | x in members ensures !Precedes(x.key, m.key) {
          var j :| 0 <= j < |members| && members[j] == x;
        }
        OrderExtends(m, members);
      } else {
        PlaceKeepsOrder(members[1..], m);
        forall x | x in Place(members[1..], m) ensures !Precedes(x.key, members[0].key) {
          PlacedMember(members[1..], m, x);
        }
        OrderExtends(members[0], Place(members[1..], m));
      }
    }
  }

  lemma PutKeepsOrder(members: seq<Member>, key: string, value: Value)
    requires InHostOrder(members)
    ensures InHostOrder(Put(members, key, value))
  {
    if Get(members, key).Some? {
      ReplaceKeepsOrder(members, Member(key, value));
    } else {
      PlaceKeepsOrder(members, Member(key, value));
    }
  }

  /** A merge enumerates its keys as the host does. */
  lemma {:induction false} MergeKeepsOrder(lower: seq<Member>, higher: seq<Member>)
    requires InHostOrder(lower)
    ensures InHostOrder(Merge(lower, higher))
  {
    if higher != [] {
      var rest, m := higher[..|higher| - 1], higher[|higher| - 1];
      MergeKeepsOrder(lower, rest);
      var merged := Merge(lower, rest);
      PutKeepsOrder(merged, m.key, Overlay(Get(merged, m.key), m.value));
    }
  }

  /** Numerals up to 2^32 - 2 come first, and by value; a leading zero makes a key like any other. */
  lemma IndexKeysComeFirst(a: string, b: string)
    requires IsIntegerPart(a)
    ensures IndexOf(a).Some? <==> Digits(a) <= 4294967294
    ensures IsIntegerPart(b) && Digits(a) < Digits(b) <= 4294967294 ==> Precedes(a, b) && !Precedes(b, a)
    ensures !IsIntegerPart(b) && Digits(a) <= 4294967294 ==> Precedes(a, b) && !Precedes(b, a)
    ensures Digits("907") == 907 && !IsIntegerPart("07") && IsIntegerPart("0")
  {
    assert "907"[..2] == "90" && "90"[..1] == "9" && "9"[..0] == "";
    assert Digits("9") == 9 && Digits("90") == 90;
  }
}
