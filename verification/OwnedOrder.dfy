/** The order of members that are partly inherited and partly the user's own. */
module OwnedOrder {
  import opened Common

  /******* Sequences without repetitions *******/

  /** The values in the order of their first occurrences. */
  function Unique<T(==)>(s: seq<T>): seq<T> {
    if s == [] then []
    else
      var rest := Unique(s[..|s| - 1]);
      if s[|s| - 1] in rest then rest else rest + [s[|s| - 1]]
  }

  function Without<T(==)>(s: seq<T>, dropped: set<T>): seq<T> {
    if s == [] then []
    else (if s[0] in dropped then [] else [s[0]]) + Without(s[1..], dropped)
  }

  function Within<T(==)>(s: seq<T>, kept: set<T>): seq<T> {
    if s == [] then []
    else (if s[0] in kept then [s[0]] else []) + Within(s[1..], kept)
  }

  lemma {:induction false} UniqueMember<T>(s: seq<T>, x: T)
    ensures x in Unique(s) <==> x in s
    decreases |s|
  {
    if s != [] {
      UniqueMember(s[..|s| - 1], x);
      assert s == s[..|s| - 1] + [s[|s| - 1]];
    }
  }

  lemma {:induction false} UniqueNoDup<T>(s: seq<T>)
    ensures NoDup(Unique(s))
    decreases |s|
  {
    if s != [] {
      UniqueNoDup(s[..|s| - 1]);
    }
  }

  lemma {:induction false} UniqueOfNoDup<T>(s: seq<T>)
    requires NoDup(s)
    ensures Unique(s) == s
    decreases |s|
  {
    if s != [] {
      UniqueOfNoDup(s[..|s| - 1]);
      assert s == s[..|s| - 1] + [s[|s| - 1]];
    }
  }

  lemma {:induction false} WithoutMember<T>(s: seq<T>, dropped: set<T>, x: T)
    ensures x in Without(s, dropped) <==> x in s && x !in dropped
    decreases |s|
  {
    if s != [] {
      WithoutMember(s[1..], dropped, x);
    }
  }

  lemma {:induction false} WithinMember<T>(s: seq<T>, kept: set<T>, x: T)
    ensures x in Within(s, kept) <==> x in s && x in kept
    decreases |s|
  {
    if s != [] {
      WithinMember(s[1..], kept, x);
    }
  }

  /** `set.has` and `push`, one value after the other. */
  method UniqueInOrder<T(==)>(values: seq<T>) returns (result: seq<T>)
    ensures result == Unique(values)
  {
    var seen: set<T> := {};
    result := [];
    for i := 0 to |values|
      invariant result == Unique(values[..i])
      invariant seen == Elements(result)
    {
      assert values[..i + 1][..i] == values[..i] && values[..i + 1][i] == values[i];
      if values[i] !in seen {
        seen := seen + {values[i]};
        result := result + [values[i]];
      }
    }
    assert values[..|values|] == values;
  }

  method FilterOut<T(==)>(values: seq<T>, dropped: set<T>) returns (result: seq<T>)
    ensures result == Without(values, dropped)
  {
    result := [];
    for i := 0 to |values|
      invariant result + Without(values[i..], dropped) == Without(values, dropped)
    {
      assert values[i..][0] == values[i] && values[i..][1..] == values[i + 1..];
      AppendLaws(result, [values[i]], Without(values[i + 1..], dropped));
      AppendLaws(Without(values[i + 1..], dropped), [], []);
      if values[i] !in dropped {
        result := result + [values[i]];
      }
    }
    AppendLaws(result, [], []);
  }

  method FilterIn<T(==)>(values: seq<T>, kept: set<T>) returns (result: seq<T>)
    ensures result == Within(values, kept)
  {
    result := [];
    for i := 0 to |values|
      invariant result + Within(values[i..], kept) == Within(values, kept)
    {
      assert values[i..][0] == values[i] && values[i..][1..] == values[i + 1..];
      AppendLaws(result, [values[i]], Within(values[i + 1..], kept));
      AppendLaws(Within(values[i + 1..], kept), [], []);
      if values[i] in kept {
        result := result + [values[i]];
      }
    }
    AppendLaws(result, [], []);
  }

  /******* Precedence *******/

  /** `x` occurs, and before any `y`. */
  predicate Comes<T(==)>(s: seq<T>, x: T, y: T) {
    exists i :: 0 <= i < |s| && s[i] == x && y !in s[..i + 1]
  }

  /** Both occur, `x` first. */
  predicate Precedes<T(==)>(s: seq<T>, x: T, y: T) {
    y in s && Comes(s, x, y)
  }

  lemma ComesAt<T>(s: seq<T>, i: nat, j: nat)
    requires i < |s| && j < |s| && NoDup(s)
    ensures Comes(s, s[i], s[j]) <==> i < j
  {
    assert j <= i ==> s[..i + 1][j] == s[j];
    if i < j {
      assert s[j] !in s[..i + 1];
    }
    if Comes(s, s[i], s[j]) {
      var k :| 0 <= k < |s| && s[k] == s[i] && s[j] !in s[..k + 1];
      assert k == i;
    }
  }

  lemma ComesPrefix<T>(s: seq<T>, z: T, x: T, y: T)
    ensures Comes(s + [z], x, y) <==> Comes(s, x, y) || (x == z && x != y && y !in s)
  {
    var t := s + [z];
    if Comes(t, x, y) {
      var i :| 0 <= i < |t| && t[i] == x && y !in t[..i + 1];
      if i < |s| {
        assert t[..i + 1] == s[..i + 1];
      } else {
        assert t[..i + 1] == t;
        assert forall k :: 0 <= k < |s| ==> s[k] == t[k];
        assert z == t[|s|];
      }
    }
    if Comes(s, x, y) {
      var i :| 0 <= i < |s| && s[i] == x && y !in s[..i + 1];
      assert t[i] == x && t[..i + 1] == s[..i + 1];
    }
    if x == z && x != y && y !in s {
      assert t[|s|] == x && t[..|s| + 1] == t;
    }
  }

  /** Removing repetitions keeps the order of first occurrences. */
  lemma {:induction false} UniqueComes<T>(s: seq<T>, x: T, y: T)
    ensures Comes(Unique(s), x, y) <==> Comes(s, x, y)
    decreases |s|
  {
    if s != [] {
      var init, z := s[..|s| - 1], s[|s| - 1];
      assert s == init + [z];
      UniqueComes(init, x, y);
      UniqueMember(init, x);
      UniqueMember(init, y);
      UniqueMember(init, z);
      ComesPrefix(init, z, x, y);
      ComesPrefix(Unique(init), z, x, y);
      if z in init && x == z && y !in init {
        SomeComes(Unique(init), x, y);
      }
    }
  }

  lemma SomeComes<T>(s: seq<T>, x: T, y: T)
    requires x in s && y !in s
    ensures Comes(s, x, y)
  {
    var i :| 0 <= i < |s| && s[i] == x;
    assert forall w :: w in s[..i + 1] ==> w in s;
  }

  lemma ComesIn<T>(s: seq<T>, x: T, y: T)
    requires Comes(s, x, y)
    ensures x in s && x != y
  {
  }

  lemma ComesConcat<T>(a: seq<T>, b: seq<T>, x: T, y: T)
    ensures Comes(a + b, x, y) <==> if x in a then Comes(a, x, y) else y !in a && Comes(b, x, y)
  {
    var t := a + b;
    if Comes(t, x, y) {
      var i :| 0 <= i < |t| && t[i] == x && y !in t[..i + 1];
      if i < |a| {
        assert t[..i + 1] == a[..i + 1];
      } else {
        assert t[..i + 1] == a + b[..i + 1 - |a|];
        assert b[i - |a|] == x;
        if x in a {
          SomeComes(a, x, y);
        }
      }
    }
    if Comes(a, x, y) {
      var i :| 0 <= i < |a| && a[i] == x && y !in a[..i + 1];
      assert t[i] == x && t[..i + 1] == a[..i + 1];
    }
    if y !in a && Comes(b, x, y) {
      var i :| 0 <= i < |b| && b[i] == x && y !in b[..i + 1];
      assert t[|a| + i] == x && t[..|a| + i + 1] == a + b[..i + 1];
    }
  }

  /** Dropping other values keeps the order. */
  lemma {:induction false} WithoutComes<T>(s: seq<T>, dropped: set<T>, x: T, y: T)
    requires x !in dropped && y !in dropped
    ensures Comes(Without(s, dropped), x, y) <==> Comes(s, x, y)
    decreases |s|
  {
    if s != [] {
      WithoutComes(s[1..], dropped, x, y);
      assert s == [s[0]] + s[1..];
      ComesConcat([s[0]], s[1..], x, y);
      ComesConcat(if s[0] in dropped then [] else [s[0]], Without(s[1..], dropped), x, y);
    }
  }

  lemma {:induction false} WithinComes<T>(s: seq<T>, kept: set<T>, x: T, y: T)
    requires x in kept && y in kept
    ensures Comes(Within(s, kept), x, y) <==> Comes(s, x, y)
    decreases |s|
  {
    if s != [] {
      WithinComes(s[1..], kept, x, y);
      assert s == [s[0]] + s[1..];
      ComesConcat([s[0]], s[1..], x, y);
      ComesConcat(if s[0] in kept then [s[0]] else [], Within(s[1..], kept), x, y);
    }
  }

  lemma {:induction false} WithoutNoDup<T>(s: seq<T>, dropped: set<T>)
    requires NoDup(s)
    ensures NoDup(Without(s, dropped))
    decreases |s|
  {
    if s != [] {
      WithoutNoDup(s[1..], dropped);
      WithoutMember(s[1..], dropped, s[0]);
    }
  }

  lemma {:induction false} WithinNoDup<T>(s: seq<T>, kept: set<T>)
    requires NoDup(s)
    ensures NoDup(Within(s, kept))
    decreases |s|
  {
    if s != [] {
      WithinNoDup(s[1..], kept);
      WithinMember(s[1..], kept, s[0]);
    }
  }

  lemma {:induction false} WithoutAll<T>(s: seq<T>, dropped: set<T>)
    requires forall x :: x in s ==> x in dropped
    ensures Without(s, dropped) == []
    decreases |s|
  {
    if s != [] {
      WithoutAll(s[1..], dropped);
    }
  }

  lemma {:induction false} WithoutNone<T>(s: seq<T>, dropped: set<T>)
    requires forall x :: x in s ==> x !in dropped
    ensures Without(s, dropped) == s
    decreases |s|
  {
    if s != [] {
      WithoutNone(s[1..], dropped);
    }
  }

  lemma {:induction false} WithinAll<T>(s: seq<T>, kept: set<T>)
    requires forall x :: x in s ==> x in kept
    ensures Within(s, kept) == s
    decreases |s|
  {
    if s != [] {
      WithinAll(s[1..], kept);
    }
  }

  lemma ComesTotal<T>(s: seq<T>, x: T, y: T)
    requires NoDup(s) && x in s && y in s && x != y
    ensures Comes(s, x, y) <==> !Comes(s, y, x)
  {
    hide Comes, NoDup;
    var i: nat :| i < |s| && s[i] == x;
    var j: nat :| j < |s| && s[j] == y;
    ComesAt(s, i, j);
    ComesAt(s, j, i);
  }

  ghost predicate SameMembers<T(!new)>(s: seq<T>, t: seq<T>) {
    forall x :: x in s <==> x in t
  }

  predicate SameComes<T(==)>(s: seq<T>, t: seq<T>) {
    forall x, y :: x in s && y in s ==> (Comes(s, x, y) <==> Comes(t, x, y))
  }

  lemma SameHead<T(!new)>(s: seq<T>, t: seq<T>)
    requires s != [] && t != [] && NoDup(s) && SameMembers(s, t) && SameComes(s, t)
    ensures s[0] == t[0]
  {
    assert s[0] in s && t[0] in t && t[0] in s;
    NothingBeforeHead(t, s[0]);
    var j: nat :| j < |s| && s[j] == t[0];
    ComesAt(s, 0, j);
  }

  lemma NothingBeforeHead<T>(s: seq<T>, x: T)
    requires s != []
    ensures !Comes(s, x, s[0])
  {
    forall i | 0 <= i < |s| && s[i] == x
      ensures s[0] in s[..i + 1]
    {
      assert s[..i + 1][0] == s[0];
    }
  }

  lemma SameTail<T(!new)>(s: seq<T>, t: seq<T>)
    requires s != [] && t != [] && NoDup(s) && NoDup(t) && s[0] == t[0] && SameMembers(s, t) && SameComes(s, t)
    ensures SameMembers(s[1..], t[1..]) && SameComes(s[1..], t[1..])
  {
    var z := s[0];
    assert s == [z] + s[1..] && t == [z] + t[1..];
    assert z !in s[1..] && z !in t[1..];
    forall x
      ensures x in s[1..] <==> x in t[1..]
    {
      assert x in s <==> x == z || x in s[1..];
      assert x in t <==> x == z || x in t[1..];
    }
    hide SameMembers;
    forall x, y | x in s[1..] && y in s[1..]
      ensures Comes(s[1..], x, y) <==> Comes(t[1..], x, y)
    {
      ComesConcat([z], s[1..], x, y);
      ComesConcat([z], t[1..], x, y);
      assert x in s && y in s;
    }
  }

  /** A sequence without repetitions is its members and their order. */
  lemma {:induction false} SameOrder<T(!new)>(s: seq<T>, t: seq<T>)
    requires NoDup(s) && NoDup(t) && SameMembers(s, t) && SameComes(s, t)
    ensures s == t
    decreases |s|
  {
    assert t != [] ==> t[0] in t;
    assert s != [] ==> s[0] in s;
    if s != [] && t != [] {
      SameHead(s, t);
      SameTail(s, t);
      SameOrder(s[1..], t[1..]);
      assert s == [s[0]] + s[1..] && t == [t[0]] + t[1..];
    }
  }

  /******* Owned order *******/

  /** Unordered inherited members, then the requested order, then unordered personal members. */
  function Resolve<T(==)>(builtin: seq<T>, personal: seq<T>, requested: seq<T>): seq<T> {
    var b := Unique(builtin);
    var p := Without(Unique(personal), Elements(b));
    var ordered := Within(Unique(requested), Elements(b + p));
    Without(b, Elements(ordered)) + ordered + Without(p, Elements(ordered))
  }

  method ResolveOwnedOrder<T(==)>(builtinIds: seq<T>, personalIds: seq<T>, requestedOrder: seq<T>)
    returns (result: seq<T>)
    ensures result == Resolve(builtinIds, personalIds, requestedOrder)
  {
    var builtin := UniqueInOrder(builtinIds);
    var uniquePersonal := UniqueInOrder(personalIds);
    var personal := FilterOut(uniquePersonal, Elements(builtin));
    var uniqueOrder := UniqueInOrder(requestedOrder);
    var ordered := FilterIn(uniqueOrder, Elements(builtin + personal));
    var first := FilterOut(builtin, Elements(ordered));
    var last := FilterOut(personal, Elements(ordered));
    result := first + ordered + last;
  }

  lemma ElementsMember<T>(s: seq<T>, x: T)
    ensures x in Elements(s) <==> x in s
  {
  }

  /** Membership of the three parts. */
  lemma PartMembers<T>(builtin: seq<T>, personal: seq<T>, requested: seq<T>, x: T)
    ensures var b := Unique(builtin);
      var p := Without(Unique(personal), Elements(b));
      var ordered := Within(Unique(requested), Elements(b + p));
      && (x in b <==> x in builtin)
      && (x in p <==> x in personal && x !in builtin)
      && (x in ordered <==> x in requested && (x in builtin || x in personal))
      && (x in Without(b, Elements(ordered)) <==> x in builtin && x !in requested)
      && (x in Without(p, Elements(ordered)) <==> x in personal && x !in builtin && x !in requested)
  {
    var b := Unique(builtin);
    var p := Without(Unique(personal), Elements(b));
    var ordered := Within(Unique(requested), Elements(b + p));
    UniqueMember(builtin, x);
    UniqueMember(personal, x);
    UniqueMember(requested, x);
    WithoutMember(Unique(personal), Elements(b), x);
    WithinMember(Unique(requested), Elements(b + p), x);
    WithoutMember(b, Elements(ordered), x);
    WithoutMember(p, Elements(ordered), x);
  }

  /** Exactly the inherited and the personal members, once each. */
  lemma ResolveMembers<T>(builtin: seq<T>, personal: seq<T>, requested: seq<T>)
    ensures NoDup(Resolve(builtin, personal, requested))
    ensures forall x :: x in Resolve(builtin, personal, requested) <==> x in builtin || x in personal
  {
    var b := Unique(builtin);
    var p := Without(Unique(personal), Elements(b));
    var ordered := Within(Unique(requested), Elements(b + p));
    UniqueNoDup(builtin);
    UniqueNoDup(personal);
    UniqueNoDup(requested);
    WithoutNoDup(Unique(personal), Elements(b));
    WithinNoDup(Unique(requested), Elements(b + p));
    WithoutNoDup(b, Elements(ordered));
    WithoutNoDup(p, Elements(ordered));
    var first, last := Without(b, Elements(ordered)), Without(p, Elements(ordered));
    forall x
      ensures x in first + ordered + last <==> x in builtin || x in personal
    {
      PartMembers(builtin, personal, requested, x);
    }
    forall x | x in first
      ensures x !in ordered
    {
      PartMembers(builtin, personal, requested, x);
    }
    ConcatNoDup(first, ordered);
    forall x | x in first + ordered
      ensures x !in last
    {
      PartMembers(builtin, personal, requested, x);
    }
    ConcatNoDup(first + ordered, last);
  }

  lemma ConcatNoDup<T>(a: seq<T>, b: seq<T>)
    requires NoDup(a) && NoDup(b) && forall x :: x in a ==> x !in b
    ensures NoDup(a + b)
  {
    forall i, j | 0 <= i < j < |a + b|
      ensures (a + b)[i] != (a + b)[j]
    {
      if i < |a| && |a| <= j {
        assert a[i] in a && b[j - |a|] in b;
      }
    }
  }

  /** The group a member belongs to: inherited and unordered, ordered, personal and unordered. */
  function Group<T(==)>(builtin: seq<T>, requested: seq<T>, x: T): nat {
    if x in requested then 1 else if x in builtin then 0 else 2
  }

  /** The order, exactly: by group, and inside a group as in the list that the group comes from. */
  lemma ResolveOrder<T>(builtin: seq<T>, personal: seq<T>, requested: seq<T>, x: T, y: T)
    requires (x in builtin || x in personal) && (y in builtin || y in personal)
    ensures var gx, gy := Group(builtin, requested, x), Group(builtin, requested, y);
      Comes(Resolve(builtin, personal, requested), x, y) <==>
        gx < gy || (gx == gy && Comes(if gx == 0 then builtin else if gx == 1 then requested else personal, x, y))
  {
    var b := Unique(builtin);
    var p := Without(Unique(personal), Elements(b));
    var ordered := Within(Unique(requested), Elements(b + p));
    var first, last := Without(b, Elements(ordered)), Without(p, Elements(ordered));
    PartMembers(builtin, personal, requested, x);
    PartMembers(builtin, personal, requested, y);
    ComesConcat(first + ordered, last, x, y);
    ComesConcat(first, ordered, x, y);
    UniqueComes(builtin, x, y);
    UniqueComes(personal, x, y);
    UniqueComes(requested, x, y);
    var gx, gy := Group(builtin, requested, x), Group(builtin, requested, y);
    if gx < gy {
      if gx == 0 {
        SomeComes(first, x, y);
      } else {
        SomeComes(ordered, x, y);
      }
    } else if gx == gy {
      if gx == 0 {
        WithoutComes(b, Elements(ordered), x, y);
      } else if gx == 1 {
        WithinComes(Unique(requested), Elements(b + p), x, y);
      } else {
        WithoutComes(Unique(personal), Elements(b), x, y);
        WithoutComes(p, Elements(ordered), x, y);
      }
    }
  }

  /** A resolved order resolves to itself. */
  lemma ResolveIsFixed<T>(builtin: seq<T>, personal: seq<T>, requested: seq<T>)
    ensures Resolve(builtin, personal, Resolve(builtin, personal, requested)) == Resolve(builtin, personal, requested)
  {
    ResolveMembers(builtin, personal, requested);
    AllOrdered(builtin, personal, Resolve(builtin, personal, requested));
  }

  /** An order without repetitions that names every member and nothing else is taken as it is. */
  lemma AllOrdered<T>(builtin: seq<T>, personal: seq<T>, order: seq<T>)
    requires NoDup(order) && forall x :: x in order <==> x in builtin || x in personal
    ensures Resolve(builtin, personal, order) == order
  {
    hide Unique, Without, Within, Elements;
    var b := Unique(builtin);
    var p := Without(Unique(personal), Elements(b));
    UniqueOfNoDup(order);
    forall x | x in order
      ensures x in Elements(b + p)
    {
      PartMembers(builtin, personal, order, x);
      ElementsMember(b + p, x);
    }
    WithinAll(order, Elements(b + p));
    forall x | x in b
      ensures x in Elements(order)
    {
      PartMembers(builtin, personal, order, x);
      ElementsMember(order, x);
    }
    forall x | x in p
      ensures x in Elements(order)
    {
      PartMembers(builtin, personal, order, x);
      ElementsMember(order, x);
    }
    WithoutAll(b, Elements(order));
    WithoutAll(p, Elements(order));
    AppendLaws(order, [], []);
  }
}
