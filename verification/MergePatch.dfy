/** Ordered JSON merge patches with write-conflict detection (model-option-map/src/merge-patch.ts). */
module MergePatch {
  import opened Common
  import opened Json

  type Path = seq<string>

  datatype NamedPatch = NamedPatch(option: string, patch: JsonObject)
  datatype OwnedPath = OwnedPath(option: string, path: Path)
  datatype Conflict = Conflict(path: Path, first: string, second: string)

  /******* Specification *******/

  predicate Branches(v: JsonValue) {
    v.Object? && v.fields != map[]
  }

  /** `p` is one of the leaf paths that applying `patch` writes. */
  predicate Writes(patch: JsonObject, p: Path)
    decreases |p|
  {
    && p != []
    && p[0] in patch
    && if Branches(patch[p[0]]) then Writes(patch[p[0]].fields, p[1..]) else |p| == 1
  }

  predicate Overlap(p: Path, q: Path) {
    p <= q || q <= p
  }

  function SubObject(doc: JsonObject, key: string): JsonObject {
    if key in doc && doc[key].Object? then doc[key].fields else map[]
  }

  /** The merged document, one key at a time. */
  function Merged(target: JsonObject, patch: JsonObject): JsonObject
    decreases Object(patch)
  {
    map k | k in target.Keys + patch.Keys && !(k in patch && patch[k].Null?) ::
      if k in patch then
        if patch[k].Object? then Object(Merged(SubObject(target, k), patch[k].fields)) else patch[k]
      else target[k]
  }

  function Fold(body: JsonObject, patches: seq<NamedPatch>): JsonObject
    decreases |patches|
  {
    if patches == [] then body else Fold(Merged(body, patches[0].patch), patches[1..])
  }

  ghost predicate Compatible(a: JsonObject, b: JsonObject) {
    forall p, q :: Writes(a, p) && Writes(b, q) ==> !Overlap(p, q)
  }

  ghost predicate NonConflicting(patches: seq<NamedPatch>) {
    forall i, j :: 0 <= i < j < |patches| ==> Compatible(patches[i].patch, patches[j].patch)
  }

  /** The value reached by following `p`, if every step but the last goes through an object. */
  function Lookup(doc: JsonObject, p: Path): Option<JsonValue>
    decreases |p|
  {
    if p == [] then Some(Object(doc))
    else if p[0] !in doc then None
    else if |p| == 1 then Some(doc[p[0]])
    else if doc[p[0]].Object? then Lookup(doc[p[0]].fields, p[1..])
    else None
  }

  /** What a path holds after a leaf was written over `before`. */
  function Overwritten(leaf: JsonValue, before: Option<JsonValue>): Option<JsonValue> {
    if leaf.Null? then None
    else if leaf.Object? && before.Some? && before.value.Object? then before
    else Some(leaf)
  }

  /** The pseudo-code of section 2 of RFC 7396; an absent target member is passed as Null. */
  ghost function Rfc7396(target: JsonValue, patch: JsonValue): JsonValue
    decreases patch, 1
  {
    if patch.Object? then
      Object(Rfc7396Fields(if target.Object? then target.fields else map[], patch, patch.fields.Keys))
    else
      patch
  }

  ghost function Rfc7396Fields(target: JsonObject, patch: JsonValue, names: set<string>): JsonObject
    requires patch.Object? && names <= patch.fields.Keys
    decreases patch, 0, names
  {
    if names == {} then target
    else
      var name :| name in names;
      var rest := Rfc7396Fields(target, patch, names - {name});
      if patch.fields[name].Null? then rest - {name}
      else rest[name := Rfc7396(if name in rest then rest[name] else Null, patch.fields[name])]
  }

  /******* Implementation *******/

  method PathsOverlap(left: Path, right: Path) returns (overlap: bool)
    ensures overlap <==> Overlap(left, right)
  {
    var sharedLength := if |left| < |right| then |left| else |right|;
    for index := 0 to sharedLength
      invariant left[..index] == right[..index]
    {
      if left[index] != right[index] {
        return false;
      }
    }
    return true;
  }

  method CollectWrittenPaths(patch: JsonObject, prefix: Path) returns (paths: seq<Path>)
    ensures forall q :: q in paths <==> prefix <= q && Writes(patch, q[|prefix|..])
    ensures NoDup(paths)
    decreases Object(patch)
  {
    paths := [];
    var keys := patch.Keys;
    while keys != {}
      invariant keys <= patch.Keys
      invariant forall q :: q in paths <==>
        prefix <= q && Writes(patch, q[|prefix|..]) && q[|prefix|] !in keys
      invariant NoDup(paths)
      decreases keys
    {
      var key :| key in keys;
      var path := prefix + [key];
      var value := patch[key];
      var found := [path];
      if value.Object? && value.fields != map[] {
        found := CollectWrittenPaths(value.fields, path);
      }
      forall q
        ensures q in found <==> prefix <= q && Writes(patch, q[|prefix|..]) && q[|prefix|] == key
      {
        ExtendedPath(patch, prefix, key, q);
      }
      forall i, j | 0 <= i < |paths| && 0 <= j < |found|
        ensures paths[i] != found[j]
      {
        assert paths[i] in paths && found[j] in found;
      }
      keys := keys - {key};
      paths := paths + found;
    }
  }

  lemma ExtendedPath(patch: JsonObject, prefix: Path, key: string, q: Path)
    requires key in patch
    ensures (prefix <= q && Writes(patch, q[|prefix|..]) && q[|prefix|] == key) <==>
      if Branches(patch[key])
      then prefix + [key] <= q && Writes(patch[key].fields, q[|prefix| + 1..])
      else q == prefix + [key]
  {
    if prefix <= q && |prefix| < |q| {
      assert q[|prefix|..][1..] == q[|prefix| + 1..];
      assert q[|prefix|..][0] == q[|prefix|];
      assert q == prefix + q[|prefix|..];
    }
  }

  method MergeObject(target: JsonObject, patch: JsonObject) returns (result: JsonObject)
    ensures result == Merged(target, patch)
    decreases Object(patch)
  {
    result := target;
    var keys := patch.Keys;
    MergeNothing(target, patch);
    while keys != {}
      invariant keys <= patch.Keys
      invariant result == Merged(target, Restrict(patch, patch.Keys - keys))
      decreases keys
    {
      var key :| key in keys;
      var patchValue := patch[key];
      MergeOneMore(target, patch, patch.Keys - keys, key);
      if patchValue.Null? {
        result := result - {key};
      } else if patchValue.Object? {
        var targetValue := if key in result && result[key].Object? then result[key].fields else map[];
        var merged := MergeObject(targetValue, patchValue.fields);
        result := result[key := Object(merged)];
      } else {
        result := result[key := patchValue];
      }
      assert patch.Keys - (keys - {key}) == patch.Keys - keys + {key};
      keys := keys - {key};
    }
    assert Restrict(patch, patch.Keys - keys) == patch;
  }

  function Restrict(patch: JsonObject, names: set<string>): JsonObject {
    map k | k in patch && k in names :: patch[k]
  }

  lemma MergeNothing(target: JsonObject, patch: JsonObject)
    ensures Merged(target, Restrict(patch, {})) == target
    ensures Restrict(patch, patch.Keys - patch.Keys) == Restrict(patch, {}) == map[]
  {
  }

  /** Processing one more member of the patch, in any order, refines the whole-document view. */
  lemma MergedAt(target: JsonObject, patch: JsonObject, k: string)
    ensures k in Merged(target, patch) <==> if k in patch then !patch[k].Null? else k in target
    ensures k in Merged(target, patch) ==>
      Merged(target, patch)[k] ==
        if k !in patch then target[k]
        else if patch[k].Object? then Object(Merged(SubObject(target, k), patch[k].fields))
        else patch[k]
  {
  }

  lemma MergeOneMore(target: JsonObject, patch: JsonObject, names: set<string>, key: string)
    requires key in patch && key !in names
    ensures
      var before := Merged(target, Restrict(patch, names));
      && SubObject(before, key) == SubObject(target, key)
      && Merged(target, Restrict(patch, names + {key})) ==
         if patch[key].Null? then before - {key}
         else if patch[key].Object? then
           before[key := Object(Merged(SubObject(target, key), patch[key].fields))]
         else before[key := patch[key]]
  {
    hide Merged;
    var less, more := Restrict(patch, names), Restrict(patch, names + {key});
    var before, after := Merged(target, less), Merged(target, more);
    forall k | k != key
      ensures k in after <==> k in before
      ensures k in after ==> after[k] == before[k]
    {
      MergedAt(target, less, k);
      MergedAt(target, more, k);
    }
    MergedAt(target, less, key);
    MergedAt(target, more, key);
  }

  method FindOverlap(ownedPaths: seq<OwnedPath>, path: Path) returns (found: Option<OwnedPath>)
    ensures found.Some? ==> found.value in ownedPaths && Overlap(found.value.path, path)
    ensures found.None? ==> forall o :: o in ownedPaths ==> !Overlap(o.path, path)
  {
    for c := 0 to |ownedPaths|
      invariant forall m :: 0 <= m < c ==> !Overlap(ownedPaths[m].path, path)
    {
      var overlap := PathsOverlap(ownedPaths[c].path, path);
      if overlap {
        return Some(ownedPaths[c]);
      }
    }
    found := None;
  }

  /** The inner loop: claims the written paths of one patch, or names the first conflict. */
  method ClaimPaths(owned: seq<OwnedPath>, option: string, paths: seq<Path>)
    returns (r: Result<seq<OwnedPath>, Conflict>)
    requires forall i, j :: 0 <= i < j < |paths| ==> !Overlap(paths[i], paths[j])
    ensures r.Ok? ==> forall o :: o in r.value <==> o in owned || (o.option == option && o.path in paths)
    ensures r.Ok? ==> forall o, p :: o in owned && p in paths ==> !Overlap(o.path, p)
    ensures r.Err? ==>
      && r.error.path in paths && r.error.second == option
      && exists o :: o in owned && o.option == r.error.first && Overlap(o.path, r.error.path)
  {
    var ownedPaths := owned;
    for k := 0 to |paths|
      invariant forall o :: o in ownedPaths <==> o in owned || (o.option == option && o.path in paths[..k])
      invariant forall o, p :: o in owned && p in paths[..k] ==> !Overlap(o.path, p)
    {
      var conflict := FindOverlap(ownedPaths, paths[k]);
      if conflict.Some? {
        return Err(Conflict(paths[k], conflict.value.option, option));
      }
      ownedPaths := ownedPaths + [OwnedPath(option, paths[k])];
      assert paths[..k + 1] == paths[..k] + [paths[k]];
    }
    assert paths[..|paths|] == paths;
    r := Ok(ownedPaths);
  }

  /** `owned` lists exactly the paths written by `patches`, each with its option. */
  ghost predicate Owns(owned: seq<OwnedPath>, patches: seq<NamedPatch>) {
    && (forall o :: o in owned ==>
          exists i :: 0 <= i < |patches| && o.option == patches[i].option && Writes(patches[i].patch, o.path))
    && (forall i, p :: 0 <= i < |patches| && Writes(patches[i].patch, p) ==>
          OwnedPath(patches[i].option, p) in owned)
  }

  method ApplyOrderedJsonMergePatches(body: JsonObject, patches: seq<NamedPatch>)
    returns (r: Result<JsonObject, Conflict>)
    ensures r.Ok? <==> NonConflicting(patches)
    ensures r.Ok? ==> r.value == Fold(body, patches)
    ensures r.Err? ==> ConflictBetween(patches, r.error)
  {
    var ownedPaths: seq<OwnedPath> := [];
    var result := body;
    var n := 0;
    while n < |patches|
      invariant 0 <= n <= |patches|
      invariant Fold(body, patches) == Fold(result, patches[n..])
      invariant Owns(ownedPaths, patches[..n])
      invariant NonConflicting(patches[..n])
    {
      var namedPatch := patches[n];
      var paths := CollectWrittenPaths(namedPatch.patch, []);
      PathsAreWritten(namedPatch.patch, paths);
      var claimed := ClaimPaths(ownedPaths, namedPatch.option, paths);
      if claimed.Err? {
        ConflictFound(patches, n, ownedPaths, claimed.error);
        return Err(claimed.error);
      }
      OwnsOneMore(patches, n, ownedPaths, paths, claimed.value);
      ownedPaths := claimed.value;
      result := MergeObject(result, namedPatch.patch);
      n := n + 1;
    }
    assert patches[..n] == patches;
    r := Ok(result);
  }

  /** The error names two options of the list and a path that both of them reach. */
  ghost predicate ConflictBetween(patches: seq<NamedPatch>, c: Conflict) {
    exists i, j, q ::
      && 0 <= i < j < |patches|
      && c.first == patches[i].option && c.second == patches[j].option
      && Writes(patches[i].patch, q) && Writes(patches[j].patch, c.path) && Overlap(q, c.path)
  }

  lemma PathsAreWritten(patch: JsonObject, paths: seq<Path>)
    requires forall q :: q in paths <==> [] <= q && Writes(patch, q[0..])
    requires NoDup(paths)
    ensures forall q :: q in paths <==> Writes(patch, q)
    ensures forall i, j :: 0 <= i < j < |paths| ==> !Overlap(paths[i], paths[j])
  {
    forall q
      ensures q in paths <==> Writes(patch, q)
    {
      assert q[0..] == q;
    }
    forall i, j | 0 <= i < j < |paths|
      ensures !Overlap(paths[i], paths[j])
    {
      assert paths[i] in paths && paths[j] in paths;
      if Overlap(paths[i], paths[j]) {
        PrefixFree(patch, paths[i], paths[j]);
      }
    }
  }

  lemma ConflictFound(patches: seq<NamedPatch>, n: nat, owned: seq<OwnedPath>, c: Conflict)
    requires n < |patches| && Owns(owned, patches[..n])
    requires Writes(patches[n].patch, c.path) && c.second == patches[n].option
    requires exists o :: o in owned && o.option == c.first && Overlap(o.path, c.path)
    ensures ConflictBetween(patches, c) && !NonConflicting(patches)
  {
    var o :| o in owned && o.option == c.first && Overlap(o.path, c.path);
    var i :| 0 <= i < n && o.option == patches[..n][i].option && Writes(patches[..n][i].patch, o.path);
    assert Writes(patches[i].patch, o.path);
    assert !Compatible(patches[i].patch, patches[n].patch);
  }

  lemma OwnsOneMore(
    patches: seq<NamedPatch>, n: nat, owned: seq<OwnedPath>, paths: seq<Path>, claimed: seq<OwnedPath>)
    requires n < |patches| && Owns(owned, patches[..n]) && NonConflicting(patches[..n])
    requires forall q :: q in paths <==> Writes(patches[n].patch, q)
    requires forall o :: o in claimed <==> o in owned || (o.option == patches[n].option && o.path in paths)
    requires forall o, p :: o in owned && p in paths ==> !Overlap(o.path, p)
    ensures Owns(claimed, patches[..n + 1]) && NonConflicting(patches[..n + 1])
  {
    var done := patches[..n + 1];
    forall o | o in claimed
      ensures exists i :: 0 <= i < |done| && o.option == done[i].option && Writes(done[i].patch, o.path)
    {
      if o in owned {
        var i :| 0 <= i < n && o.option == patches[..n][i].option && Writes(patches[..n][i].patch, o.path);
        assert done[i] == patches[..n][i];
      } else {
        assert done[n] == patches[n];
      }
    }
    forall i, p | 0 <= i < |done| && Writes(done[i].patch, p)
      ensures OwnedPath(done[i].option, p) in claimed
    {
      if i < n {
        assert done[i] == patches[..n][i];
      }
    }
    forall i, j | 0 <= i < j < |done|
      ensures Compatible(done[i].patch, done[j].patch)
    {
      assert done[i] == patches[..n][i];
      if j < n {
        assert done[j] == patches[..n][j];
      } else {
        forall p, q | Writes(done[i].patch, p) && Writes(done[j].patch, q)
          ensures !Overlap(p, q)
        {
          assert OwnedPath(patches[..n][i].option, p) in owned;
        }
      }
    }
  }

  /******* A single patch never conflicts with itself *******/

  lemma {:induction false} PrefixFree(patch: JsonObject, p: Path, q: Path)
    requires Writes(patch, p) && Writes(patch, q) && Overlap(p, q)
    ensures p == q
    decreases |p|
  {
    if Branches(patch[p[0]]) {
      PrefixFree(patch[p[0]].fields, p[1..], q[1..]);
      assert p == [p[0]] + p[1..] && q == [q[0]] + q[1..];
    }
  }

  /** Every non-empty patch writes something. */
  lemma {:induction false} WrittenPathExists(patch: JsonObject) returns (p: Path)
    requires patch != map[]
    ensures Writes(patch, p)
    decreases Object(patch)
  {
    var k :| k in patch;
    p := [k];
    if Branches(patch[k]) {
      var rest := WrittenPathExists(patch[k].fields);
      p := [k] + rest;
    }
  }

  /******* Agreement with RFC 7396 *******/

  lemma {:induction false} MergedIsRfc7396(target: JsonObject, patch: JsonObject)
    ensures Rfc7396(Object(target), Object(patch)) == Object(Merged(target, patch))
    decreases Object(patch), 1
  {
    FieldsAreMerged(target, patch, patch.Keys);
    assert Restrict(patch, patch.Keys) == patch;
  }

  lemma {:induction false} FieldsAreMerged(target: JsonObject, patch: JsonObject, names: set<string>)
    requires names <= patch.Keys
    ensures Rfc7396Fields(target, Object(patch), names) == Merged(target, Restrict(patch, names))
    decreases Object(patch), 0, names
  {
    if names == {} {
      MergeNothing(target, patch);
    } else {
      var fields := Object(patch).fields;
      var name :| name in names
        && Rfc7396Fields(target, Object(patch), names) ==
           var rest := Rfc7396Fields(target, Object(patch), names - {name});
           if fields[name].Null? then rest - {name}
           else rest[name := Rfc7396(if name in rest then rest[name] else Null, fields[name])];
      FieldsAreMerged(target, patch, names - {name});
      MergeOneMore(target, patch, names - {name}, name);
      assert names - {name} + {name} == names;
      var rest := Rfc7396Fields(target, Object(patch), names - {name});
      RfcMember(rest, name, patch[name]);
      if patch[name].Object? {
        MergedIsRfc7396(SubObject(target, name), patch[name].fields);
      }
    }
  }

  lemma RfcMember(doc: JsonObject, name: string, patch: JsonValue)
    ensures Rfc7396(if name in doc then doc[name] else Null, patch)
         == if patch.Object? then Rfc7396(Object(SubObject(doc, name)), patch) else patch
  {
  }

  /******* Pointwise meaning of one merge *******/

  lemma {:induction false} MergeWritten(target: JsonObject, patch: JsonObject, p: Path)
    requires Writes(patch, p)
    ensures Lookup(patch, p).Some?
    ensures Lookup(Merged(target, patch), p) == Overwritten(Lookup(patch, p).value, Lookup(target, p))
    decreases |p|
  {
    var k := p[0];
    if Branches(patch[k]) {
      MergeWritten(SubObject(target, k), patch[k].fields, p[1..]);
    } else if patch[k].Object? {
      assert Merged(SubObject(target, k), map[]) == SubObject(target, k);
    }
  }

  lemma {:induction false} MergeUntouched(target: JsonObject, patch: JsonObject, p: Path)
    requires forall q :: Writes(patch, q) ==> !Overlap(q, p)
    ensures Lookup(Merged(target, patch), p) == Lookup(target, p)
    decreases |p|
  {
    if patch == map[] {
      assert Merged(target, patch) == target;
    } else if p == [] {
      var q := WrittenPathExists(patch);
    } else if p[0] in patch {
      var k := p[0];
      if Branches(patch[k]) {
        forall q | Writes(patch[k].fields, q)
          ensures !Overlap(q, p[1..])
        {
          assert ([k] + q)[1..] == q && Writes(patch, [k] + q);
          assert p == [k] + p[1..];
        }
        var q := WrittenPathExists(patch[k].fields);
        MergeUntouched(SubObject(target, k), patch[k].fields, p[1..]);
      } else {
        assert Writes(patch, [k]) && [k] <= p;
      }
    }
  }

  /** Everything above a written path is an object afterwards. */
  lemma {:induction false} MergeSpine(target: JsonObject, patch: JsonObject, p: Path, q: Path)
    requires Writes(patch, q) && p < q
    ensures Lookup(Merged(target, patch), p).Some? && Lookup(Merged(target, patch), p).value.Object?
    decreases |p|
  {
    if p != [] {
      MergeSpine(SubObject(target, p[0]), patch[p[0]].fields, p[1..], q[1..]);
    }
  }

  lemma {:induction false} MergeIdempotent(target: JsonObject, patch: JsonObject)
    ensures Merged(Merged(target, patch), patch) == Merged(target, patch)
    decreases Object(patch)
  {
    var once := Merged(target, patch);
    forall k | k in patch && patch[k].Object?
      ensures Merged(SubObject(once, k), patch[k].fields) == SubObject(once, k)
    {
      MergeIdempotent(SubObject(target, k), patch[k].fields);
    }
    assert Merged(once, patch).Keys == once.Keys;
  }

  /******* Pointwise meaning of a list of patches *******/

  lemma {:induction false} FoldUntouched(body: JsonObject, patches: seq<NamedPatch>, p: Path)
    requires forall i, q :: 0 <= i < |patches| && Writes(patches[i].patch, q) ==> !Overlap(q, p)
    ensures Lookup(Fold(body, patches), p) == Lookup(body, p)
    decreases |patches|
  {
    if patches != [] {
      MergeUntouched(body, patches[0].patch, p);
      FoldUntouched(Merged(body, patches[0].patch), patches[1..], p);
    }
  }

  /** In an accepted list every written path ends up holding its own patch's value. */
  lemma {:induction false} FoldWritten(body: JsonObject, patches: seq<NamedPatch>, i: nat, p: Path)
    requires NonConflicting(patches) && i < |patches| && Writes(patches[i].patch, p)
    ensures Lookup(patches[i].patch, p).Some?
    ensures Lookup(Fold(body, patches), p)
         == Overwritten(Lookup(patches[i].patch, p).value, Lookup(body, p))
    decreases |patches|
  {
    var next := Merged(body, patches[0].patch);
    if i == 0 {
      MergeWritten(body, patches[0].patch, p);
      FoldUntouched(next, patches[1..], p);
    } else {
      MergeUntouched(body, patches[0].patch, p);
      FoldWritten(next, patches[1..], i - 1, p);
    }
  }

  /******* Patch order does not matter *******/

  lemma CompatibleSymmetric(a: JsonObject, b: JsonObject)
    requires Compatible(a, b)
    ensures Compatible(b, a)
  {
  }

  lemma CompatibleBelow(a: JsonObject, b: JsonObject, k: string)
    requires Compatible(a, b) && k in a && k in b
    ensures Branches(a[k]) && Branches(b[k]) && Compatible(a[k].fields, b[k].fields)
  {
    if !Branches(a[k]) || !Branches(b[k]) {
      var p, q := [k], [k];
      if Branches(a[k]) {
        var rest := WrittenPathExists(a[k].fields);
        p := [k] + rest;
      }
      if Branches(b[k]) {
        var rest := WrittenPathExists(b[k].fields);
        q := [k] + rest;
      }
      assert Writes(a, p) && Writes(b, q) && Overlap(p, q);
    } else {
      forall p, q | Writes(a[k].fields, p) && Writes(b[k].fields, q)
        ensures !Overlap(p, q)
      {
        var kp, kq := [k] + p, [k] + q;
        assert kp[1..] == p && kq[1..] == q;
        assert Writes(a, kp) && Writes(b, kq);
        assert p <= q ==> kp <= kq;
        assert q <= p ==> kq <= kp;
      }
    }
  }

  lemma {:induction false} MergeCommutes(target: JsonObject, a: JsonObject, b: JsonObject)
    requires Compatible(a, b)
    ensures Merged(Merged(target, a), b) == Merged(Merged(target, b), a)
    decreases Object(a), 1
  {
    var ab, ba := Merged(Merged(target, a), b), Merged(Merged(target, b), a);
    forall k
      ensures k in ab <==> k in ba
      ensures k in ab ==> ab[k] == ba[k]
    {
      MergeCommutesAt(target, a, b, k);
    }
  }

  lemma {:induction false} MergeCommutesAt(target: JsonObject, a: JsonObject, b: JsonObject, k: string)
    requires Compatible(a, b)
    ensures
      var ab, ba := Merged(Merged(target, a), b), Merged(Merged(target, b), a);
      (k in ab <==> k in ba) && (k in ab ==> ab[k] == ba[k])
    decreases Object(a), 0
  {
    if k in a && k in b {
      CompatibleBelow(a, b, k);
      var t := SubObject(target, k);
      MergeCommutes(t, a[k].fields, b[k].fields);
      MemberMerged(target, a, k);
      MemberMerged(target, b, k);
      MemberMerged(Merged(target, a), b, k);
      MemberMerged(Merged(target, b), a, k);
    }
  }

  lemma MemberMerged(target: JsonObject, patch: JsonObject, k: string)
    requires k in patch && patch[k].Object?
    ensures k in Merged(target, patch)
    ensures Merged(target, patch)[k] == Object(Merged(SubObject(target, k), patch[k].fields))
  {
  }

  function Without<T>(s: seq<T>, j: nat): seq<T>
    requires j < |s|
  {
    s[..j] + s[j + 1..]
  }

  /** Any one patch of an accepted list can be applied first. */
  lemma {:induction false} MoveToFront(body: JsonObject, patches: seq<NamedPatch>, j: nat)
    requires NonConflicting(patches) && j < |patches|
    ensures Fold(body, patches) == Fold(Merged(body, patches[j].patch), Without(patches, j))
    decreases j
  {
    if j == 0 {
      assert Without(patches, 0) == patches[1..];
    } else {
      var first, rest := patches[0].patch, patches[1..];
      MoveToFront(Merged(body, first), rest, j - 1);
      MergeCommutes(body, first, patches[j].patch);
      assert Without(patches, j)[0] == patches[0];
      assert Without(patches, j)[1..] == Without(rest, j - 1);
    }
  }

  lemma {:induction false} PermutationKeepsNonConflicting(a: seq<NamedPatch>, b: seq<NamedPatch>)
    requires NonConflicting(a) && multiset(a) == multiset(b)
    ensures NonConflicting(b)
    decreases |a|
  {
    hide Compatible, NonConflicting;
    if b != [] {
      assert b[0] in multiset(b);
      var j :| 0 <= j < |a| && a[j] == b[0];
      RemoveBoth(a, b, j);
      var rest := Without(a, j);
      CompatibleWithRest(a, j);
      PermutationKeepsNonConflicting(rest, b[1..]);
      forall p | p in b[1..]
        ensures Compatible(b[0].patch, p.patch)
      {
        assert p in multiset(b[1..]);
      }
      FirstWithRest(b);
    }
  }

  lemma CompatibleWithRest(a: seq<NamedPatch>, j: nat)
    requires NonConflicting(a) && j < |a|
    ensures NonConflicting(Without(a, j)) && forall p :: p in Without(a, j) ==> Compatible(a[j].patch, p.patch)
  {
    hide Compatible;
    var rest := Without(a, j);
    forall m | 0 <= m < |rest|
      ensures Compatible(a[j].patch, rest[m].patch)
    {
      if m < j {
        CompatibleSymmetric(a[m].patch, a[j].patch);
      }
    }
  }

  lemma FirstWithRest(b: seq<NamedPatch>)
    requires b != [] && NonConflicting(b[1..]) && forall p :: p in b[1..] ==> Compatible(b[0].patch, p.patch)
    ensures NonConflicting(b)
  {
    hide Compatible;
    forall i, n | 0 <= i < n < |b|
      ensures Compatible(b[i].patch, b[n].patch)
    {
      assert b[n] == b[1..][n - 1] && b[n] in b[1..];
      if i > 0 {
        assert b[i] == b[1..][i - 1];
      }
    }
  }

  lemma RemoveBoth<T>(a: seq<T>, b: seq<T>, j: nat)
    requires multiset(a) == multiset(b) && b != [] && j < |a| && a[j] == b[0]
    ensures multiset(Without(a, j)) == multiset(b[1..])
    ensures |Without(a, j)| == |a| - 1
  {
    assert a == a[..j] + [a[j]] + a[j + 1..];
    assert b == [b[0]] + b[1..];
    calc {
      multiset(Without(a, j));
      multiset(a[..j]) + multiset(a[j + 1..]);
      multiset(a) - multiset{a[j]};
      multiset(b) - multiset{b[0]};
      multiset(b[1..]);
    }
  }

  /** An accepted list may be reordered freely: it stays accepted and yields the same document. */
  lemma {:induction false} OrderIrrelevant(body: JsonObject, a: seq<NamedPatch>, b: seq<NamedPatch>)
    requires NonConflicting(a) && multiset(a) == multiset(b)
    ensures NonConflicting(b) && Fold(body, a) == Fold(body, b)
    decreases |a|
  {
    PermutationKeepsNonConflicting(a, b);
    assert |a| == |multiset(a)| == |multiset(b)| == |b|;
    if b != [] {
      assert b[0] in multiset(b);
      var j :| 0 <= j < |a| && a[j] == b[0];
      RemoveBoth(a, b, j);
      MoveToFront(body, a, j);
      WithoutNonConflicting(a, j);
      OrderIrrelevant(Merged(body, b[0].patch), Without(a, j), b[1..]);
    }
  }

  lemma WithoutNonConflicting(a: seq<NamedPatch>, j: nat)
    requires NonConflicting(a) && j < |a|
    ensures NonConflicting(Without(a, j))
  {
    var rest := Without(a, j);
    forall i, n | 0 <= i < n < |rest|
      ensures Compatible(rest[i].patch, rest[n].patch)
    {
      var i', n' := if i < j then i else i + 1, if n < j then n else n + 1;
      assert rest[i] == a[i'] && rest[n] == a[n'];
    }
  }
}
