/** The structural difference between two configurations, taken up to the order of their records. */
module Comparison {
  import opened Ids

  /** A value as serialised; a collection of records has become an object keyed by identifier. */
  datatype Value = Null | Leaf(text: string) | Object(fields: map<Id, Value>)

  datatype Difference = Difference(path: seq<Id>, before: Value, after: Value)

  // ---------------------------------------------------------------- sorted keys

  lemma LeastExists(s: set<Id>)
    requires s != {}
    ensures exists k :: k in s && forall j | j in s :: IdLeq(k, j)
  {
    hide IdLeq;
    IdOrder();
    var x :| x in s;
    if s - {x} == {} {
      assert s == {x};
      assert IdLeq(x, x);
    } else {
      LeastExists(s - {x});
      var k :| k in s - {x} && forall j | j in s - {x} :: IdLeq(k, j);
      var least := if IdLeq(k, x) then k else x;
      forall j | j in s ensures IdLeq(least, j) { assert j == x || j in s - {x}; }
    }
  }

  function Least(s: set<Id>): (r: Id)
    requires s != {}
    ensures r in s && forall j | j in s :: IdLeq(r, j)
  {
    LeastExists(s);
    LeastIsUnique(s);
    var k :| k in s && forall j | j in s :: IdLeq(k, j);
    k
  }

  lemma LeastIsUnique(s: set<Id>)
    ensures forall x, y | x in s && y in s && (forall j | j in s :: IdLeq(x, j))
            && (forall j | j in s :: IdLeq(y, j)) :: x == y
  {
    hide IdLeq;
    IdOrder();
  }

  function SortedKeys(s: set<Id>): (r: seq<Id>)
    ensures forall k :: k in r <==> k in s
    ensures Distinct(r)
    decreases s
  {
    if s == {} then []
    else
      var k := Least(s);
      var rest := SortedKeys(s - {k});
      assert ([k] + rest)[0] == k;
      [k] + rest
  }

  // ---------------------------------------------------------------- comparison

  function Under(k: Id, ds: seq<Difference>): (r: seq<Difference>)
    ensures |r| == |ds|
  {
    if ds == [] then [] else [Difference([k] + ds[0].path, ds[0].before, ds[0].after)] + Under(k, ds[1..])
  }

  predicate Has(v: Value, k: Id) { v.Object? && k in v.fields }

  /** The differences at one key of two objects. */
  function AtKey(before: Value, after: Value, k: Id): seq<Difference>
    requires Has(before, k) || Has(after, k)
    decreases before, 0
  {
    if !Has(before, k) then [Difference([k], Null, after.fields[k])]
    else if !Has(after, k) then [Difference([k], before.fields[k], Null)]
    else Under(k, Differences(before.fields[k], after.fields[k]))
  }

  function AtKeys(before: Value, after: Value, keys: seq<Id>): seq<Difference>
    requires forall k | k in keys :: Has(before, k) || Has(after, k)
    decreases before, 1, |keys|
  {
    if keys == [] then []
    else AtKeys(before, after, keys[..|keys|-1]) + AtKey(before, after, keys[|keys|-1])
  }

  function UnionKeys(before: Value, after: Value): (r: seq<Id>)
    requires before.Object? && after.Object?
    ensures forall k :: k in r <==> Has(before, k) || Has(after, k)
    ensures Distinct(r)
  {
    var keys := before.fields.Keys + after.fields.Keys;
    var r := SortedKeys(keys);
    assert forall k :: k in r <==> k in keys;
    assert forall k :: k in keys <==> Has(before, k) || Has(after, k);
    r
  }

  function Differences(before: Value, after: Value): seq<Difference>
    decreases before, 2, 0
  {
    if before.Object? && after.Object? then AtKeys(before, after, UnionKeys(before, after))
    else if before != after then [Difference([], before, after)]
    else []
  }

  // ---------------------------------------------------------------- empty exactly when equal

  lemma {:induction false} NoneAtKeys(before: Value, after: Value, keys: seq<Id>)
    requires forall k | k in keys :: Has(before, k) || Has(after, k)
    ensures AtKeys(before, after, keys) == [] <==> forall k | k in keys :: AtKey(before, after, k) == []
  {
    if keys != [] {
      var n := |keys| - 1;
      assert forall k :: k in keys <==> k in keys[..n] || k == keys[n];
      NoneAtKeys(before, after, keys[..n]);
      assert |AtKeys(before, after, keys)| == |AtKeys(before, after, keys[..n])| + |AtKey(before, after, keys[n])|;
    }
  }

  /** No difference is reported exactly when there is none. */
  lemma {:induction false} EmptyIffEqual(before: Value, after: Value)
    ensures Differences(before, after) == [] <==> before == after
    decreases before
  {
    hide AtKey, AtKeys, SortedKeys;
    if before.Object? && after.Object? {
      var keys := UnionKeys(before, after);
      NoneAtKeys(before, after, keys);
      forall k | k in keys
        ensures AtKey(before, after, k) == [] <==> Has(before, k) && Has(after, k)
                                                   && before.fields[k] == after.fields[k]
      {
        if Has(before, k) && Has(after, k) { EmptyIffEqual(before.fields[k], after.fields[k]); }
        NoneAtKey(before, after, k);
      }
      if Differences(before, after) == [] {
        assert forall k :: k in before.fields <==> k in after.fields;
        assert before.fields == after.fields;
      }
    }
  }

  lemma NoneAtKey(before: Value, after: Value, k: Id)
    requires Has(before, k) || Has(after, k)
    ensures AtKey(before, after, k) == [] <==>
              Has(before, k) && Has(after, k) && Differences(before.fields[k], after.fields[k]) == []
  {
    hide Differences;
  }

  // ---------------------------------------------------------------- patching

  function Field(v: Value, k: Id): Value { if Has(v, k) then v.fields[k] else Null }

  function Put(v: Value, path: seq<Id>, new_: Value): Value
    decreases |path|
  {
    if path == [] then new_
    else
      var fields := if v.Object? then v.fields else map[];
      Object(fields[path[0] := Put(Field(v, path[0]), path[1..], new_)])
  }

  function Patch(v: Value, ds: seq<Difference>): Value
    decreases |ds|
  {
    if ds == [] then v else Patch(Put(v, ds[0].path, ds[0].after), ds[1..])
  }

  /** Equal once fields that are null count as absent. */
  predicate Same(a: Value, b: Value)
    decreases a
  {
    if a.Object? && b.Object? then
      forall k | k in a.fields.Keys + b.fields.Keys ::
        if k in a.fields && k in b.fields then Same(a.fields[k], b.fields[k]) else Field(a, k) == Field(b, k)
    else a == b
  }

  lemma {:induction false} SameReflexive(a: Value)
    ensures Same(a, a)
    decreases a
  {
    if a.Object? {
      forall k | k in a.fields ensures Same(a.fields[k], a.fields[k]) { SameReflexive(a.fields[k]); }
    }
  }

  lemma {:induction false} PatchConcat(v: Value, xs: seq<Difference>, ys: seq<Difference>)
    ensures Patch(v, xs + ys) == Patch(Patch(v, xs), ys)
    decreases |xs|
  {
    if xs == [] {
      assert xs + ys == ys;
    } else {
      assert (xs + ys)[1..] == xs[1..] + ys;
      PatchConcat(Put(v, xs[0].path, xs[0].after), xs[1..], ys);
    }
  }

  /** Differences under one key patch that field and nothing else. */
  lemma {:induction false} PatchUnder(v: Value, k: Id, ds: seq<Difference>)
    requires v.Object? && ds != []
    ensures Patch(v, Under(k, ds)) == Object(v.fields[k := Patch(Field(v, k), ds)])
    decreases |ds|
  {
    var d := ds[0];
    var w := Put(v, [k] + d.path, d.after);
    assert ([k] + d.path)[1..] == d.path;
    assert w == Object(v.fields[k := Put(Field(v, k), d.path, d.after)]);
    assert Under(k, ds)[1..] == Under(k, ds[1..]);
    if |ds| > 1 {
      PatchUnder(w, k, ds[1..]);
      assert w.fields[k := Patch(Field(w, k), ds[1..])] == v.fields[k := Patch(Field(w, k), ds[1..])];
    } else {
      assert ds[1..] == [] && Under(k, ds[1..]) == [];
    }
  }

  /** What patching the keys in turn does to each field: a field of both is patched by its own
      differences, a new one is taken over, a dropped one becomes null. */
  ghost predicate PatchedField(before: Value, after: Value, w: Value, k: Id) {
    && Has(w, k)
    && (if Has(before, k) && Has(after, k) then w.fields[k]
                                                == Patch(before.fields[k], Differences(before.fields[k],
                                                after.fields[k]))
        else w.fields[k] == Field(after, k))
  }

  lemma PatchAtKey(before: Value, after: Value, v: Value, k: Id)
    requires v.Object? && (Has(before, k) || Has(after, k))
    requires Has(v, k) <==> Has(before, k)
    requires Has(before, k) ==> v.fields[k] == before.fields[k]
    ensures var w := Patch(v, AtKey(before, after, k));
            w.Object? && PatchedField(before, after, w, k) && forall j | j != k ::
                (Has(w, j) <==> Has(v, j)) && Field(w, j) == Field(v, j)
  {
    if Has(before, k) && Has(after, k) {
      var ds := Differences(before.fields[k], after.fields[k]);
      if ds != [] { PatchUnder(v, k, ds); }
    } else {
      var d := AtKey(before, after, k)[0];
      assert AtKey(before, after, k)[1..] == [];
      assert Put(v, [k], d.after) == Object(v.fields[k := d.after]);
    }
  }

  lemma {:induction false} PatchKeys(before: Value, after: Value, keys: seq<Id>)
    requires before.Object? && Distinct(keys) && forall k | k in keys :: Has(before, k) || Has(after, k)
    ensures var w := Patch(before, AtKeys(before, after, keys));
            && w.Object? && (forall k | k in keys :: PatchedField(before, after, w, k))
            && (forall k | k !in keys :: (Has(w, k) <==> Has(before, k)) && Field(w, k) == Field(before, k))
    decreases |keys|
  {
    if keys != [] {
      var n := |keys| - 1;
      var rest, k := keys[..n], keys[n];
      assert Distinct(rest) && k !in rest;
      assert forall j :: j in keys <==> j in rest || j == k;
      PatchKeys(before, after, rest);
      var v := Patch(before, AtKeys(before, after, rest));
      PatchConcat(before, AtKeys(before, after, rest), AtKey(before, after, k));
      PatchAtKey(before, after, v, k);
      var w := Patch(v, AtKey(before, after, k));
      forall j | j in rest ensures PatchedField(before, after, w, j) {
        assert PatchedField(before, after, v, j) && j != k;
      }
    }
  }

  /** Applying the reported differences to the first value gives the second, null fields aside. */
  lemma {:induction false} PatchGivesAfter(before: Value, after: Value)
    ensures Same(Patch(before, Differences(before, after)), after)
    decreases before
  {
    if before.Object? && after.Object? {
      var keys := UnionKeys(before, after);
      PatchKeys(before, after, keys);
      var w := Patch(before, Differences(before, after));
      forall k | k in w.fields.Keys + after.fields.Keys
        ensures if k in w.fields && k in after.fields then Same(w.fields[k], after.fields[k])
                                                           else Field(w, k) == Field(after, k)
      {
        assert k in keys ==> PatchedField(before, after, w, k);
        if Has(before, k) && Has(after, k) { PatchGivesAfter(before.fields[k], after.fields[k]); }
        else if Has(after, k) { SameReflexive(after.fields[k]); }
      }
    } else {
      SameReflexive(after);
    }
  }

  // ---------------------------------------------------------------- record order

  /** A configuration: single values, and collections of records each with its key. */
  datatype Document = Document(values: map<Id, Value>, collections: map<Id, seq<(Id, Value)>>)

  /** Records by key; of records with the same key the last is kept. */
  function Keyed(records: seq<(Id, Value)>): map<Id, Value> {
    if records == [] then map[] else Keyed(records[..|records|-1])[records[|records|-1].0 := records[|records|-1].1]
  }

  function Normalised(d: Document): Value {
    Object(d.values + map n | n in d.collections :: Object(Keyed(d.collections[n])))
  }

  ghost predicate KeysUnique(records: seq<(Id, Value)>) {
    forall i, j | 0 <= i < j < |records| :: records[i].0 != records[j].0
  }

  ghost predicate Proper(d: Document) {
    d.values.Keys !! d.collections.Keys && forall n | n in d.collections :: KeysUnique(d.collections[n])
  }

  lemma {:induction false} KeyedMeans(records: seq<(Id, Value)>)
    requires KeysUnique(records)
    ensures forall r :: r in records <==> r.0 in Keyed(records) && Keyed(records)[r.0] == r.1
  {
    if records != [] {
      var n := |records| - 1;
      KeyedMeans(records[..n]);
      assert forall r :: r in records <==> r in records[..n] || r == records[n];
      assert forall r | r in records[..n] :: r.0 != records[n].0;
    }
  }

  lemma {:induction false} UniqueCounts(records: seq<(Id, Value)>, r: (Id, Value))
    requires KeysUnique(records)
    ensures multiset(records)[r] == if r in records then 1 else 0
  {
    if records != [] {
      var n := |records| - 1;
      assert records == records[..n] + [records[n]];
      UniqueCounts(records[..n], r);
    }
  }

  lemma SameRecords(xs: seq<(Id, Value)>, ys: seq<(Id, Value)>)
    requires KeysUnique(xs) && KeysUnique(ys)
    ensures Keyed(xs) == Keyed(ys) <==> multiset(xs) == multiset(ys)
  {
    KeyedMeans(xs);
    KeyedMeans(ys);
    forall r ensures multiset(xs)[r] == (if r in xs then 1 else 0) && multiset(ys)[r] == (if r in ys then 1 else 0) {
      UniqueCounts(xs, r);
      UniqueCounts(ys, r);
    }
    if multiset(xs) == multiset(ys) {
      forall r ensures r in xs <==> r in ys { assert r in xs <==> r in multiset(xs);
                                                                  assert r in ys <==> r in multiset(ys); }
      forall k | k in Keyed(xs) ensures k in Keyed(ys)
        && Keyed(ys)[k] == Keyed(xs)[k] { assert (k, Keyed(xs)[k]) in xs; }
      forall k | k in Keyed(ys) ensures k in Keyed(xs) { assert (k, Keyed(ys)[k]) in ys; }
    }
    if Keyed(xs) == Keyed(ys) {
      assert multiset(xs) == multiset(ys);
    }
  }

  /** Two configurations of the same shape compare without differences exactly when their single values
      are equal and each collection holds the same records in some order. */
  lemma NoDifferenceIffSameContent(x: Document, y: Document)
    requires Proper(x) && Proper(y) && x.values.Keys == y.values.Keys && x.collections.Keys == y.collections.Keys
    ensures Differences(Normalised(x), Normalised(y)) == [] <==>
              x.values == y.values && forall n | n in x.collections ::
                  multiset(x.collections[n]) == multiset(y.collections[n])
  {
    hide Differences, Normalised;
    EmptyIffEqual(Normalised(x), Normalised(y));
    NormalisedFields(x);
    NormalisedFields(y);
    var a, b := Normalised(x).fields, Normalised(y).fields;
    assert Normalised(x) == Normalised(y) <==> a == b;
    SplitAgreement(a, b, x.values.Keys, x.collections.Keys);
    SplitAgreement(x.values, y.values, x.values.Keys, {});
    forall n | n in x.collections ensures a[n] == b[n] <==> multiset(x.collections[n]) == multiset(y.collections[n]) {
      SameRecords(x.collections[n], y.collections[n]);
    }
  }

  /** Maps with the same keys are equal when they agree on both parts of those keys. */
  lemma SplitAgreement(a: map<Id, Value>, b: map<Id, Value>, p: set<Id>, q: set<Id>)
    requires a.Keys == b.Keys == p + q
    ensures a == b <==> (forall k | k in p :: a[k] == b[k]) && (forall k | k in q :: a[k] == b[k])
  {
  }

  lemma NormalisedFields(d: Document)
    requires Proper(d)
    ensures Normalised(d).Object? && Normalised(d).fields.Keys == d.values.Keys + d.collections.Keys
    ensures forall k | k in d.values :: Normalised(d).fields[k] == d.values[k]
    ensures forall n | n in d.collections :: Normalised(d).fields[n] == Object(Keyed(d.collections[n]))
  {
    hide Keyed;
  }

  // ---------------------------------------------------------------- the comparison as carried out

  function Below(path: seq<Id>, ds: seq<Difference>): (r: seq<Difference>)
    ensures |r| == |ds|
  {
    seq(|ds|, k requires 0 <= k < |ds| => Difference(path + ds[k].path, ds[k].before, ds[k].after))
  }

  lemma {:induction false} BelowUnder(path: seq<Id>, k: Id, ds: seq<Difference>)
    ensures Below(path + [k], ds) == Below(path, Under(k, ds))
  {
    if ds != [] {
      BelowUnder(path, k, ds[1..]);
      assert Under(k, ds)[1..] == Under(k, ds[1..]);
      assert forall i | 0 < i < |ds| :: Below(path + [k], ds)[i] == Below(path + [k], ds[1..])[i - 1]
                                        && Below(path, Under(k, ds))[i] == Below(path, Under(k, ds[1..]))[i - 1];
      assert path + ([k] + ds[0].path) == path + [k] + ds[0].path;
    }
  }

  lemma BelowConcat(path: seq<Id>, xs: seq<Difference>, ys: seq<Difference>)
    ensures Below(path, xs + ys) == Below(path, xs) + Below(path, ys)
  {
  }

  lemma AtKeysStep(before: Value, after: Value, keys: seq<Id>, i: nat)
    requires i < |keys| && forall k | k in keys :: Has(before, k) || Has(after, k)
    ensures AtKeys(before, after, keys[..i + 1]) == AtKeys(before, after, keys[..i]) + AtKey(before, after, keys[i])
  {
    hide AtKey;
    assert keys[..i + 1][..i] == keys[..i];
  }

  lemma NothingYet(path: seq<Id>, before: Value, after: Value, keys: seq<Id>)
    ensures AtKeys(before, after, keys[..0]) == [] && Below(path, []) == []
  {
  }

  lemma BelowHere(path: seq<Id>, before: Value, after: Value)
    ensures Below(path, [Difference([], before, after)]) == [Difference(path, before, after)]
  {
    assert path + [] == path;
  }

  lemma BelowAtKey(path: seq<Id>, before: Value, after: Value, k: Id)
    requires Has(before, k) || Has(after, k)
    ensures Below(path, AtKey(before, after, k)) ==
            if !Has(before, k) then [Difference(path + [k], Null, after.fields[k])]
            else if !Has(after, k) then [Difference(path + [k], before.fields[k], Null)]
            else Below(path + [k], Differences(before.fields[k], after.fields[k]))
  {
    hide Differences;
    if Has(before, k) && Has(after, k) { BelowUnder(path, k, Differences(before.fields[k], after.fields[k])); }
  }

  // ---------------------------------------------------------------- what each difference is

  /** What stands at the end of the path, if the path leads anywhere. */
  function At(v: Value, path: seq<Id>): Option<Value> {
    if path == [] then Some(v) else if Has(v, path[0]) then At(v.fields[path[0]], path[1..]) else None
  }

  /** An absent field counts as null. */
  function OrNull(v: Option<Value>): Value { if v.Some? then v.value else Null }

  /** The path leads through objects on both sides to the first place where they part: to two values that differ
      and are not both objects, or to a field that only one side has. */
  ghost predicate PartAt(before: Value, after: Value, d: Difference) {
    var x, y := At(before, d.path), At(after, d.path);
    && (forall n | 0 <= n < |d.path| :: BothObjects(At(before, d.path[..n]), At(after, d.path[..n])))
    && (x.Some? || y.Some?) && x != y && !BothObjects(x, y) && d.before == OrNull(x) && d.after == OrNull(y)
  }

  ghost predicate BothObjects(x: Option<Value>, y: Option<Value>) {
    x.Some? && y.Some? && x.value.Object? && y.value.Object?
  }

  lemma {:induction false} UnderMembers(k: Id, ds: seq<Difference>, d: Difference)
    ensures d in Under(k, ds) <==>
              d.path != [] && d.path[0] == k && Difference(d.path[1..], d.before, d.after) in ds
  {
    if ds != [] {
      UnderMembers(k, ds[1..], d);
      assert ([k] + ds[0].path)[1..] == ds[0].path;
      assert d.path != [] ==> d.path == [d.path[0]] + d.path[1..];
    }
  }

  lemma {:induction false} AtKeysMembers(before: Value, after: Value, keys: seq<Id>, d: Difference)
    requires forall k | k in keys :: Has(before, k) || Has(after, k)
    ensures d in AtKeys(before, after, keys) <==> exists k :: k in keys && d in AtKey(before, after, k)
    decreases |keys|
  {
    hide AtKey;
    if keys == [] {
      return;
    }
    var n := |keys| - 1;
    var last := keys[n];
    assert forall k :: k in keys <==> k in keys[..n] || k == last;
    AtKeysMembers(before, after, keys[..n], d);
    assert AtKeys(before, after, keys) == AtKeys(before, after, keys[..n]) + AtKey(before, after, last);
    if d in AtKeys(before, after, keys[..n]) {
      var k :| k in keys[..n] && d in AtKey(before, after, k);
      assert k in keys && d in AtKey(before, after, k);
    } else if d in AtKey(before, after, last) {
      assert last in keys && d in AtKey(before, after, last);
    } else {
      forall k | k in keys ensures d !in AtKey(before, after, k) { assert k in keys[..n] || k == last; }
    }
  }

  /** Below a common field the two sides part where the fields do. */
  lemma PartBelow(before: Value, after: Value, d: Difference)
    requires before.Object? && after.Object? && d.path != [] && Has(before, d.path[0]) && Has(after, d.path[0])
    ensures PartAt(before, after, d) <==> PartAt(before.fields[d.path[0]], after.fields[d.path[0]],
                                                 Difference(d.path[1..], d.before, d.after))
  {
    var k, rest := d.path[0], d.path[1..];
    forall n | 0 <= n < |rest|
      ensures At(before, d.path[..n + 1]) == At(before.fields[k], rest[..n])
      ensures At(after, d.path[..n + 1]) == At(after.fields[k], rest[..n])
    {
      assert d.path[..n + 1][0] == k && d.path[..n + 1][1..] == rest[..n];
    }
    assert At(before, d.path[..0]) == Some(before) && At(after, d.path[..0]) == Some(after);
    if PartAt(before, after, d) {
      forall n | 0 <= n < |rest| ensures BothObjects(At(before.fields[k], rest[..n]), At(after.fields[k], rest[..n])) {
        assert BothObjects(At(before, d.path[..n + 1]), At(after, d.path[..n + 1]));
      }
    }
    if PartAt(before.fields[k], after.fields[k], Difference(rest, d.before, d.after)) {
      forall n | 0 <= n < |d.path| ensures BothObjects(At(before, d.path[..n]), At(after, d.path[..n])) {
        if n > 0 { assert BothObjects(At(before.fields[k], rest[..n - 1]), At(after.fields[k], rest[..n - 1])); }
      }
    }
  }

  lemma PartOneSided(before: Value, after: Value, d: Difference)
    requires before.Object? && after.Object? && d.path != [] && !(Has(before, d.path[0]) && Has(after, d.path[0]))
    ensures PartAt(before, after, d) <==>
              && |d.path| == 1 && (Has(before, d.path[0]) || Has(after, d.path[0]))
              && d.before == Field(before, d.path[0]) && d.after == Field(after, d.path[0])
  {
    var k := d.path[0];
    if |d.path| > 1 {
      assert d.path[..1][0] == k && d.path[..1][1..] == [];
      assert !BothObjects(At(before, d.path[..1]), At(after, d.path[..1]));
    } else {
      assert d.path[1..] == [] && At(before, d.path[..0]) == Some(before) && At(after, d.path[..0]) == Some(after);
      assert At(before, d.path) == if Has(before, k) then Some(before.fields[k]) else None;
      assert At(after, d.path) == if Has(after, k) then Some(after.fields[k]) else None;
      forall n | 0 <= n < |d.path| ensures BothObjects(At(before, d.path[..n]), At(after, d.path[..n])) {
        assert d.path[..n] == [];
      }
    }
  }

  lemma PartHere(before: Value, after: Value, d: Difference)
    requires !(before.Object? && after.Object?)
    ensures PartAt(before, after, d) <==> before != after && d == Difference([], before, after)
  {
    if d.path != [] { assert d.path[..0] == [] && !BothObjects(At(before, d.path[..0]), At(after, d.path[..0])); }
  }

  lemma AtKeyMembers(before: Value, after: Value, k: Id, d: Difference)
    requires before.Object? && after.Object? && (Has(before, k) || Has(after, k))
    requires Has(before, k) && Has(after, k) ==>
               forall e :: e in Differences(before.fields[k], after.fields[k])
                           <==> PartAt(before.fields[k], after.fields[k], e)
    ensures d in AtKey(before, after, k) <==> d.path != [] && d.path[0] == k && PartAt(before, after, d)
  {
    hide Differences, PartAt;
    if Has(before, k) && Has(after, k) {
      UnderMembers(k, Differences(before.fields[k], after.fields[k]), d);
      if d.path != [] && d.path[0] == k { PartBelow(before, after, d); }
    } else if d.path != [] && d.path[0] == k {
      PartOneSided(before, after, d);
      assert |d.path| == 1 ==> d.path == [k];
    }
  }

  /** The reported differences are exactly the places where the two values part. */
  lemma {:induction false} DifferencesMean(before: Value, after: Value)
    ensures forall d :: d in Differences(before, after) <==> PartAt(before, after, d)
    decreases before
  {
    hide AtKey, AtKeys, PartAt;
    if before.Object? && after.Object? {
      var keys := UnionKeys(before, after);
      forall k | k in keys && Has(before, k) && Has(after, k)
        ensures forall e :: e in Differences(before.fields[k], after.fields[k])
                            <==> PartAt(before.fields[k], after.fields[k], e)
      {
        DifferencesMean(before.fields[k], after.fields[k]);
      }
      forall d ensures d in Differences(before, after) <==> PartAt(before, after, d) {
        AtKeysMembers(before, after, keys, d);
        forall k | k in keys ensures d in AtKey(before, after, k)
                                     <==> d.path != [] && d.path[0] == k && PartAt(before, after, d) {
          AtKeyMembers(before, after, k, d);
        }
        PartNeedsKey(before, after, d);
      }
    } else {
      forall d ensures d in Differences(before, after) <==> PartAt(before, after, d) { PartHere(before, after, d); }
    }
  }

  lemma PartNeedsKey(before: Value, after: Value, d: Difference)
    requires before.Object? && after.Object?
    ensures PartAt(before, after, d) ==> d.path != [] && (Has(before, d.path[0]) || Has(after, d.path[0]))
  {
  }

  // ---------------------------------------------------------------- their order

  /** Paths ascend, so that no place is reported twice. */
  ghost predicate InOrder(ds: seq<Difference>) {
    forall i, j | 0 <= i < j < |ds| :: IdsLeq(ds[i].path, ds[j].path) && ds[i].path != ds[j].path
  }

  lemma {:induction false} KeysAscend(s: set<Id>)
    ensures SortedBy(SortedKeys(s), IdLeq)
    decreases s
  {
    hide IdLeq, Least;
    if s != {} {
      var k := Least(s);
      KeysAscend(s - {k});
      var r := SortedKeys(s);
      assert r == [k] + SortedKeys(s - {k});
      forall i, j | 0 <= i < j < |r| ensures IdLeq(r[i], r[j]) {
        if i == 0 { assert r[j] in s; } else { assert IdLeq(r[1..][i - 1], r[1..][j - 1]); }
      }
    }
  }

  lemma {:induction false} UnderAt(k: Id, ds: seq<Difference>)
    ensures forall i | 0 <= i < |ds| :: Under(k, ds)[i].path == [k] + ds[i].path
  {
    if ds != [] { UnderAt(k, ds[1..]); }
  }

  lemma UnderInOrder(k: Id, ds: seq<Difference>)
    requires InOrder(ds)
    ensures InOrder(Under(k, ds))
  {
    hide IdLeq;
    UnderAt(k, ds);
    var us := Under(k, ds);
    forall i, j | 0 <= i < j < |us| ensures IdsLeq(us[i].path, us[j].path) && us[i].path != us[j].path {
      assert us[i].path[1..] == ds[i].path && us[j].path[1..] == ds[j].path;
    }
  }

  lemma AtKeyHeads(before: Value, after: Value, k: Id, d: Difference)
    requires (Has(before, k) || Has(after, k)) && d in AtKey(before, after, k)
    ensures d.path != [] && d.path[0] == k
  {
    hide Differences;
    if Has(before, k) && Has(after, k) { UnderMembers(k, Differences(before.fields[k], after.fields[k]), d); }
  }

  lemma LesserHeadFirst(p: seq<Id>, q: seq<Id>)
    requires p != [] && q != [] && p[0] != q[0] && IdLeq(p[0], q[0])
    ensures IdsLeq(p, q) && p != q
  {
    hide IdLeq;
  }

  lemma {:induction false} AtKeysInOrder(before: Value, after: Value, keys: seq<Id>)
    requires forall k | k in keys :: Has(before, k) || Has(after, k)
    requires SortedBy(keys, IdLeq) && Distinct(keys) && forall k | k in keys :: InOrder(AtKey(before, after, k))
    ensures InOrder(AtKeys(before, after, keys))
    decreases |keys|
  {
    hide AtKey, IdLeq, IdsLeq;
    if keys == [] {
      return;
    }
    var n := |keys| - 1;
    var last := keys[n];
    assert forall k | k in keys[..n] :: k in keys;
    AtKeysInOrder(before, after, keys[..n]);
    var xs, ys := AtKeys(before, after, keys[..n]), AtKey(before, after, last);
    var ds := AtKeys(before, after, keys);
    assert ds == xs + ys && InOrder(ys);
    forall i, j | 0 <= i < |xs| && 0 <= j < |ys| ensures IdsLeq(xs[i].path, ys[j].path) && xs[i].path != ys[j].path {
      AtKeysMembers(before, after, keys[..n], xs[i]);
      var k :| k in keys[..n] && xs[i] in AtKey(before, after, k);
      var m :| 0 <= m < n && keys[m] == k;
      AtKeyHeads(before, after, k, xs[i]);
      AtKeyHeads(before, after, last, ys[j]);
      LesserHeadFirst(xs[i].path, ys[j].path);
    }
    OrderedConcat(xs, ys);
  }

  lemma OrderedConcat(xs: seq<Difference>, ys: seq<Difference>)
    requires InOrder(xs) && InOrder(ys)
    requires forall i, j | 0 <= i < |xs| && 0 <= j < |ys| ::
               IdsLeq(xs[i].path, ys[j].path) && xs[i].path != ys[j].path
    ensures InOrder(xs + ys)
  {
    hide IdsLeq;
    var ds := xs + ys;
    forall i, j | 0 <= i < j < |ds| ensures IdsLeq(ds[i].path, ds[j].path) && ds[i].path != ds[j].path {
      if j < |xs| { assert ds[i] == xs[i] && ds[j] == xs[j]; }
      else if i < |xs| { assert ds[i] == xs[i] && ds[j] == ys[j - |xs|]; }
      else { assert ds[i] == ys[i - |xs|] && ds[j] == ys[j - |xs|]; }
    }
  }

  /** The differences are reported in ascending order of their paths, each place once. */
  lemma {:induction false} DifferencesInOrder(before: Value, after: Value)
    ensures InOrder(Differences(before, after))
    decreases before
  {
    hide AtKeys, IdsLeq, IdLeq, Differences, SortedKeys;
    if before.Object? && after.Object? {
      var keys := UnionKeys(before, after);
      KeysAscend(before.fields.Keys + after.fields.Keys);
      forall k | k in keys ensures InOrder(AtKey(before, after, k)) {
        if Has(before, k) && Has(after, k) {
          DifferencesInOrder(before.fields[k], after.fields[k]);
          UnderInOrder(k, Differences(before.fields[k], after.fields[k]));
        }
      }
      AtKeysInOrder(before, after, keys);
      AtEveryKey(before, after);
    } else {
      AtTheTop(before, after);
    }
  }

  lemma AtEveryKey(before: Value, after: Value)
    requires before.Object? && after.Object?
    ensures Differences(before, after) == AtKeys(before, after, UnionKeys(before, after))
    ensures UnionKeys(before, after) == SortedKeys(before.fields.Keys + after.fields.Keys)
  {
  }

  lemma AtTheTop(before: Value, after: Value)
    requires !(before.Object? && after.Object?)
    ensures |Differences(before, after)| <= 1
  {
  }

  /** The list of differences the recursion appends to. */
  class DifferenceList {
    var items: seq<Difference>

    constructor ()
      ensures items == []
    {
      items := [];
    }

    method Compare(path: seq<Id>, before: Value, after: Value)
      modifies this
      ensures items == old(items) + Below(path, Differences(before, after))
      decreases before
    {
      hide AtKeys, AtKey, Below, SortedKeys;
      if before.Object? && after.Object? {
        var keys := UnionKeys(before, after);
        assert AtKeys(before, after, keys[..0]) == []
               && Below(path, []) == [] by { NothingYet(path, before, after, keys); }
        for i := 0 to |keys|
          invariant items == old(items) + Below(path, AtKeys(before, after, keys[..i]))
        {
          var k := keys[i];
          AtKeysStep(before, after, keys, i);
          BelowAtKey(path, before, after, k);
          BelowConcat(path, AtKeys(before, after, keys[..i]), AtKey(before, after, k));
          if !Has(before, k) {
            items := items + [Difference(path + [k], Null, after.fields[k])];
          } else if !Has(after, k) {
            items := items + [Difference(path + [k], before.fields[k], Null)];
          } else {
            Compare(path + [k], before.fields[k], after.fields[k]);
          }
        }
        assert keys[..|keys|] == keys;
      } else if before != after {
        assert Below(path, [Difference([], before, after)]) == [Difference(path, before, after)] by
          { BelowHere(path, before, after); }
        items := items + [Difference(path, before, after)];
      }
    }
  }
}
