// JSON values as the daemon compares them: an object is a list of distinct keys
// whose order carries no meaning. Canonical sorts the keys at every depth.
module CanonicalJson {
  import opened Basics

  datatype Json =
    | Null
    | Bool(b: bool)
    | Number(literal: string)
    | String(s: string)
    | Array(elements: seq<Json>)
    | Object(fields: seq<Field>)

  datatype Field = Field(key: string, value: Json)

  predicate HasKey(fields: seq<Field>, key: string) {
    fields != [] && (fields[0].key == key || HasKey(fields[1..], key))
  }

  // object[key]
  function Get(fields: seq<Field>, key: string): Json
    requires HasKey(fields, key)
  {
    if fields[0].key == key then fields[0].value else Get(fields[1..], key)
  }

  ghost predicate DistinctKeys(fields: seq<Field>) {
    fields != [] ==> !HasKey(fields[1..], fields[0].key) && DistinctKeys(fields[1..])
  }

  // What the JSON parser guarantees: no object repeats a key.
  ghost predicate WellFormed(v: Json) {
    match v
    case Array(es) => forall i | 0 <= i < |es| :: WellFormed(es[i])
    case Object(fs) => DistinctKeys(fs) && forall i | 0 <= i < |fs| :: WellFormed(fs[i].value)
    case _ => true
  }

  lemma GetIsAField(fields: seq<Field>, key: string) returns (i: nat)
    requires HasKey(fields, key)
    ensures i < |fields| && fields[i] == Field(key, Get(fields, key))
  {
    if fields[0].key == key { return 0; }
    i := GetIsAField(fields[1..], key);
    i := i + 1;
  }

  lemma {:induction false} GetIs(fields: seq<Field>, i: nat)
    requires DistinctKeys(fields) && i < |fields|
    ensures HasKey(fields, fields[i].key) && Get(fields, fields[i].key) == fields[i].value
  {
    if i > 0 {
      assert fields[1..][i - 1] == fields[i];
      GetIs(fields[1..], i - 1);
    }
  }

  ghost predicate SortedByKey(fields: seq<Field>) {
    fields != [] ==> SortedByKey(fields[1..]) && forall k | HasKey(fields[1..], k) :: Less(fields[0].key, k)
  }

  // Insertion into a key-sorted field list.
  function Insert(f: Field, fields: seq<Field>): seq<Field> {
    if fields == [] then [f]
    else if Less(f.key, fields[0].key) then [f] + fields
    else [fields[0]] + Insert(f, fields[1..])
  }

  lemma {:induction false} InsertLookup(f: Field, fields: seq<Field>, k: string)
    requires !HasKey(fields, f.key)
    ensures |Insert(f, fields)| == |fields| + 1
    ensures HasKey(Insert(f, fields), k) <==> k == f.key || HasKey(fields, k)
    ensures HasKey(Insert(f, fields), k) ==> Get(Insert(f, fields), k) == if k == f.key then f.value else Get(fields, k)
  {
    if fields == [] { return; }
    assert ([f] + fields)[1..] == fields;
    assert ([fields[0]] + Insert(f, fields[1..]))[1..] == Insert(f, fields[1..]);
    InsertLookup(f, fields[1..], k);
  }

  lemma {:induction false} InsertSorted(f: Field, fields: seq<Field>)
    requires SortedByKey(fields) && !HasKey(fields, f.key)
    ensures SortedByKey(Insert(f, fields))
  {
    if fields == [] { return; }
    if Less(f.key, fields[0].key) {
      assert ([f] + fields)[1..] == fields;
      forall k | HasKey(fields, k) ensures Less(f.key, k) {
        if k != fields[0].key { LessTransitive(f.key, fields[0].key, k); }
      }
    } else {
      var rest := Insert(f, fields[1..]);
      assert ([fields[0]] + rest)[1..] == rest;
      InsertSorted(f, fields[1..]);
      LessTotal(f.key, fields[0].key);
      forall k | HasKey(rest, k) ensures Less(fields[0].key, k) {
        InsertLookup(f, fields[1..], k);
      }
    }
  }

  function Canonical(v: Json): Json {
    match v
    case Array(es) => Array(CanonicalElements(es))
    case Object(fs) => Object(CanonicalFields(fs))
    case _ => v
  }

  function CanonicalElements(es: seq<Json>): (r: seq<Json>)
    ensures |r| == |es|
    ensures forall i | 0 <= i < |es| :: r[i] == Canonical(es[i])
  {
    if es == [] then [] else [Canonical(es[0])] + CanonicalElements(es[1..])
  }

  function CanonicalFields(fs: seq<Field>): seq<Field> {
    if fs == [] then [] else Insert(Field(fs[0].key, Canonical(fs[0].value)), CanonicalFields(fs[1..]))
  }

  // The fields of a canonical object are those of the original, each value made canonical.
  lemma {:induction false} CanonicalLookup(fs: seq<Field>, k: string)
    requires DistinctKeys(fs)
    ensures |CanonicalFields(fs)| == |fs|
    ensures HasKey(CanonicalFields(fs), k) <==> HasKey(fs, k)
    ensures HasKey(fs, k) ==> Get(CanonicalFields(fs), k) == Canonical(Get(fs, k))
  {
    if fs == [] { return; }
    CanonicalLookup(fs[1..], k);
    CanonicalLookup(fs[1..], fs[0].key);
    InsertLookup(Field(fs[0].key, Canonical(fs[0].value)), CanonicalFields(fs[1..]), k);
  }

  // They stand in increasing key order.
  lemma {:induction false} CanonicalSorted(fs: seq<Field>)
    requires DistinctKeys(fs)
    ensures SortedByKey(CanonicalFields(fs))
    ensures forall k :: HasKey(CanonicalFields(fs), k) <==> HasKey(fs, k)
    ensures forall k | HasKey(fs, k) && HasKey(CanonicalFields(fs), k) ::
      Get(CanonicalFields(fs), k) == Canonical(Get(fs, k))
  {
    forall k
      ensures HasKey(CanonicalFields(fs), k) <==> HasKey(fs, k)
      ensures HasKey(fs, k) ==> Get(CanonicalFields(fs), k) == Canonical(Get(fs, k))
    {
      CanonicalLookup(fs, k);
    }
    if fs == [] { return; }
    CanonicalSorted(fs[1..]);
    InsertSorted(Field(fs[0].key, Canonical(fs[0].value)), CanonicalFields(fs[1..]));
  }

  lemma {:induction false} SortedDistinct(fs: seq<Field>)
    requires SortedByKey(fs)
    ensures DistinctKeys(fs)
  {
    if fs != [] {
      LessIrreflexive(fs[0].key);
      SortedDistinct(fs[1..]);
    }
  }

  // A key-sorted list is determined by what its keys map to.
  lemma {:induction false} SortedUnique(a: seq<Field>, b: seq<Field>)
    requires SortedByKey(a) && SortedByKey(b)
    requires forall k :: HasKey(a, k) <==> HasKey(b, k)
    requires forall k | HasKey(a, k) :: Get(a, k) == Get(b, k)
    ensures a == b
  {
    if a == [] || b == [] {
      if b != [] { assert HasKey(b, b[0].key); }
      if a != [] { assert HasKey(a, a[0].key); }
      return;
    }
    var ka, kb := a[0].key, b[0].key;
    assert HasKey(a, ka) && HasKey(b, kb) && HasKey(b, ka) && HasKey(a, kb);
    if ka != kb {
      assert Less(ka, kb) && Less(kb, ka);
      LessTransitive(ka, kb, ka);
      LessIrreflexive(ka);
      assert false;
    }
    LessIrreflexive(ka);
    assert Get(a, ka) == Get(b, ka);
    forall k ensures HasKey(a[1..], k) <==> HasKey(b[1..], k) {
      assert HasKey(a, k) <==> HasKey(b, k);
    }
    forall k | HasKey(a[1..], k) ensures Get(a[1..], k) == Get(b[1..], k) {
      assert HasKey(a, k) && HasKey(b[1..], k);
    }
    SortedUnique(a[1..], b[1..]);
    assert a == [a[0]] + a[1..] && b == [b[0]] + b[1..];
  }

  // The relation the canonical form decides: equal up to the order of object keys, at any depth.
  ghost predicate SameUpToKeyOrder(a: Json, b: Json)
    decreases a
  {
    match a
    case Array(es) =>
      b.Array? && |es| == |b.elements| && forall i | 0 <= i < |es| :: SameUpToKeyOrder(es[i], b.elements[i])
    case Object(fs) =>
      && b.Object?
      && (forall k :: HasKey(fs, k) <==> HasKey(b.fields, k))
      && (forall i | 0 <= i < |fs| && HasKey(b.fields, fs[i].key) ::
        SameUpToKeyOrder(fs[i].value, Get(b.fields, fs[i].key)))
    case _ => a == b
  }

  // Completeness and soundness of the normal form.
  lemma {:induction false} CanonicalDecides(a: Json, b: Json)
    requires WellFormed(a) && WellFormed(b)
    ensures Canonical(a) == Canonical(b) <==> SameUpToKeyOrder(a, b)
    decreases a
  {
    match a
    case Array(es) =>
      if b.Array? && |es| == |b.elements| {
        forall i | 0 <= i < |es|
          ensures Canonical(es[i]) == Canonical(b.elements[i]) <==> SameUpToKeyOrder(es[i], b.elements[i])
        {
          CanonicalDecides(es[i], b.elements[i]);
        }
        if SameUpToKeyOrder(a, b) {
          assert CanonicalElements(es) == CanonicalElements(b.elements);
        }
        if Canonical(a) == Canonical(b) {
          forall i | 0 <= i < |es| ensures SameUpToKeyOrder(es[i], b.elements[i]) {
            assert CanonicalElements(es)[i] == CanonicalElements(b.elements)[i];
          }
        }
      }
    case Object(fs) =>
      if b.Object? { ObjectDecides(a, b); }
    case _ =>
  }

  lemma {:induction false} ObjectDecides(a: Json, b: Json)
    requires a.Object? && b.Object? && WellFormed(a) && WellFormed(b)
    ensures Canonical(a) == Canonical(b) <==> SameUpToKeyOrder(a, b)
    decreases a, 0
  {
    var fs, gs := a.fields, b.fields;
    var cf, cg := CanonicalFields(fs), CanonicalFields(gs);
    CanonicalSorted(fs);
    CanonicalSorted(gs);
    forall i | 0 <= i < |fs| && HasKey(gs, fs[i].key)
      ensures HasKey(cf, fs[i].key) && HasKey(cg, fs[i].key)
      ensures Get(cf, fs[i].key) == Get(cg, fs[i].key) <==> SameUpToKeyOrder(fs[i].value, Get(gs, fs[i].key))
    {
      GetIs(fs, i);
      var j := GetIsAField(gs, fs[i].key);
      CanonicalDecides(fs[i].value, Get(gs, fs[i].key));
    }
    if SameUpToKeyOrder(a, b) {
      forall k | HasKey(cf, k) ensures Get(cf, k) == Get(cg, k) {
        var i := GetIsAField(fs, k);
      }
      SortedUnique(cf, cg);
    }
  }

  // The canonical form keeps the value's meaning.
  lemma {:induction false} CanonicalIsSame(v: Json)
    requires WellFormed(v)
    ensures WellFormed(Canonical(v)) && SameUpToKeyOrder(Canonical(v), v)
  {
    match v
    case Array(es) =>
      forall i | 0 <= i < |es| ensures WellFormed(Canonical(es[i])) && SameUpToKeyOrder(Canonical(es[i]), es[i]) {
        CanonicalIsSame(es[i]);
      }
    case Object(fs) =>
      var r := CanonicalFields(fs);
      CanonicalSorted(fs);
      SortedDistinct(r);
      forall i | 0 <= i < |r|
        ensures HasKey(fs, r[i].key) && WellFormed(r[i].value) && SameUpToKeyOrder(r[i].value, Get(fs, r[i].key))
      {
        GetIs(r, i);
        var j := GetIsAField(fs, r[i].key);
        CanonicalIsSame(Get(fs, r[i].key));
      }
    case _ =>
  }

  // Canonicalising twice is canonicalising once.
  lemma CanonicalIdempotent(v: Json)
    requires WellFormed(v)
    ensures Canonical(Canonical(v)) == Canonical(v)
  {
    CanonicalIsSame(v);
    CanonicalDecides(Canonical(v), v);
  }
}
