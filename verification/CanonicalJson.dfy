/** Canonical form and canonical bytes (security/payloads.py): what the encoder
    writes with sort_keys, and why equal bytes mean equal requests. */
module CanonicalJson {
  import opened Options
  import opened Text
  import opened JsonValues
  import opened JsonText
  import Sorting

  predicate KeyLeq(a: Field, b: Field) { Leq(a.key, b.key) }

  lemma KeyLeqRanks()
    ensures Sorting.Ranking(KeyLeq)
  {
    LeqIsTotalOrder();
  }

  /** The value with every object's members in key order. */
  function Canonical(v: Json): Json
    decreases v, 1
  {
    match v
    case Arr(items) => Arr(CanonicalItems(items))
    case Obj(fields) => Obj(Sorting.Sort(KeyLeq, CanonicalFields(fields)))
    case _ => v
  }

  function CanonicalItems(items: seq<Json>): (r: seq<Json>)
    ensures |r| == |items|
    ensures forall i :: 0 <= i < |r| ==> r[i] == Canonical(items[i])
    decreases items, 0
  {
    if items == [] then [] else [Canonical(items[0])] + CanonicalItems(items[1..])
  }

  function CanonicalFields(fields: seq<Field>): (r: seq<Field>)
    ensures |r| == |fields|
    ensures forall i :: 0 <= i < |r| ==> r[i] == Field(fields[i].key, Canonical(fields[i].value))
    decreases fields, 0
  {
    if fields == [] then []
    else [Field(fields[0].key, Canonical(fields[0].value))] + CanonicalFields(fields[1..])
  }

  /** json.dumps(value, sort_keys=True) */
  function CanonicalText(v: Json): string { Print(Canonical(v)) }

  /** The bytes that are hashed and measured. */
  function CanonicalBytes(v: Json): seq<Byte> { Encode(CanonicalText(v)) }

  // ------------------------------------------- sorting members loses nothing

  lemma SortedMembers(fields: seq<Field>)
    ensures var r := Sorting.Sort(KeyLeq, fields);
            && Sorting.SortedBy(KeyLeq, r)
            && (forall f :: f in r <==> f in fields)
            && (DistinctKeys(fields) ==> DistinctKeys(r))
  {
    var r := Sorting.Sort(KeyLeq, fields);
    KeyLeqRanks();
    Sorting.SortSorts(KeyLeq, fields);
    Sorting.SortKeepsElements(KeyLeq, fields);
    forall f ensures f in r <==> f in fields {
      assert f in r <==> f in multiset(r);
      assert f in fields <==> f in multiset(fields);
    }
    if DistinctKeys(fields) { SameElementsSameKeys(fields, r); }
  }

  /** A reordering of members with distinct keys has distinct keys. */
  lemma SameElementsSameKeys(fields: seq<Field>, r: seq<Field>)
    requires DistinctKeys(fields) && multiset(r) == multiset(fields)
    ensures DistinctKeys(r)
  {
    forall i, j | 0 <= i < j < |r| ensures r[i].key != r[j].key {
      assert r[i] in multiset(fields) && r[j] in multiset(fields);
      if r[i] == r[j] {
        TwiceIn(r, i, j);
        var a :| 0 <= a < |fields| && fields[a] == r[i];
        OnceIn(fields, a);
      }
    }
  }

  lemma TwiceIn<T>(xs: seq<T>, i: nat, j: nat)
    requires i < j < |xs| && xs[i] == xs[j]
    ensures multiset(xs)[xs[i]] >= 2
  {
    assert xs == xs[..i] + [xs[i]] + xs[i + 1..j] + [xs[j]] + xs[j + 1..];
  }

  lemma OnceIn(fields: seq<Field>, a: nat)
    requires DistinctKeys(fields) && a < |fields|
    ensures multiset(fields)[fields[a]] == 1
  {
    assert fields == fields[..a] + [fields[a]] + fields[a + 1..];
    assert fields[a] !in fields[..a] && fields[a] !in fields[a + 1..];
  }

  /** Canonicalising keeps the meaning. */
  lemma {:induction false} CanonicalKeepsMeaning(v: Json)
    requires Proper(v)
    ensures Proper(Canonical(v)) && Denote(Canonical(v)) == Denote(v)
    decreases v
  {
    match v
    case Arr(items) =>
      forall i | 0 <= i < |items|
        ensures Proper(Canonical(items[i])) && Denote(Canonical(items[i])) == Denote(items[i])
      {
        CanonicalKeepsMeaning(items[i]);
      }
      assert DenoteItems(CanonicalItems(items)) == DenoteItems(items);
    case Obj(fields) =>
      var mapped := CanonicalFields(fields);
      forall i | 0 <= i < |fields|
        ensures Proper(mapped[i].value) && Denote(mapped[i].value) == Denote(fields[i].value)
      {
        CanonicalKeepsMeaning(fields[i].value);
      }
      SortingKeepsMeaning(mapped);
      SamePointwiseMeaning(mapped, fields);
    case _ =>
  }

  /** In every object the keys ascend in the order of their characters. */
  predicate KeysAscend(v: Json)
    decreases v
  {
    match v
    case Arr(items) => forall i :: 0 <= i < |items| ==> KeysAscend(items[i])
    case Obj(fields) =>
      && (forall i :: 0 <= i < |fields| ==> KeysAscend(fields[i].value))
      && forall i, j :: 0 <= i < j < |fields| ==> Leq(fields[i].key, fields[j].key) && fields[i].key != fields[j].key
    case _ => true
  }

  /** Canonicalising sorts every object's keys: with Text.LeqExactly, a key comes
      before the keys it is a prefix of, and otherwise the first difference decides. */
  lemma {:induction false} CanonicalKeysAscend(v: Json)
    requires Proper(v)
    ensures KeysAscend(Canonical(v))
    decreases v
  {
    match v
    case Arr(items) =>
      forall i | 0 <= i < |items| ensures KeysAscend(Canonical(items[i])) {
        CanonicalKeysAscend(items[i]);
      }
    case Obj(fields) =>
      var mapped := CanonicalFields(fields);
      forall i | 0 <= i < |fields| ensures KeysAscend(mapped[i].value) {
        CanonicalKeysAscend(fields[i].value);
      }
      SortedMembersAscend(mapped);
    case _ =>
  }

  lemma SortedMembersAscend(fields: seq<Field>)
    requires DistinctKeys(fields) && forall i :: 0 <= i < |fields| ==> KeysAscend(fields[i].value)
    ensures KeysAscend(Obj(Sorting.Sort(KeyLeq, fields)))
  {
    var r := Sorting.Sort(KeyLeq, fields);
    SortedMembers(fields);
    forall i | 0 <= i < |r| ensures KeysAscend(r[i].value) {
      assert r[i] in fields;
    }
    forall i, j | 0 <= i < j < |r| ensures Leq(r[i].key, r[j].key) && r[i].key != r[j].key {
      assert KeyLeq(r[i], r[j]);
    }
  }

  lemma SortingKeepsMeaning(fields: seq<Field>)
    requires DistinctKeys(fields) && forall i :: 0 <= i < |fields| ==> Proper(fields[i].value)
    ensures var r := Sorting.Sort(KeyLeq, fields);
            Proper(Obj(r)) && DenoteFields(r) == DenoteFields(fields)
  {
    var r := Sorting.Sort(KeyLeq, fields);
    SortedMembers(fields);
    SameMembersSameMeaning(r, fields);
    forall i | 0 <= i < |r| ensures Proper(r[i].value) {
      assert r[i] in fields;
    }
  }

  lemma SameMembersSameMeaning(r: seq<Field>, fields: seq<Field>)
    requires DistinctKeys(r) && DistinctKeys(fields) && forall f :: f in r <==> f in fields
    ensures DenoteFields(r) == DenoteFields(fields)
  {
    var m, n := DenoteFields(r), DenoteFields(fields);
    forall k | k in m ensures k in n && n[k] == m[k] {
      var i :| 0 <= i < |r| && r[i].key == k;
      assert r[i] in fields;
    }
    forall k | k in n ensures k in m {
      var i :| 0 <= i < |fields| && fields[i].key == k;
      assert fields[i] in r;
    }
  }

  lemma SamePointwiseMeaning(a: seq<Field>, b: seq<Field>)
    requires |a| == |b| && DistinctKeys(a) && DistinctKeys(b)
    requires forall i :: 0 <= i < |a| ==> a[i].key == b[i].key && Denote(a[i].value) == Denote(b[i].value)
    ensures DenoteFields(a) == DenoteFields(b)
  {
    var m, n := DenoteFields(a), DenoteFields(b);
    forall k ensures k in m <==> k in n {
      if k in m { var i :| 0 <= i < |a| && a[i].key == k; assert b[i].key == k; }
      if k in n { var i :| 0 <= i < |b| && b[i].key == k; assert a[i].key == k; }
    }
    forall k | k in m ensures m[k] == n[k] {
      var i :| 0 <= i < |a| && a[i].key == k;
    }
  }

  // ----------------------------------------------- one form for one meaning

  /** Member lists in strict key order that hold the same members are equal. */
  lemma {:induction false} SortedMembersAgree(xs: seq<Field>, ys: seq<Field>)
    requires Sorting.SortedBy(KeyLeq, xs) && Sorting.SortedBy(KeyLeq, ys)
    requires DistinctKeys(xs) && DistinctKeys(ys) && forall f :: f in xs <==> f in ys
    ensures xs == ys
  {
    assert xs != [] ==> xs[0] in xs;
    assert ys != [] ==> ys[0] in ys;
    if xs != [] {
      LeqAntisymmetricHeads(xs, ys);
      forall f ensures f in xs[1..] <==> f in ys[1..] {
        assert f in xs <==> f == xs[0] || f in xs[1..];
        assert f in ys <==> f == ys[0] || f in ys[1..];
      }
      SortedMembersAgree(xs[1..], ys[1..]);
    }
  }

  lemma LeqAntisymmetricHeads(xs: seq<Field>, ys: seq<Field>)
    requires xs != [] && ys != [] && xs[0] in ys && ys[0] in xs
    requires Sorting.SortedBy(KeyLeq, xs) && Sorting.SortedBy(KeyLeq, ys) && DistinctKeys(ys)
    ensures xs[0] == ys[0]
  {
    LeqIsTotalOrder();
    var i :| 0 <= i < |ys| && ys[i] == xs[0];
    var j :| 0 <= j < |xs| && xs[j] == ys[0];
    assert Leq(ys[0].key, xs[0].key) && Leq(xs[0].key, ys[0].key);
  }

  lemma {:induction false} CanonicalUnique(a: Json, b: Json)
    requires Proper(a) && Proper(b) && Denote(a) == Denote(b)
    ensures Canonical(a) == Canonical(b)
    decreases a
  {
    match a
    case Arr(items) =>
      forall i | 0 <= i < |items| ensures Canonical(items[i]) == Canonical(b.items[i]) {
        assert Denote(items[i]) == DenoteItems(items)[i] == DenoteItems(b.items)[i];
        CanonicalUnique(items[i], b.items[i]);
      }
      assert CanonicalItems(items) == CanonicalItems(b.items);
    case Obj(fields) =>
      var xs, ys := CanonicalFields(fields), CanonicalFields(b.fields);
      forall i, j | 0 <= i < |fields| && 0 <= j < |b.fields| && fields[i].key == b.fields[j].key
        ensures xs[i] == ys[j]
      {
        CanonicalUnique(fields[i].value, b.fields[j].value);
      }
      MembersCorrespond(fields, b.fields, xs, ys);
      SortedMembers(xs);
      SortedMembers(ys);
      SortedMembersAgree(Sorting.Sort(KeyLeq, xs), Sorting.Sort(KeyLeq, ys));
    case _ =>
  }

  lemma MembersCorrespond(a: seq<Field>, b: seq<Field>, xs: seq<Field>, ys: seq<Field>)
    requires |xs| == |a| && |ys| == |b| && DenoteFields(a) == DenoteFields(b)
    requires forall i, j :: 0 <= i < |a| && 0 <= j < |b| && a[i].key == b[j].key ==> xs[i] == ys[j]
    ensures forall f :: f in xs <==> f in ys
  {
    forall f | f in xs ensures f in ys {
      var i :| 0 <= i < |xs| && xs[i] == f;
      assert a[i].key in DenoteFields(b);
      var j :| 0 <= j < |b| && b[j].key == a[i].key;
      assert ys[j] == f;
    }
    forall f | f in ys ensures f in xs {
      var j :| 0 <= j < |ys| && ys[j] == f;
      assert b[j].key in DenoteFields(a);
      var i :| 0 <= i < |a| && a[i].key == b[j].key;
      assert xs[i] == f;
    }
  }

  lemma {:induction false} CanonicalPrintable(v: Json)
    requires Printable(v)
    ensures Printable(Canonical(v))
    decreases v
  {
    match v
    case Arr(items) =>
      forall i | 0 <= i < |items| ensures Printable(Canonical(items[i])) { CanonicalPrintable(items[i]); }
    case Obj(fields) =>
      var mapped := CanonicalFields(fields);
      var sorted := Sorting.Sort(KeyLeq, mapped);
      forall i | 0 <= i < |fields| ensures Printable(mapped[i].value) { CanonicalPrintable(fields[i].value); }
      SortedMembers(mapped);
      forall i | 0 <= i < |sorted| ensures Printable(sorted[i].value) {
        assert sorted[i] in mapped;
      }
    case _ =>
  }

  // ---------------------------------------------------------- main results

  /** Parsing the canonical text yields the canonical value, and so the meaning. */
  lemma CanonicalRoundTrip(v: Json)
    requires Proper(v) && Printable(v)
    ensures Parse(CanonicalText(v)) == Some(Canonical(v))
    ensures Denote(Parse(CanonicalText(v)).value) == Denote(v)
  {
    CanonicalPrintable(v);
    PrintParse(Canonical(v));
    CanonicalKeepsMeaning(v);
  }

  /** Equal bytes exactly when equal up to the order of object keys. */
  lemma SameBytesSameMeaning(a: Json, b: Json)
    requires Proper(a) && Printable(a) && Proper(b) && Printable(b)
    ensures CanonicalBytes(a) == CanonicalBytes(b) <==> Denote(a) == Denote(b)
  {
    if Denote(a) == Denote(b) { CanonicalUnique(a, b); }
    if CanonicalBytes(a) == CanonicalBytes(b) {
      EncodeInjective(CanonicalText(a), CanonicalText(b));
      CanonicalRoundTrip(a);
      CanonicalRoundTrip(b);
    }
  }
}
