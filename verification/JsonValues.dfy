/** JSON values as the pipeline holds them, and what they mean: an object is
    its key-to-value map, so the order in which keys were inserted says nothing. */
module JsonValues {
  import opened Text

  /** A finite float is carried as the token that prints it. */
  datatype Json =
    | Null
    | Bool(b: bool)
    | Int(i: int)
    | Float(token: string)
    | Str(text: string)
    | Arr(items: seq<Json>)
    | Obj(fields: seq<Field>)

  datatype Field = Field(key: string, value: Json)

  predicate DistinctKeys(fields: seq<Field>) {
    forall i, j :: 0 <= i < j < |fields| ==> fields[i].key != fields[j].key
  }

  /** Every object has distinct keys, as a dict does. */
  predicate Proper(v: Json)
    decreases v
  {
    match v
    case Arr(items) => forall i :: 0 <= i < |items| ==> Proper(items[i])
    case Obj(fields) =>
      DistinctKeys(fields) && forall i :: 0 <= i < |fields| ==> Proper(fields[i].value)
    case _ => true
  }

  // -------------------------------------------------------------- nesting

  /** Scalars and empty containers have height 0. */
  function Height(v: Json): (h: nat)
    decreases v, 1
  {
    match v
    case Arr(items) => 1 + ItemsHeight(items)
    case Obj(fields) => 1 + FieldsHeight(fields)
    case _ => 0
  }

  /** One less than the height of the list, so -1 when there is nothing in it. */
  function ItemsHeight(items: seq<Json>): (h: int)
    ensures h >= -1
    decreases items, 0
  {
    if items == [] then -1 else Max(Height(items[0]), ItemsHeight(items[1..]))
  }

  function FieldsHeight(fields: seq<Field>): (h: int)
    ensures h >= -1
    decreases fields, 0
  {
    if fields == [] then -1 else Max(Height(fields[0].value), FieldsHeight(fields[1..]))
  }

  function Max(a: int, b: int): int { if a < b then b else a }

  lemma {:induction false} ItemsHeightBound(items: seq<Json>, bound: int)
    requires bound >= -1
    ensures ItemsHeight(items) <= bound <==> forall i :: 0 <= i < |items| ==> Height(items[i]) <= bound
  {
    if items != [] {
      ItemsHeightBound(items[1..], bound);
      assert items == [items[0]] + items[1..];
    }
  }

  lemma {:induction false} FieldsHeightBound(fields: seq<Field>, bound: int)
    requires bound >= -1
    ensures FieldsHeight(fields) <= bound <==> forall i :: 0 <= i < |fields| ==> Height(fields[i].value) <= bound
  {
    if fields != [] {
      FieldsHeightBound(fields[1..], bound);
      assert fields == [fields[0]] + fields[1..];
    }
  }

  // -------------------------------------------------------------- meaning

  datatype Meaning =
    | Scalar(scalar: Json)
    | Array(elements: seq<Meaning>)
    | Object(entries: map<string, Meaning>)

  function Denote(v: Json): Meaning
    decreases v, 1
  {
    match v
    case Arr(items) => Array(DenoteItems(items))
    case Obj(fields) => Object(DenoteFields(fields))
    case _ => Scalar(v)
  }

  function DenoteItems(items: seq<Json>): (ms: seq<Meaning>)
    ensures |ms| == |items|
    ensures forall i :: 0 <= i < |items| ==> ms[i] == Denote(items[i])
    decreases items, 0
  {
    if items == [] then [] else [Denote(items[0])] + DenoteItems(items[1..])
  }

  function DenoteFields(fields: seq<Field>): (m: map<string, Meaning>)
    ensures forall k :: k in m <==> exists i :: 0 <= i < |fields| && fields[i].key == k
    ensures DistinctKeys(fields) ==>
              forall i :: 0 <= i < |fields| ==> m[fields[i].key] == Denote(fields[i].value)
    decreases fields, 0
  {
    if fields == [] then map[]
    else
      var rest := DenoteFields(fields[1..]);
      assert fields == [fields[0]] + fields[1..];
      rest[fields[0].key := Denote(fields[0].value)]
  }
}
