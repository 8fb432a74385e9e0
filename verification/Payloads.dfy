/** Payload admission (security/payloads.py): which Python values become
    canonical payloads, and within which limits. */
module Payloads {
  import opened Options
  import opened Text
  import opened JsonValues
  import JsonText
  import CanonicalJson

  /** A Python value as it reaches the boundary. A str that holds a lone
      surrogate has no UTF-8 encoding, so only its length is kept. */
  datatype PyValue =
    | PNone
    | PBool(b: bool)
    | PInt(i: int)
    | PFloat(token: string)
    | PNonFinite
    | PStr(text: string)
    | PUnencodable(length: nat)
    | PMapping(entries: seq<Entry>)
    | PSequence(items: seq<PyValue>)
    | PForeign

  datatype Entry = Entry(key: PyKey, value: PyValue)

  datatype PyKey = TextKey(text: string) | UnencodableKey(length: nat) | ForeignKey

  datatype Limits = Limits(maxBytes: nat, maxDepth: nat, maxStringLength: nat)

  datatype PayloadError = TooLarge | TooDeep | StringTooLong | NotJson

  datatype Result<+T> = Ok(value: T) | Err(error: PayloadError)

  datatype CanonicalPayload = CanonicalPayload(value: Json, encoded: seq<Byte>)

  /** sys.int_info.default_max_str_digits: longer integers have no str(). */
  const INT_MAX_STR_DIGITS := 4300

  /** What Python guarantees of its values: a mapping does not repeat a key and
      the repr of a finite float is a float token. */
  predicate Genuine(v: PyValue)
    decreases v
  {
    match v
    case PFloat(token) => JsonText.FloatToken(token)
    case PSequence(items) => forall i :: 0 <= i < |items| ==> Genuine(items[i])
    case PMapping(entries) =>
      && (forall i, j :: 0 <= i < j < |entries| ==> entries[i].key != entries[j].key || !entries[i].key.TextKey?)
      && (forall i :: 0 <= i < |entries| ==> Genuine(entries[i].value))
    case _ => true
  }

  predicate JsonCompatible(v: PyValue)
    decreases v
  {
    match v
    case PNonFinite => false
    case PUnencodable(_) => false
    case PForeign => false
    case PSequence(items) => forall i :: 0 <= i < |items| ==> JsonCompatible(items[i])
    case PMapping(entries) =>
      forall i :: 0 <= i < |entries| ==> entries[i].key.TextKey? && JsonCompatible(entries[i].value)
    case _ => true
  }

  /** The JSON value a compatible Python value stands for. */
  function Erase(v: PyValue): Json
    requires JsonCompatible(v)
    decreases v, 1
  {
    match v
    case PNone => Null
    case PBool(b) => Bool(b)
    case PInt(i) => Int(i)
    case PFloat(token) => Float(token)
    case PStr(text) => Str(text)
    case PSequence(items) => Arr(EraseItems(items))
    case PMapping(entries) => Obj(EraseEntries(entries))
  }

  function EraseItems(items: seq<PyValue>): (r: seq<Json>)
    requires forall i :: 0 <= i < |items| ==> JsonCompatible(items[i])
    ensures |r| == |items| && forall i :: 0 <= i < |r| ==> r[i] == Erase(items[i])
    decreases items, 0
  {
    if items == [] then [] else [Erase(items[0])] + EraseItems(items[1..])
  }

  function EraseEntries(entries: seq<Entry>): (r: seq<Field>)
    requires forall i :: 0 <= i < |entries| ==> entries[i].key.TextKey? && JsonCompatible(entries[i].value)
    ensures |r| == |entries|
    ensures forall i :: 0 <= i < |r| ==> r[i] == EraseEntry(entries[i])
    decreases entries, 0
  {
    if entries == [] then [] else [EraseEntry(entries[0])] + EraseEntries(entries[1..])
  }

  function EraseEntry(entry: Entry): Field
    requires entry.key.TextKey? && JsonCompatible(entry.value)
    decreases entry, 2
  {
    Field(entry.key.text, Erase(entry.value))
  }

  predicate TextsWithin(v: Json, limit: nat)
    decreases v
  {
    match v
    case Str(text) => |text| <= limit
    case Arr(items) => forall i :: 0 <= i < |items| ==> TextsWithin(items[i], limit)
    case Obj(fields) =>
      forall i :: 0 <= i < |fields| ==> |fields[i].key| <= limit && TextsWithin(fields[i].value, limit)
    case _ => true
  }

  /** The text stands in the value, as a key or as a string. */
  ghost predicate Contains(v: Json, text: string)
    decreases v
  {
    match v
    case Str(t) => t == text
    case Arr(items) => exists i :: 0 <= i < |items| && Contains(items[i], text)
    case Obj(fields) => exists i :: 0 <= i < |fields| && (fields[i].key == text || Contains(fields[i].value, text))
    case _ => false
  }

  /** The limit on texts is one on every key and every string. */
  lemma {:induction false} TextsWithinExactly(v: Json, limit: nat)
    ensures TextsWithin(v, limit) <==> forall text :: Contains(v, text) ==> |text| <= limit
    decreases v
  {
    match v
    case Str(t) => assert Contains(v, t);
    case Arr(items) =>
      forall i | 0 <= i < |items|
        ensures TextsWithin(items[i], limit) <==> forall text :: Contains(items[i], text) ==> |text| <= limit
        ensures forall text :: Contains(items[i], text) ==> Contains(v, text)
      {
        TextsWithinExactly(items[i], limit);
      }
    case Obj(fields) =>
      forall i | 0 <= i < |fields|
        ensures TextsWithin(fields[i].value, limit)
          <==> forall text :: Contains(fields[i].value, text) ==> |text| <= limit
        ensures forall text :: Contains(fields[i].value, text) ==> Contains(v, text)
        ensures Contains(v, fields[i].key)
      {
        TextsWithinExactly(fields[i].value, limit);
      }
    case _ =>
  }

  /** Every integer is short enough for int.__repr__. */
  predicate NumeralsWithin(v: Json)
    decreases v
  {
    match v
    case Int(i) => |Decimal(if i < 0 then -i else i)| <= INT_MAX_STR_DIGITS
    case Arr(items) => forall i :: 0 <= i < |items| ==> NumeralsWithin(items[i])
    case Obj(fields) => forall i :: 0 <= i < |fields| ==> NumeralsWithin(fields[i].value)
    case _ => true
  }

  /** Within the depth and length limits when found at the given depth. */
  predicate Fits(v: PyValue, depth: nat, limits: Limits) {
    && JsonCompatible(v)
    && depth + Height(Erase(v)) <= limits.maxDepth
    && TextsWithin(Erase(v), limits.maxStringLength)
  }

  /** result[key] = value on a dict kept as its list of items. */
  function Put(fields: seq<Field>, key: string, value: Json): (r: seq<Field>)
    ensures (forall i :: 0 <= i < |fields| ==> fields[i].key != key) ==> r == fields + [Field(key, value)]
  {
    if fields == [] then [Field(key, value)]
    else if fields[0].key == key then [Field(key, value)] + fields[1..]
    else [fields[0]] + Put(fields[1..], key, value)
  }

  /** _normalize */
  method Normalize(v: PyValue, depth: nat, limits: Limits) returns (r: Result<Json>)
    requires Genuine(v)
    ensures r.Ok? <==> Fits(v, depth, limits)
    ensures r.Ok? ==> r.value == Erase(v)
    ensures r == Err(NotJson) ==> !JsonCompatible(v)
    ensures r == Err(TooDeep) && JsonCompatible(v) ==> depth + Height(Erase(v)) > limits.maxDepth
    ensures r == Err(StringTooLong) && JsonCompatible(v) ==> !TextsWithin(Erase(v), limits.maxStringLength)
    ensures r != Err(TooLarge)
    decreases v, 1
  {
    if depth > limits.maxDepth { return Err(TooDeep); }
    match v {
      case PNone => return Ok(Null);
      case PBool(b) => return Ok(Bool(b));
      case PInt(i) => return Ok(Int(i));
      case PStr(text) =>
        if |text| > limits.maxStringLength { return Err(StringTooLong); }
        return Ok(Str(text));
      case PUnencodable(length) =>
        if length > limits.maxStringLength { return Err(StringTooLong); }
        return Err(NotJson);
      case PNonFinite => return Err(NotJson);
      case PFloat(token) => return Ok(Float(token));
      case PMapping(entries) => r := NormalizeMapping(entries, depth, limits);
      case PSequence(items) => r := NormalizeSequence(items, depth, limits);
      case PForeign => return Err(NotJson);
    }
  }

  method NormalizeMapping(entries: seq<Entry>, depth: nat, limits: Limits) returns (r: Result<Json>)
    requires depth <= limits.maxDepth && Genuine(PMapping(entries))
    ensures r.Ok? <==> Fits(PMapping(entries), depth, limits)
    ensures r.Ok? ==> r.value == Erase(PMapping(entries))
    ensures r == Err(NotJson) ==> !JsonCompatible(PMapping(entries))
    ensures r == Err(TooDeep) && JsonCompatible(PMapping(entries)) ==>
              depth + Height(Erase(PMapping(entries))) > limits.maxDepth
    ensures r == Err(StringTooLong) && JsonCompatible(PMapping(entries)) ==>
              !TextsWithin(Erase(PMapping(entries)), limits.maxStringLength)
    ensures r != Err(TooLarge)
    decreases entries, 0
  {
    var result: seq<Field> := [];
    for n := 0 to |entries|
      invariant |result| == n
      invariant forall i :: 0 <= i < n ==>
        && entries[i].key.TextKey?
        && |entries[i].key.text| <= limits.maxStringLength
        && Fits(entries[i].value, depth + 1, limits)
        && result[i] == EraseEntry(entries[i])
    {
      var Entry(key, nested) := entries[n];
      if !key.TextKey? {
        if key.UnencodableKey? && key.length > limits.maxStringLength { return Err(StringTooLong); }
        return Err(NotJson);
      }
      if |key.text| > limits.maxStringLength { return Err(StringTooLong); }
      var value := Normalize(nested, depth + 1, limits);
      if value.Err? {
        MappingMember(entries, n, depth, limits);
        return value;
      }
      result := Put(result, key.text, value.value);
    }
    MappingFits(entries, result, depth, limits);
    return Ok(Obj(result));
  }

  /** A member that breaks a limit makes the whole mapping break it. */
  lemma MappingMember(entries: seq<Entry>, n: nat, depth: nat, limits: Limits)
    requires n < |entries| && depth <= limits.maxDepth
    ensures JsonCompatible(PMapping(entries)) ==>
              var whole := Erase(PMapping(entries));
              var nested := Erase(entries[n].value);
              && (depth + 1 + Height(nested) > limits.maxDepth ==> depth + Height(whole) > limits.maxDepth)
              && (!TextsWithin(nested, limits.maxStringLength) ==> !TextsWithin(whole, limits.maxStringLength))
  {
    if JsonCompatible(PMapping(entries)) {
      var fields := EraseEntries(entries);
      assert fields[n] == EraseEntry(entries[n]);
      FieldsHeightBound(fields, limits.maxDepth - depth - 1);
    }
  }

  lemma MappingFits(entries: seq<Entry>, result: seq<Field>, depth: nat, limits: Limits)
    requires |result| == |entries| && depth <= limits.maxDepth
    requires forall i :: 0 <= i < |entries| ==>
      && entries[i].key.TextKey?
      && |entries[i].key.text| <= limits.maxStringLength
      && Fits(entries[i].value, depth + 1, limits)
      && result[i] == EraseEntry(entries[i])
    ensures Fits(PMapping(entries), depth, limits) && Erase(PMapping(entries)) == Obj(result)
  {
    assert result == EraseEntries(entries);
    FieldsHeightBound(result, limits.maxDepth - depth - 1);
  }

  method NormalizeSequence(items: seq<PyValue>, depth: nat, limits: Limits) returns (r: Result<Json>)
    requires depth <= limits.maxDepth && Genuine(PSequence(items))
    ensures r.Ok? <==> Fits(PSequence(items), depth, limits)
    ensures r.Ok? ==> r.value == Erase(PSequence(items))
    ensures r == Err(NotJson) ==> !JsonCompatible(PSequence(items))
    ensures r == Err(TooDeep) && JsonCompatible(PSequence(items)) ==>
              depth + Height(Erase(PSequence(items))) > limits.maxDepth
    ensures r == Err(StringTooLong) && JsonCompatible(PSequence(items)) ==>
              !TextsWithin(Erase(PSequence(items)), limits.maxStringLength)
    ensures r != Err(TooLarge)
    decreases items, 0
  {
    var result: seq<Json> := [];
    ghost var room := limits.maxDepth - depth - 1;
    for n := 0 to |items|
      invariant |result| == n
      invariant forall i :: 0 <= i < n ==> Fits(items[i], depth + 1, limits) && result[i] == Erase(items[i])
    {
      var value := Normalize(items[n], depth + 1, limits);
      if value.Err? {
        if JsonCompatible(PSequence(items)) {
          ghost var erased := EraseItems(items);
          assert erased[n] == Erase(items[n]);
          ItemsHeightBound(erased, room);
        }
        return value;
      }
      result := result + [value.value];
    }
    assert result == EraseItems(items);
    ItemsHeightBound(result, room);
    return Ok(Arr(result));
  }

  /** Exactly the values canonicalize_json accepts. */
  predicate Acceptable(v: PyValue, limits: Limits) {
    && Fits(v, 0, limits)
    && NumeralsWithin(Erase(v))
    && |CanonicalJson.CanonicalBytes(Erase(v))| <= limits.maxBytes
  }

  method CanonicalizeJson(v: PyValue, limits: Limits) returns (r: Result<CanonicalPayload>)
    requires Genuine(v)
    ensures r.Ok? <==> Acceptable(v, limits)
    ensures r.Ok? <==>
      && JsonCompatible(v) && Height(Erase(v)) <= limits.maxDepth && NumeralsWithin(Erase(v))
      && TextsWithin(Erase(v), limits.maxStringLength)
      && |CanonicalJson.CanonicalBytes(Erase(v))| <= limits.maxBytes
    ensures r.Ok? ==> r.value == CanonicalPayload(Erase(v), CanonicalJson.CanonicalBytes(Erase(v)))
    ensures r == Err(TooLarge) ==> Fits(v, 0, limits) && NumeralsWithin(Erase(v))
    ensures r == Err(TooDeep) && JsonCompatible(v) ==> Height(Erase(v)) > limits.maxDepth
    ensures r == Err(StringTooLong) && JsonCompatible(v) ==> !TextsWithin(Erase(v), limits.maxStringLength)
    ensures r == Err(NotJson) && JsonCompatible(v) ==> !NumeralsWithin(Erase(v))
  {
    var normalized := Normalize(v, 0, limits);
    if normalized.Err? { return Err(normalized.error); }
    if !NumeralsWithin(normalized.value) { return Err(NotJson); }
    var encoded := CanonicalJson.CanonicalBytes(normalized.value);
    if |encoded| > limits.maxBytes { return Err(TooLarge); }
    return Ok(CanonicalPayload(normalized.value, encoded));
  }

  /** canonicalize_object: arguments must be an object. */
  method CanonicalizeObject(v: PyValue, limits: Limits) returns (r: Result<CanonicalPayload>)
    requires Genuine(v)
    ensures r.Ok? <==> v.PMapping? && Acceptable(v, limits)
    ensures r.Ok? ==> r.value == CanonicalPayload(Erase(v), CanonicalJson.CanonicalBytes(Erase(v)))
    ensures r == Err(TooLarge) ==>
      Fits(v, 0, limits) && |CanonicalJson.CanonicalBytes(Erase(v))| > limits.maxBytes
    ensures r == Err(TooDeep) && JsonCompatible(v) ==> Height(Erase(v)) > limits.maxDepth
    ensures r == Err(StringTooLong) && JsonCompatible(v) ==> !TextsWithin(Erase(v), limits.maxStringLength)
    ensures r == Err(NotJson) && JsonCompatible(v) ==> !NumeralsWithin(Erase(v)) || !v.PMapping?
  {
    r := CanonicalizeJson(v, limits);
    if r.Ok? && !r.value.value.Obj? { return Err(NotJson); }
  }

  /** An accepted value is a proper, printable JSON value, so the canonical
      round trip applies to it. */
  lemma {:induction false} ErasedIsProper(v: PyValue)
    requires Genuine(v) && JsonCompatible(v)
    ensures Proper(Erase(v)) && JsonText.Printable(Erase(v))
    decreases v
  {
    match v
    case PSequence(items) =>
      forall i | 0 <= i < |items| ensures Proper(Erase(items[i])) && JsonText.Printable(Erase(items[i])) {
        ErasedIsProper(items[i]);
      }
    case PMapping(entries) =>
      forall i | 0 <= i < |entries|
        ensures Proper(Erase(entries[i].value)) && JsonText.Printable(Erase(entries[i].value))
      {
        ErasedIsProper(entries[i].value);
      }
    case _ =>
  }

  /** Two accepted payloads have equal bytes exactly when they are the same
      value up to the order of object keys, and the bytes parse back to it. */
  lemma PayloadIdentity(v: PyValue, w: PyValue, limits: Limits)
    requires Genuine(v) && Genuine(w) && Acceptable(v, limits) && Acceptable(w, limits)
    ensures CanonicalJson.CanonicalBytes(Erase(v)) == CanonicalJson.CanonicalBytes(Erase(w))
            <==> Denote(Erase(v)) == Denote(Erase(w))
    ensures JsonText.Parse(CanonicalJson.CanonicalText(Erase(v))) == Some(CanonicalJson.Canonical(Erase(v)))
  {
    ErasedIsProper(v);
    ErasedIsProper(w);
    CanonicalJson.SameBytesSameMeaning(Erase(v), Erase(w));
    CanonicalJson.CanonicalRoundTrip(Erase(v));
  }

  // ------------------------------------------------ JSON values as payloads

  /** A JSON value is itself a Python value. */
  function Lift(v: Json): PyValue
    decreases v, 1
  {
    match v
    case Null => PNone
    case Bool(b) => PBool(b)
    case Int(i) => PInt(i)
    case Float(token) => PFloat(token)
    case Str(text) => PStr(text)
    case Arr(items) => PSequence(LiftItems(items))
    case Obj(fields) => PMapping(LiftFields(fields))
  }

  function LiftItems(items: seq<Json>): (r: seq<PyValue>)
    ensures |r| == |items| && forall i :: 0 <= i < |r| ==> r[i] == Lift(items[i])
    decreases items, 0
  {
    if items == [] then [] else [Lift(items[0])] + LiftItems(items[1..])
  }

  function LiftFields(fields: seq<Field>): (r: seq<Entry>)
    ensures |r| == |fields|
    ensures forall i :: 0 <= i < |r| ==> r[i] == Entry(TextKey(fields[i].key), Lift(fields[i].value))
    decreases fields, 0
  {
    if fields == [] then []
    else [Entry(TextKey(fields[0].key), Lift(fields[0].value))] + LiftFields(fields[1..])
  }

  /** A proper, printable JSON value comes back as it was. */
  lemma {:induction false} LiftErases(v: Json)
    requires Proper(v) && JsonText.Printable(v)
    ensures Genuine(Lift(v)) && JsonCompatible(Lift(v)) && Erase(Lift(v)) == v
    decreases v
  {
    match v
    case Arr(items) =>
      forall i | 0 <= i < |items|
        ensures Genuine(Lift(items[i])) && JsonCompatible(Lift(items[i])) && Erase(Lift(items[i])) == items[i]
      {
        LiftErases(items[i]);
      }
      assert EraseItems(LiftItems(items)) == items;
    case Obj(fields) =>
      forall i | 0 <= i < |fields|
        ensures Genuine(Lift(fields[i].value)) && JsonCompatible(Lift(fields[i].value))
        ensures Erase(Lift(fields[i].value)) == fields[i].value
      {
        LiftErases(fields[i].value);
      }
      assert EraseEntries(LiftFields(fields)) == fields;
    case _ =>
  }
}
