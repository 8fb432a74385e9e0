/** The bounded recursive walk of the redactor (security/redaction.py visit) and
    the depth check the persisted payload meets afterwards (domain/common.py). */
module TreeRedaction {
  import opened Options
  import opened JsonValues
  import opened StringRedaction
  import JsonText
  import CanonicalJson
  import Payloads
  import Substitution
  import RedactedText
  import Text

  datatype Config = Config(redactor: Redactor, sensitive: string -> bool, maxDepth: nat, maxNodes: nat)

  datatype Step = Member(key: string) | Element(index: nat)

  datatype TreeFinding = TreeFinding(path: seq<Step>, finding: Finding)

  /** current not in (None, "") under a sensitive name */
  predicate Replaced(v: Json, sensitive: bool) { sensitive && v != Null && v != Str("") }

  /** _stable_secret */
  function StableSecret(v: Json): string {
    if v.Str? then v.text else CanonicalJson.CanonicalText(v)
  }

  /** A structured secret is the same text whatever the order of its keys. */
  lemma StableSecretIsStable(v: Json, w: Json)
    requires Proper(v) && Proper(w) && JsonText.Printable(v) && JsonText.Printable(w) && !v.Str? && !w.Str?
    ensures StableSecret(v) == StableSecret(w) <==> Denote(v) == Denote(w)
  {
    CanonicalJson.SameBytesSameMeaning(v, w);
    if StableSecret(v) != StableSecret(w) && CanonicalJson.CanonicalBytes(v) == CanonicalJson.CanonicalBytes(w) {
      Text.EncodeInjective(StableSecret(v), StableSecret(w));
    }
  }

  // ------------------------------------------------- what a walk amounts to

  /** The sanitized copy. */
  function Redacted(c: Config, v: Json, sensitive: bool): Json
    decreases v, 1
  {
    if Replaced(v, sensitive) then Str(c.redactor.replacement(StableSecret(v)))
    else
      match v
      case Obj(fields) => Obj(RedactedFields(c, fields))
      case Arr(items) => Arr(RedactedItems(c, items))
      case Str(text) => Str(RedactString(c.redactor, text).text)
      case _ => v
  }

  function RedactedFields(c: Config, fields: seq<Field>): (r: seq<Field>)
    ensures |r| == |fields|
    ensures forall i :: 0 <= i < |r| ==> r[i].key == fields[i].key
    ensures forall i :: 0 <= i < |r| ==> r[i].value == Redacted(c, fields[i].value, c.sensitive(fields[i].key))
    decreases fields, 0
  {
    if fields == [] then []
    else
      var last := fields[|fields| - 1];
      RedactedFields(c, fields[..|fields| - 1]) + [Field(last.key, Redacted(c, last.value, c.sensitive(last.key)))]
  }

  function RedactedItems(c: Config, items: seq<Json>): (r: seq<Json>)
    ensures |r| == |items|
    ensures forall i :: 0 <= i < |r| ==> r[i] == Redacted(c, items[i], false)
    decreases items, 0
  {
    if items == [] then []
    else RedactedItems(c, items[..|items| - 1]) + [Redacted(c, items[|items| - 1], false)]
  }

  /** How many calls of visit the walk makes. */
  function Nodes(c: Config, v: Json, sensitive: bool): (n: nat)
    ensures n >= 1
    decreases v, 1
  {
    if Replaced(v, sensitive) then 1
    else
      match v
      case Obj(fields) => 1 + FieldsNodes(c, fields)
      case Arr(items) => 1 + ItemsNodes(c, items)
      case _ => 1
  }

  function FieldsNodes(c: Config, fields: seq<Field>): nat
    decreases fields, 0
  {
    if fields == [] then 0
    else
      var last := fields[|fields| - 1];
      FieldsNodes(c, fields[..|fields| - 1]) + Nodes(c, last.value, c.sensitive(last.key))
  }

  function ItemsNodes(c: Config, items: seq<Json>): nat
    decreases items, 0
  {
    if items == [] then 0 else ItemsNodes(c, items[..|items| - 1]) + Nodes(c, items[|items| - 1], false)
  }

  /** How far below its root the walk goes. */
  function Reach(c: Config, v: Json, sensitive: bool): (h: nat)
    decreases v, 1
  {
    if Replaced(v, sensitive) then 0
    else
      match v
      case Obj(fields) => 1 + FieldsReach(c, fields)
      case Arr(items) => 1 + ItemsReach(c, items)
      case _ => 0
  }

  function FieldsReach(c: Config, fields: seq<Field>): (h: int)
    ensures h >= -1
    decreases fields, 0
  {
    if fields == [] then -1
    else
      var last := fields[|fields| - 1];
      Max(FieldsReach(c, fields[..|fields| - 1]), Reach(c, last.value, c.sensitive(last.key)))
  }

  function ItemsReach(c: Config, items: seq<Json>): (h: int)
    ensures h >= -1
    decreases items, 0
  {
    if items == [] then -1 else Max(ItemsReach(c, items[..|items| - 1]), Reach(c, items[|items| - 1], false))
  }

  /** What the walk reports, in order. */
  function Findings(c: Config, path: seq<Step>, v: Json, sensitive: bool): seq<TreeFinding>
    decreases v, 1
  {
    if Replaced(v, sensitive) then [TreeFinding(path, Finding(FieldName, StableSecret(v)))]
    else
      match v
      case Obj(fields) => FieldsFindings(c, path, fields)
      case Arr(items) => ItemsFindings(c, path, items)
      case Str(text) => Located(path, RedactString(c.redactor, text).findings)
      case _ => []
  }

  function Located(path: seq<Step>, findings: seq<Finding>): seq<TreeFinding> {
    seq(|findings|, i requires 0 <= i < |findings| => TreeFinding(path, findings[i]))
  }

  function FieldsFindings(c: Config, path: seq<Step>, fields: seq<Field>): seq<TreeFinding>
    decreases fields, 0
  {
    if fields == [] then []
    else
      var last := fields[|fields| - 1];
      FieldsFindings(c, path, fields[..|fields| - 1]) +
      Findings(c, path + [Member(last.key)], last.value, c.sensitive(last.key))
  }

  function ItemsFindings(c: Config, path: seq<Step>, items: seq<Json>): seq<TreeFinding>
    decreases items, 0
  {
    if items == [] then []
    else
      ItemsFindings(c, path, items[..|items| - 1]) +
      Findings(c, path + [Element(|items| - 1)], items[|items| - 1], false)
  }

  lemma {:induction false} FieldsPrefix(c: Config, fields: seq<Field>, n: nat)
    requires n < |fields|
    ensures FieldsNodes(c, fields[..n]) + Nodes(c, fields[n].value, c.sensitive(fields[n].key))
      <= FieldsNodes(c, fields)
    ensures FieldsReach(c, fields[..n]) <= FieldsReach(c, fields)
    ensures Reach(c, fields[n].value, c.sensitive(fields[n].key)) <= FieldsReach(c, fields)
    decreases |fields|
  {
    var front := fields[..|fields| - 1];
    if n < |front| {
      FieldsPrefix(c, front, n);
      assert front[..n] == fields[..n];
    }
  }

  lemma {:induction false} ItemsPrefix(c: Config, items: seq<Json>, n: nat)
    requires n < |items|
    ensures ItemsNodes(c, items[..n]) + Nodes(c, items[n], false) <= ItemsNodes(c, items)
    ensures ItemsReach(c, items[..n]) <= ItemsReach(c, items)
    ensures Reach(c, items[n], false) <= ItemsReach(c, items)
    decreases |items|
  {
    var front := items[..|items| - 1];
    if n < |front| {
      ItemsPrefix(c, front, n);
      assert front[..n] == items[..n];
    }
  }

  /** One more member. */
  lemma FieldsStep(c: Config, path: seq<Step>, fields: seq<Field>, n: nat)
    requires n < |fields|
    ensures var f := fields[n];
            && RedactedFields(c, fields[..n + 1]) ==
               RedactedFields(c, fields[..n]) + [Field(f.key, Redacted(c, f.value, c.sensitive(f.key)))]
            && FieldsNodes(c, fields[..n + 1]) == FieldsNodes(c, fields[..n]) + Nodes(c, f.value, c.sensitive(f.key))
            && FieldsReach(c, fields[..n + 1])
               == Max(FieldsReach(c, fields[..n]), Reach(c, f.value, c.sensitive(f.key)))
            && FieldsFindings(c, path, fields[..n + 1]) ==
               FieldsFindings(c, path, fields[..n]) + Findings(c, path + [Member(f.key)], f.value, c.sensitive(f.key))
  {
    assert fields[..n + 1][..n] == fields[..n] && fields[..n + 1][n] == fields[n];
  }

  /** One more element. */
  lemma ItemsStep(c: Config, path: seq<Step>, items: seq<Json>, n: nat)
    requires n < |items|
    ensures RedactedItems(c, items[..n + 1]) == RedactedItems(c, items[..n]) + [Redacted(c, items[n], false)]
    ensures ItemsNodes(c, items[..n + 1]) == ItemsNodes(c, items[..n]) + Nodes(c, items[n], false)
    ensures ItemsReach(c, items[..n + 1]) == Max(ItemsReach(c, items[..n]), Reach(c, items[n], false))
    ensures ItemsFindings(c, path, items[..n + 1]) ==
            ItemsFindings(c, path, items[..n]) + Findings(c, path + [Element(n)], items[n], false)
  {
    assert items[..n + 1][..n] == items[..n] && items[..n + 1][n] == items[n];
  }

  // ------------------------------------------------------------- the walk

  /** One call of redact: the nonlocal counter and the findings list. */
  class Walk {
    const config: Config
    var visited: nat
    var findings: seq<TreeFinding>

    constructor (config: Config)
      ensures this.config == config && visited == 0 && findings == []
    {
      this.config := config;
      visited := 0;
      findings := [];
    }

    /** visit; None is RedactionLimitExceeded. It succeeds exactly when the walk
        stays within the node and depth limits. */
    method Visit(current: Json, path: seq<Step>, depth: nat, sensitive: bool) returns (r: Option<Json>)
      modifies this
      ensures r.Some? <==> && old(visited) + Nodes(config, current, sensitive) <= config.maxNodes
                           && depth + Reach(config, current, sensitive) <= config.maxDepth
      ensures r.Some? ==> && r.value == Redacted(config, current, sensitive)
                          && visited == old(visited) + Nodes(config, current, sensitive)
                          && findings == old(findings) + Findings(config, path, current, sensitive)
      decreases current, 1
    {
      visited := visited + 1;
      if visited > config.maxNodes { return None; }
      if depth > config.maxDepth { return None; }
      if Replaced(current, sensitive) {
        var secret := StableSecret(current);
        findings := findings + [TreeFinding(path, Finding(FieldName, secret))];
        return Some(Str(config.redactor.replacement(secret)));
      }
      match current {
        case Obj(fields) => r := VisitFields(fields, path, depth);
        case Arr(items) => r := VisitItems(items, path, depth);
        case Str(text) =>
          var redaction := RedactString(config.redactor, text);
          findings := findings + Located(path, redaction.findings);
          return Some(Str(redaction.text));
        case _ => return Some(current);
      }
    }

    method VisitFields(fields: seq<Field>, path: seq<Step>, depth: nat) returns (r: Option<Json>)
      requires visited <= config.maxNodes && depth <= config.maxDepth
      modifies this
      ensures r.Some? <==> && old(visited) + FieldsNodes(config, fields) <= config.maxNodes
                           && depth + 1 + FieldsReach(config, fields) <= config.maxDepth
      ensures r.Some? ==> && r.value == Obj(RedactedFields(config, fields))
                          && visited == old(visited) + FieldsNodes(config, fields)
                          && findings == old(findings) + FieldsFindings(config, path, fields)
      decreases fields, 0
    {
      var result: seq<Field> := [];
      ghost var v0, f0 := visited, findings;
      for n := 0 to |fields|
        invariant FieldsSeen(fields[..n], path, depth, result, v0, f0)
      {
        FieldsPrefix(config, fields, n);
        var Field(key, nested) := fields[n];
        var value := Visit(nested, path + [Member(key)], depth + 1, config.sensitive(key));
        if value.None? { return None; }
        result := result + [Field(key, value.value)];
        FieldJoins(fields, n, path, depth, result, value.value, v0, f0);
      }
      assert fields[..|fields|] == fields;
      return Some(Obj(result));
    }

    /** After these members: what was built, counted and found. */
    ghost predicate FieldsSeen(fields: seq<Field>, path: seq<Step>, depth: nat, result: seq<Field>, v0: nat,
        f0: seq<TreeFinding>)
      reads this
    {
      && result == RedactedFields(config, fields)
      && visited == v0 + FieldsNodes(config, fields) <= config.maxNodes
      && depth + 1 + FieldsReach(config, fields) <= config.maxDepth
      && findings == f0 + FieldsFindings(config, path, fields)
    }

    lemma FieldJoins(
      fields: seq<Field>, n: nat, path: seq<Step>, depth: nat, result: seq<Field>, value: Json, v0: nat,
      f0: seq<TreeFinding>)
      requires n < |fields|
      requires var f := fields[n];
        && value == Redacted(config, f.value, config.sensitive(f.key))
        && result == RedactedFields(config, fields[..n]) + [Field(f.key, value)]
        && visited == v0 + FieldsNodes(config, fields[..n]) + Nodes(config, f.value, config.sensitive(f.key))
           <= config.maxNodes
        && depth + 1 + Max(FieldsReach(config, fields[..n]), Reach(config, f.value, config.sensitive(f.key)))
           <= config.maxDepth
        && findings == f0 + FieldsFindings(config, path, fields[..n])
             + Findings(config, path + [Member(f.key)], f.value, config.sensitive(f.key))
      ensures FieldsSeen(fields[..n + 1], path, depth, result, v0, f0)
    {
      FieldsStep(config, path, fields, n);
    }

    method VisitItems(items: seq<Json>, path: seq<Step>, depth: nat) returns (r: Option<Json>)
      requires visited <= config.maxNodes && depth <= config.maxDepth
      modifies this
      ensures r.Some? <==> && old(visited) + ItemsNodes(config, items) <= config.maxNodes
                           && depth + 1 + ItemsReach(config, items) <= config.maxDepth
      ensures r.Some? ==> && r.value == Arr(RedactedItems(config, items))
                          && visited == old(visited) + ItemsNodes(config, items)
                          && findings == old(findings) + ItemsFindings(config, path, items)
      decreases items, 0
    {
      var result: seq<Json> := [];
      for n := 0 to |items|
        invariant result == RedactedItems(config, items[..n])
        invariant visited == old(visited) + ItemsNodes(config, items[..n]) <= config.maxNodes
        invariant depth + 1 + ItemsReach(config, items[..n]) <= config.maxDepth
        invariant findings == old(findings) + ItemsFindings(config, path, items[..n])
      {
        ItemsPrefix(config, items, n);
        ItemsStep(config, path, items, n);
        var value := Visit(items[n], path + [Element(n)], depth + 1, false);
        if value.None? { return None; }
        result := result + [value.value];
      }
      assert items[..|items|] == items;
      return Some(Arr(result));
    }
  }

  // ------------------------------------------------- what a walk preserves

  /** r is v with secrets taken out: the same keys, lengths and scalars; in text the
      matches replaced, what is between them kept, and no match left; nothing but the
      replacement under a sensitive name. */
  ghost predicate Sanitizes(c: Config, v: Json, sensitive: bool, r: Json)
    decreases v
  {
    if sensitive && v != Null && v != Str("") then
      r == Str(c.redactor.replacement(if v.Str? then v.text else CanonicalJson.CanonicalText(v)))
    else
      match v
      case Obj(fields) =>
        && r.Obj? && |r.fields| == |fields|
        && forall i :: 0 <= i < |fields| ==>
             && r.fields[i].key == fields[i].key
             && Sanitizes(c, fields[i].value, c.sensitive(fields[i].key), r.fields[i].value)
      case Arr(items) =>
        && r.Arr? && |r.items| == |items|
        && forall i :: 0 <= i < |items| ==> Sanitizes(c, items[i], false, r.items[i])
      case Str(text) => r.Str? && NoSecrets(c, r.text) && RedactsTo(c, text, r.text)
      case _ => r == v
  }

  ghost predicate RedactsTo(c: Config, text: string, clean: string) {
    exists findings :: RedactedText.RedactsAs(c.redactor, text, Redaction(clean, findings))
  }

  lemma RedactedTo(c: Config, text: string)
    ensures RedactsTo(c, text, RedactString(c.redactor, text).text)
  {
    var out := RedactString(c.redactor, text);
    RedactedText.RedactionKeepsTheRest(c.redactor, text);
    assert out == Redaction(out.text, out.findings);
  }

  ghost predicate NoSecrets(c: Config, text: string) {
    && !Substitution.Finds(Authorization(c.redactor.classes), text)
    && !Substitution.Finds(Jwt(), text)
    && !Substitution.Finds(PrivateKey(c.redactor.classes), text)
  }

  lemma {:induction false} RedactedSanitizes(c: Config, v: Json, sensitive: bool)
    requires Valid(c.redactor)
    ensures Sanitizes(c, v, sensitive, Redacted(c, v, sensitive))
    decreases v
  {
    if !Replaced(v, sensitive) {
      match v
      case Obj(fields) =>
        forall i | 0 <= i < |fields|
          ensures Sanitizes(c, fields[i].value, c.sensitive(fields[i].key), RedactedFields(c, fields)[i].value)
        {
          RedactedSanitizes(c, fields[i].value, c.sensitive(fields[i].key));
        }
      case Arr(items) =>
        forall i | 0 <= i < |items| ensures Sanitizes(c, items[i], false, RedactedItems(c, items)[i]) {
          RedactedSanitizes(c, items[i], false);
        }
      case Str(text) =>
        RedactionLeavesNoMatch(c.redactor, text);
        RedactedTo(c, text);
      case _ =>
    }
  }

  // ------------------------------------------------- what a walk reports

  /** The finding lies at this path below v: a sensitive value as a whole, or a match
      in a text. */
  ghost predicate Shows(c: Config, v: Json, sensitive: bool, path: seq<Step>, finding: Finding)
    decreases v
  {
    if sensitive && v != Null && v != Str("") then path == [] && finding == Finding(FieldName, StableSecret(v))
    else
      match v
      case Obj(fields) =>
        path != [] && exists i :: 0 <= i < |fields| && path[0] == Member(fields[i].key)
                        && Shows(c, fields[i].value, c.sensitive(fields[i].key), path[1..], finding)
      case Arr(items) =>
        path != [] && exists i :: 0 <= i < |items| && path[0] == Element(i)
                        && Shows(c, items[i], false, path[1..], finding)
      case Str(text) => path == [] && finding in RedactString(c.redactor, text).findings
      case _ => false
  }

  ghost predicate ShowsBelow(c: Config, v: Json, sensitive: bool, path: seq<Step>, f: TreeFinding) {
    path <= f.path && Shows(c, v, sensitive, f.path[|path|..], f.finding)
  }

  lemma {:induction false} FieldsShow(c: Config, path: seq<Step>, fields: seq<Field>, f: TreeFinding)
    ensures f in FieldsFindings(c, path, fields) <==>
      exists i :: 0 <= i < |fields|
        && ShowsBelow(c, fields[i].value, c.sensitive(fields[i].key), path + [Member(fields[i].key)], f)
    decreases fields, 0
  {
    if fields != [] {
      var front, last := fields[..|fields| - 1], fields[|fields| - 1];
      FieldsShow(c, path, front, f);
      FindingsExactly(c, path + [Member(last.key)], last.value, c.sensitive(last.key), f);
      assert forall i :: 0 <= i < |front| ==> front[i] == fields[i];
    }
  }

  lemma {:induction false} ItemsShow(c: Config, path: seq<Step>, items: seq<Json>, f: TreeFinding)
    ensures f in ItemsFindings(c, path, items) <==>
      exists i :: 0 <= i < |items| && ShowsBelow(c, items[i], false, path + [Element(i)], f)
    decreases items, 0
  {
    if items != [] {
      var front, last := items[..|items| - 1], items[|items| - 1];
      ItemsShow(c, path, front, f);
      FindingsExactly(c, path + [Element(|items| - 1)], last, false, f);
      assert forall i :: 0 <= i < |front| ==> front[i] == items[i];
    }
  }

  lemma StepBelow(path: seq<Step>, step: Step, whole: seq<Step>)
    ensures path + [step] <= whole <==> path <= whole && |path| < |whole| && whole[|path|..][0] == step
    ensures path + [step] <= whole ==> whole[|path + [step]|..] == whole[|path|..][1..]
  {
  }

  /** The walk reports exactly what lies below its root, each finding at its path. */
  lemma {:induction false} FindingsExactly(c: Config, path: seq<Step>, v: Json, sensitive: bool, f: TreeFinding)
    ensures f in Findings(c, path, v, sensitive) <==> ShowsBelow(c, v, sensitive, path, f)
    decreases v, 1
  {
    if !Replaced(v, sensitive) {
      match v
      case Obj(fields) =>
        FieldsShow(c, path, fields, f);
        forall i | 0 <= i < |fields|
          ensures ShowsBelow(c, fields[i].value, c.sensitive(fields[i].key), path + [Member(fields[i].key)], f) <==>
            path <= f.path && |path| < |f.path| && f.path[|path|..][0] == Member(fields[i].key)
            && Shows(c, fields[i].value, c.sensitive(fields[i].key), f.path[|path|..][1..], f.finding)
        {
          StepBelow(path, Member(fields[i].key), f.path);
        }
      case Arr(items) =>
        ItemsShow(c, path, items, f);
        forall i | 0 <= i < |items|
          ensures ShowsBelow(c, items[i], false, path + [Element(i)], f) <==>
            path <= f.path && |path| < |f.path| && f.path[|path|..][0] == Element(i)
            && Shows(c, items[i], false, f.path[|path|..][1..], f.finding)
        {
          StepBelow(path, Element(i), f.path);
        }
      case Str(text) => LocatedExactly(path, RedactString(c.redactor, text).findings, f);
      case _ =>
    } else {
      assert path <= f.path && f.path[|path|..] == [] ==> f.path == path;
    }
  }

  lemma LocatedExactly(path: seq<Step>, findings: seq<Finding>, f: TreeFinding)
    ensures f in Located(path, findings) <==> path <= f.path && f.path[|path|..] == [] && f.finding in findings
  {
    if f.path == path && f.finding in findings {
      var i :| 0 <= i < |findings| && findings[i] == f.finding;
      assert Located(path, findings)[i] == f;
    }
    assert path <= f.path && f.path[|path|..] == [] ==> f.path == path;
  }

  /** A value in which nothing is found is left as it is. */
  lemma {:induction false} NothingFoundNothingChanged(c: Config, path: seq<Step>, v: Json, sensitive: bool)
    requires Findings(c, path, v, sensitive) == []
    ensures Redacted(c, v, sensitive) == v
    decreases v, 1
  {
    match v
    case Obj(fields) => NoFieldChanged(c, path, fields);
    case Arr(items) => NoItemChanged(c, path, items);
    case Str(text) =>
      assert |Located(path, RedactString(c.redactor, text).findings)| == |RedactString(c.redactor, text).findings|;
      RedactedText.NothingFoundNothingChanged(c.redactor, text);
    case _ =>
  }

  lemma {:induction false} NoFieldChanged(c: Config, path: seq<Step>, fields: seq<Field>)
    requires FieldsFindings(c, path, fields) == []
    ensures RedactedFields(c, fields) == fields
    decreases fields, 0
  {
    if fields != [] {
      var front, last := fields[..|fields| - 1], fields[|fields| - 1];
      assert FieldsFindings(c, path, front) == [];
      NoFieldChanged(c, path, front);
      NothingFoundNothingChanged(c, path + [Member(last.key)], last.value, c.sensitive(last.key));
      assert fields == front + [last];
    }
  }

  lemma {:induction false} NoItemChanged(c: Config, path: seq<Step>, items: seq<Json>)
    requires ItemsFindings(c, path, items) == []
    ensures RedactedItems(c, items) == items
    decreases items, 0
  {
    if items != [] {
      var front, last := items[..|items| - 1], items[|items| - 1];
      assert ItemsFindings(c, path, front) == [];
      NoItemChanged(c, path, front);
      NothingFoundNothingChanged(c, path + [Element(|items| - 1)], last, false);
      assert items == front + [last];
    }
  }

  /** Redaction never deepens a value. */
  lemma {:induction false} RedactedHeight(c: Config, v: Json, sensitive: bool)
    ensures Height(Redacted(c, v, sensitive)) <= Height(v)
    decreases v
  {
    if !Replaced(v, sensitive) {
      match v
      case Obj(fields) =>
        forall i | 0 <= i < |fields| ensures Height(RedactedFields(c, fields)[i].value) <= Height(fields[i].value) {
          RedactedHeight(c, fields[i].value, c.sensitive(fields[i].key));
        }
        FieldsHeightBound(fields, FieldsHeight(fields));
        FieldsHeightBound(RedactedFields(c, fields), FieldsHeight(fields));
      case Arr(items) =>
        forall i | 0 <= i < |items| ensures Height(RedactedItems(c, items)[i]) <= Height(items[i]) {
          RedactedHeight(c, items[i], false);
        }
        ItemsHeightBound(items, ItemsHeight(items));
        ItemsHeightBound(RedactedItems(c, items), ItemsHeight(items));
      case _ =>
    }
  }

  /** The walk goes no deeper than the value. */
  lemma {:induction false} ReachWithinHeight(c: Config, v: Json, sensitive: bool)
    ensures Reach(c, v, sensitive) <= Height(v)
    decreases v, 1
  {
    if !Replaced(v, sensitive) {
      match v
      case Obj(fields) =>
        FieldsHeightBound(fields, FieldsHeight(fields));
        FieldsReachWithin(c, fields, FieldsHeight(fields));
      case Arr(items) =>
        ItemsHeightBound(items, ItemsHeight(items));
        ItemsReachWithin(c, items, ItemsHeight(items));
      case _ =>
    }
  }

  lemma {:induction false} FieldsReachWithin(c: Config, fields: seq<Field>, bound: int)
    requires bound >= -1 && forall i :: 0 <= i < |fields| ==> Height(fields[i].value) <= bound
    ensures FieldsReach(c, fields) <= bound
    decreases fields, 0
  {
    if fields != [] {
      var last := fields[|fields| - 1];
      FieldsReachWithin(c, fields[..|fields| - 1], bound);
      ReachWithinHeight(c, last.value, c.sensitive(last.key));
    }
  }

  lemma {:induction false} ItemsReachWithin(c: Config, items: seq<Json>, bound: int)
    requires bound >= -1 && forall i :: 0 <= i < |items| ==> Height(items[i]) <= bound
    ensures ItemsReach(c, items) <= bound
    decreases items, 0
  {
    if items != [] {
      ItemsReachWithin(c, items[..|items| - 1], bound);
      ReachWithinHeight(c, items[|items| - 1], false);
    }
  }

  /** A value canonicalised within the redaction depth can only exceed the node limit. */
  lemma DepthLimitUnreachable(c: Config, v: Json, jsonDepth: nat)
    requires Height(v) <= jsonDepth <= c.maxDepth
    ensures 0 + Reach(c, v, false) <= c.maxDepth
  {
    ReachWithinHeight(c, v, false);
  }

  /** Redaction keeps a value proper and printable. */
  lemma {:induction false} RedactedProper(c: Config, v: Json, sensitive: bool)
    requires Proper(v) && JsonText.Printable(v)
    ensures Proper(Redacted(c, v, sensitive)) && JsonText.Printable(Redacted(c, v, sensitive))
    decreases v
  {
    if !Replaced(v, sensitive) {
      match v
      case Obj(fields) =>
        var once := RedactedFields(c, fields);
        forall i | 0 <= i < |fields| ensures Proper(once[i].value) && JsonText.Printable(once[i].value) {
          RedactedProper(c, fields[i].value, c.sensitive(fields[i].key));
        }
      case Arr(items) =>
        var once := RedactedItems(c, items);
        forall i | 0 <= i < |items| ensures Proper(once[i]) && JsonText.Printable(once[i]) {
          RedactedProper(c, items[i], false);
        }
      case _ =>
    }
  }

  /** redact: a fresh walk from the root. */
  method Redact(c: Config, v: Json) returns (r: Option<Json>, found: bool)
    ensures r.Some? <==> WithinLimits(c, v)
    ensures r.Some? ==> r.value == Redacted(c, v, false) && (found <==> Findings(c, [], v, false) != [])
  {
    var walk := new Walk(c);
    r := walk.Visit(v, [], 0, false);
    found := walk.findings != [];
  }

  /** The walk passes neither its node nor its depth limit. */
  predicate WithinLimits(c: Config, v: Json) { Nodes(c, v, false) <= c.maxNodes && Reach(c, v, false) <= c.maxDepth }

  // ------------------------------------------------------------ idempotence

  /** Redacting again changes nothing when the replacement is its own replacement. */
  lemma {:induction false} RedactedTwice(c: Config, v: Json, sensitive: bool)
    requires Valid(c.redactor) && JsonText.Printable(v)
    requires StableReplacement(c)
    ensures Redacted(c, Redacted(c, v, sensitive), sensitive) == Redacted(c, v, sensitive)
    decreases v
  {
    if Replaced(v, sensitive) {
      SecretNotEmpty(v);
      assert Safe(c.redactor.classes, c.redactor.replacement(StableSecret(v)));
    } else {
      match v
      case Obj(fields) =>
        var once := RedactedFields(c, fields);
        forall i | 0 <= i < |fields|
          ensures Redacted(c, once[i].value, c.sensitive(once[i].key)) == once[i].value
        {
          RedactedTwice(c, fields[i].value, c.sensitive(fields[i].key));
        }
        assert RedactedFields(c, once) == once;
      case Arr(items) =>
        var once := RedactedItems(c, items);
        forall i | 0 <= i < |items| ensures Redacted(c, once[i], false) == once[i] {
          RedactedTwice(c, items[i], false);
        }
        assert RedactedItems(c, once) == once;
      case Str(text) => RedactionIsIdempotent(c.redactor, text);
      case _ =>
    }
  }

  lemma SecretNotEmpty(v: Json)
    requires JsonText.Printable(v) && v != Str("")
    ensures StableSecret(v) != ""
  {
  }

  /** A replacement is its own replacement. */
  ghost predicate StableReplacement(c: Config) {
    forall s :: s != "" ==> c.redactor.replacement(c.redactor.replacement(s)) == c.redactor.replacement(s)
  }

  ghost predicate Idempotent(c: Config) {
    forall v :: JsonText.Printable(v) ==> Redacted(c, Redacted(c, v, false), false) == Redacted(c, v, false)
  }

  /** Fingerprints differ somewhere between a secret and its replacement. */
  ghost predicate Varies(f: Fingerprints) {
    f.key.Some? ==> exists secret :: secret != "" && Moves(f, secret)
  }

  predicate Moves(f: Fingerprints, secret: string)
    requires f.key.Some?
  {
    var once := ReplacementFor(f.(includePrefix := true), secret);
    FirstEight(f.hmac(f.key.value, once)) != FirstEight(f.hmac(f.key.value, secret))
  }

  /** Tree redaction is idempotent if and only if no fingerprint is shown: without
      one every secret has the same replacement, with one a replacement is
      fingerprinted again. */
  lemma IdempotentExactly(c: Config, f: Fingerprints, name: string)
    requires c.redactor == FingerprintRedactor(c.redactor.classes, f) && Sound(c.redactor.classes)
    requires Safe(c.redactor.classes, f.replacement) && HexDigests(f) && Varies(f) && c.sensitive(name)
    ensures Idempotent(c) <==> !(f.includePrefix && f.key.Some?)
  {
    if f.includePrefix && f.key.Some? {
      NotIdempotent(c, f, name);
    } else {
      FingerprintRedactorIsValid(c.redactor.classes, f);
      AlwaysIdempotent(c);
    }
  }

  lemma NotIdempotent(c: Config, f: Fingerprints, name: string)
    requires c.redactor == FingerprintRedactor(c.redactor.classes, f) && Varies(f) && c.sensitive(name)
    requires f.includePrefix && f.key.Some?
    ensures !Idempotent(c)
  {
    var secret :| secret != "" && Moves(f, secret);
    FingerprintedAgain(c, f, name, secret);
    assert JsonText.Printable(Obj([Field(name, Str(secret))]));
  }

  lemma AlwaysIdempotent(c: Config)
    requires Valid(c.redactor) && StableReplacement(c)
    ensures Idempotent(c)
  {
    forall v | JsonText.Printable(v) ensures Redacted(c, Redacted(c, v, false), false) == Redacted(c, v, false) {
      RedactedTwice(c, v, false);
    }
  }

  /** A sensitive field whose fingerprint moves is redacted differently each time. */
  lemma FingerprintedAgain(c: Config, f: Fingerprints, name: string, secret: string)
    requires c.redactor == FingerprintRedactor(c.redactor.classes, f) && c.sensitive(name) && secret != ""
    requires f.includePrefix && f.key.Some? && Moves(f, secret)
    ensures var once := Redacted(c, Obj([Field(name, Str(secret))]), false);
      && once == Obj([Field(name, Str(ReplacementFor(f, secret)))])
      && Redacted(c, once, false) == Obj([Field(name, Str(ReplacementFor(f, ReplacementFor(f, secret))))])
      && Redacted(c, once, false) != once
  {
    var r := ReplacementFor(f, secret);
    assert f.(includePrefix := true) == f;
    RedactedMember(c, name, secret);
    RedactedMember(c, name, r);
    Prefixed(f, secret);
    Prefixed(f, r);
  }

  lemma RedactedMember(c: Config, name: string, text: string)
    requires c.sensitive(name) && text != ""
    ensures Redacted(c, Obj([Field(name, Str(text))]), false) == Obj([Field(name, Str(c.redactor.replacement(text)))])
  {
    var fields := [Field(name, Str(text))];
    assert RedactedFields(c, fields)[0] == Field(name, Str(c.redactor.replacement(text)));
  }

  /** The shown digits can be read off a replacement. */
  lemma Prefixed(f: Fingerprints, secret: string)
    requires f.includePrefix && f.key.Some?
    ensures var r := ReplacementFor(f, secret);
      var front := RemoveSuffix(f.replacement, "]");
      r == front + ":" + FirstEight(f.hmac(f.key.value, secret)) + "]"
      && r[|front| + 1..|r| - 1] == FirstEight(f.hmac(f.key.value, secret))
  {
  }

  lemma DefaultIsIdempotent(c: Config)
    requires Sound(c.redactor.classes) && c.redactor == DefaultRedactor(c.redactor.classes)
    ensures Idempotent(c)
  {
    DefaultRedactorIsValid(c.redactor.classes);
    AlwaysIdempotent(c);
  }

  // -------------------------------------------- the persisted payload check

  const MAX_PERSISTED_DEPTH := 20

  /** _validate_json_value on a JSON value: only depth can refuse it. */
  predicate DomainAccepts(v: Json, depth: nat, maxDepth: nat)
    decreases v
  {
    && depth <= maxDepth
    && match v
       case Arr(items) => forall i :: 0 <= i < |items| ==> DomainAccepts(items[i], depth + 1, maxDepth)
       case Obj(fields) => forall i :: 0 <= i < |fields| ==> DomainAccepts(fields[i].value, depth + 1, maxDepth)
       case _ => true
  }

  const MAX_PERSISTED_BYTES := 65_536

  /** validate_json_object on an object: depth, and its size as printed. */
  predicate Storable(v: Json) {
    DomainAccepts(v, 0, MAX_PERSISTED_DEPTH) && |Text.Encode(JsonText.Print(v))| <= MAX_PERSISTED_BYTES
  }

  lemma {:induction false} DomainAcceptsExactly(v: Json, depth: nat, maxDepth: nat)
    ensures DomainAccepts(v, depth, maxDepth) <==> depth + Height(v) <= maxDepth
    decreases v
  {
    if depth <= maxDepth {
      match v
      case Arr(items) =>
        forall i | 0 <= i < |items|
          ensures DomainAccepts(items[i], depth + 1, maxDepth) <==> depth + 1 + Height(items[i]) <= maxDepth
        {
          DomainAcceptsExactly(items[i], depth + 1, maxDepth);
        }
        ItemsHeightBound(items, maxDepth - depth - 1);
      case Obj(fields) =>
        forall i | 0 <= i < |fields|
          ensures DomainAccepts(fields[i].value, depth + 1, maxDepth) <==>
            depth + 1 + Height(fields[i].value) <= maxDepth
        {
          DomainAcceptsExactly(fields[i].value, depth + 1, maxDepth);
        }
        FieldsHeightBound(fields, maxDepth - depth - 1);
      case _ =>
    }
  }

  /** A list nested n deep. */
  function Nested(n: nat): (v: Json)
    ensures Height(v) == n
  {
    if n == 0 then Null else
      var inner := Nested(n - 1);
      assert [inner][1..] == [];
      Arr([inner])
  }

  lemma {:induction false} NestedUnchanged(c: Config, n: nat)
    ensures Redacted(c, Nested(n), false) == Nested(n)
  {
    if n > 0 {
      NestedUnchanged(c, n - 1);
      assert [Nested(n - 1)][..0] == [];
    }
  }

  /** A sequence nested n deep, as it reaches the boundary. */
  function NestedPayload(n: nat): (v: Payloads.PyValue)
    ensures Payloads.Genuine(v) && Payloads.JsonCompatible(v)
  {
    if n == 0 then Payloads.PNone else Payloads.PSequence([NestedPayload(n - 1)])
  }

  lemma {:induction false} NestedIsErased(n: nat)
    ensures Payloads.Erase(NestedPayload(n)) == Nested(n)
  {
    if n > 0 {
      var inner := [NestedPayload(n - 1)];
      NestedIsErased(n - 1);
      assert Payloads.EraseItems(inner) == [Nested(n - 1)];
    }
  }

  lemma {:induction false} NestedFits(n: nat)
    ensures Payloads.TextsWithin(Nested(n), 0) && Payloads.NumeralsWithin(Nested(n))
  {
    if n > 0 { NestedFits(n - 1); }
  }

  /** Every payload that is accepted with this JSON depth and redacted within the
      redactor's limits passes the persisted check, whatever the other limits. */
  ghost predicate AlwaysPersistable(c: Config, jsonDepth: nat) {
    forall v, limits: Payloads.Limits ::
      Payloads.Genuine(v) && limits.maxDepth == jsonDepth && Payloads.Acceptable(v, limits)
      && WithinLimits(c, Payloads.Erase(v)) ==>
        DomainAccepts(Redacted(c, Payloads.Erase(v), false), 0, MAX_PERSISTED_DEPTH)
  }

  /** The depth check on persisted payloads cannot fail exactly when the JSON depth or
      the redaction depth is at most 20, or the redactor visits fewer than 22 nodes. */
  lemma PersistedDepthExactly(c: Config, jsonDepth: nat)
    ensures AlwaysPersistable(c, jsonDepth)
      <==> jsonDepth <= 20 || c.maxDepth <= 20 || c.maxNodes < 22
  {
    if jsonDepth <= MAX_PERSISTED_DEPTH || c.maxDepth <= MAX_PERSISTED_DEPTH || c.maxNodes < MAX_PERSISTED_DEPTH + 2 {
      forall v, limits: Payloads.Limits |
        Payloads.Genuine(v) && limits.maxDepth == jsonDepth && Payloads.Acceptable(v, limits)
        && WithinLimits(c, Payloads.Erase(v))
        ensures DomainAccepts(Redacted(c, Payloads.Erase(v), false), 0, MAX_PERSISTED_DEPTH)
      {
        RedactedHeight(c, Payloads.Erase(v), false);
        RedactedWithinReach(c, Payloads.Erase(v), false);
        DomainAcceptsExactly(Redacted(c, Payloads.Erase(v), false), 0, MAX_PERSISTED_DEPTH);
      }
    } else {
      TooDeepIsAccepted(c, MAX_PERSISTED_DEPTH + 1, jsonDepth);
    }
  }

  /** What comes out is no deeper than the walk went, and every level cost a visit. */
  lemma {:induction false} RedactedWithinReach(c: Config, v: Json, sensitive: bool)
    ensures Height(Redacted(c, v, sensitive)) <= Reach(c, v, sensitive) < Nodes(c, v, sensitive)
    decreases v, 1
  {
    if !Replaced(v, sensitive) {
      match v
      case Obj(fields) => FieldsWithinReach(c, fields);
      case Arr(items) => ItemsWithinReach(c, items);
      case _ =>
    }
  }

  lemma {:induction false} FieldsWithinReach(c: Config, fields: seq<Field>)
    ensures FieldsHeight(RedactedFields(c, fields)) <= FieldsReach(c, fields) < FieldsNodes(c, fields)
    decreases fields, 0
  {
    if fields != [] {
      var front, last := fields[..|fields| - 1], fields[|fields| - 1];
      FieldsWithinReach(c, front);
      RedactedWithinReach(c, last.value, c.sensitive(last.key));
      FieldsHeightBound(RedactedFields(c, front), FieldsReach(c, front));
      FieldsHeightBound(RedactedFields(c, fields), FieldsReach(c, fields));
    }
  }

  lemma {:induction false} ItemsWithinReach(c: Config, items: seq<Json>)
    ensures ItemsHeight(RedactedItems(c, items)) <= ItemsReach(c, items) < ItemsNodes(c, items)
    decreases items, 0
  {
    if items != [] {
      var front, last := items[..|items| - 1], items[|items| - 1];
      ItemsWithinReach(c, front);
      RedactedWithinReach(c, last, false);
      ItemsHeightBound(RedactedItems(c, front), ItemsReach(c, front));
      ItemsHeightBound(RedactedItems(c, items), ItemsReach(c, items));
    }
  }

  lemma {:induction false} NestedCosts(c: Config, n: nat)
    ensures Nodes(c, Nested(n), false) == n + 1 && Reach(c, Nested(n), false) == n
  {
    if n > 0 {
      var items := [Nested(n - 1)];
      NestedCosts(c, n - 1);
      assert items[..|items| - 1] == [] && items[|items| - 1] == Nested(n - 1);
      assert ItemsNodes(c, items) == n && ItemsReach(c, items) == n - 1;
    }
  }

  /** A list nested too deep for the check, but for nothing before it. */
  lemma TooDeepIsAccepted(c: Config, n: nat, jsonDepth: nat)
    requires MAX_PERSISTED_DEPTH < n <= jsonDepth && n <= c.maxDepth && n < c.maxNodes
    ensures !AlwaysPersistable(c, jsonDepth)
  {
    var v := NestedPayload(n);
    NestedIsErased(n);
    NestedFits(n);
    NestedCosts(c, n);
    var limits := Payloads.Limits(|CanonicalJson.CanonicalBytes(Nested(n))|, jsonDepth, 0);
    assert Payloads.Acceptable(v, limits);
    NestedUnchanged(c, n);
    DomainAcceptsExactly(Nested(n), 0, MAX_PERSISTED_DEPTH);
    assert WithinLimits(c, Payloads.Erase(v));
  }
}
