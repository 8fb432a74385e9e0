/** The translation of enabled tools into provider functions (application/agent_runs.py). */
module ToolTranslation {
  import opened Options
  import opened Text
  import JsonValues
  import Sorting

  datatype Definition = Definition(
    id: nat, name: string, version: string, description: string, schema: JsonValues.Json, enabled: bool)

  datatype ProviderTool = ProviderTool(name: string, description: string, parameters: JsonValues.Json)

  /** The provider's functions, and the binding of each name back to its tool. */
  datatype Translation = Translation(definitions: seq<ProviderTool>, bindings: map<string, Definition>)

  predicate NameChar(c: char) { 'A' <= c <= 'Z' || 'a' <= c <= 'z' || '0' <= c <= '9' || c == '_' || c == '-' }

  /** re.sub of everything else by an underscore. */
  function Normalized(name: string): (r: string)
    ensures |r| == |name| && forall i :: 0 <= i < |r| ==> NameChar(r[i])
  {
    seq(|name|, i requires 0 <= i < |name| => if NameChar(name[i]) then name[i] else '_')
  }

  predicate ProviderName(name: string) { 1 <= |name| <= 64 && forall i :: 0 <= i < |name| ==> NameChar(name[i]) }

  /** (name, version, str(id)) */
  predicate Precedes(a: Definition, b: Definition) {
    || (Leq(a.name, b.name) && a.name != b.name)
    || (a.name == b.name && Leq(a.version, b.version) && a.version != b.version)
    || (a.name == b.name && a.version == b.version && a.id <= b.id)
  }

  lemma PrecedesRanks()
    ensures Sorting.Ranking(Precedes)
  {
    LeqIsTotalOrder();
  }

  function Enabled(tools: seq<Definition>): seq<Definition> {
    if tools == [] then []
    else (if tools[0].enabled then [tools[0]] else []) + Enabled(tools[1..])
  }

  /** A permutation of the tools permutes the enabled ones. */
  lemma {:induction false} EnabledCounts(tools: seq<Definition>)
    ensures forall t :: multiset(Enabled(tools))[t] == if t.enabled then multiset(tools)[t] else 0
  {
    if tools != [] {
      EnabledCounts(tools[1..]);
      assert tools == [tools[0]] + tools[1..];
    }
  }

  /** Different tools keep different, well-formed provider names. */
  ghost predicate Clear(tools: seq<Definition>) {
    && (forall t :: t in tools ==> ProviderName(Normalized(t.name)))
    && forall i, j :: 0 <= i < j < |tools| ==> Normalized(tools[i].name) != Normalized(tools[j].name)
  }

  /** What the translation of a list of tools is, in its order. */
  ghost predicate Translates(tools: seq<Definition>, r: Translation) {
    && |r.definitions| == |tools|
    && (forall i :: 0 <= i < |tools| ==>
          r.definitions[i] == ProviderTool(Normalized(tools[i].name), tools[i].description, tools[i].schema))
    && (forall k :: k in r.bindings <==> exists i :: 0 <= i < |tools| && Normalized(tools[i].name) == k)
    && forall i :: 0 <= i < |tools| ==>
         Normalized(tools[i].name) in r.bindings && r.bindings[Normalized(tools[i].name)] == tools[i]
  }

  /** build_provider_tools: it succeeds exactly when the enabled tools fit the limit
      and stay apart after normalisation, and it translates them in sorted order. */
  method BuildProviderTools(tools: seq<Definition>, maxTools: nat) returns (r: Option<Translation>)
    ensures r.Some? <==> |Enabled(tools)| <= maxTools && Clear(Enabled(tools))
    ensures r.Some? ==> Translates(Sorting.Sort(Precedes, Enabled(tools)), r.value)
  {
    var enabled := Sorting.Sort(Precedes, Enabled(tools));
    Sorting.SortKeepsElements(Precedes, Enabled(tools));
    ClearIsOrderFree(Enabled(tools), enabled);
    if |enabled| > maxTools { return None; }
    r := Translate(enabled);
  }

  /** One of the first n tools has this name. */
  ghost predicate Used(enabled: seq<Definition>, n: nat, name: string) {
    exists i :: 0 <= i < n <= |enabled| && enabled[i].name == name
  }

  lemma UsedStays(enabled: seq<Definition>, n: nat)
    requires n < |enabled|
    ensures forall name :: Used(enabled, n, name) ==> Used(enabled, n + 1, name)
    ensures Used(enabled, n + 1, enabled[n].name)
  {
  }

  /** The loop over the sorted tools. */
  method Translate(enabled: seq<Definition>) returns (r: Option<Translation>)
    ensures r.Some? <==> Clear(enabled)
    ensures r.Some? ==> Translates(enabled, r.value)
  {
    var internalNames: set<string> := {};
    var bindings: map<string, Definition> := map[];
    var definitions: seq<ProviderTool> := [];
    for n := 0 to |enabled|
      invariant Clear(enabled[..n]) && Translates(enabled[..n], Translation(definitions, bindings))
      invariant forall name :: name in internalNames ==> Used(enabled, n, name)
    {
      var tool := enabled[n];
      var providerName := Normalized(tool.name);
      if tool.name in internalNames || !ProviderName(providerName) || providerName in bindings {
        Unclear(enabled, n, Translation(definitions, bindings));
        return None;
      }
      ClearExtends(enabled, n, Translation(definitions, bindings));
      TranslatesExtends(enabled, n, Translation(definitions, bindings));
      UsedStays(enabled, n);
      internalNames := internalNames + {tool.name};
      bindings := bindings[providerName := tool];
      definitions := definitions + [ProviderTool(providerName, tool.description, tool.schema)];
    }
    assert enabled[..|enabled|] == enabled;
    return Some(Translation(definitions, bindings));
  }

  lemma Unclear(enabled: seq<Definition>, n: nat, r: Translation)
    requires n < |enabled| && Translates(enabled[..n], r)
    requires || !ProviderName(Normalized(enabled[n].name))
             || Normalized(enabled[n].name) in r.bindings
             || Used(enabled, n, enabled[n].name)
    ensures !Clear(enabled)
  {
    assert enabled[n] in enabled;
    if Normalized(enabled[n].name) in r.bindings {
      var i :| 0 <= i < |enabled[..n]| && Normalized(enabled[..n][i].name) == Normalized(enabled[n].name);
      assert Normalized(enabled[i].name) == Normalized(enabled[n].name);
    }
  }

  lemma ClearExtends(enabled: seq<Definition>, n: nat, r: Translation)
    requires n < |enabled| && Clear(enabled[..n]) && ProviderName(Normalized(enabled[n].name))
    requires Translates(enabled[..n], r) && Normalized(enabled[n].name) !in r.bindings
    ensures Clear(enabled[..n + 1])
  {
    var all, front := enabled[..n + 1], enabled[..n];
    assert all == front + [enabled[n]];
    forall i, j | 0 <= i < j < |all| ensures Normalized(all[i].name) != Normalized(all[j].name) {
      assert all[i] == front[i];
      if j < n { assert all[j] == front[j]; }
    }
  }

  lemma TranslatesExtends(enabled: seq<Definition>, n: nat, r: Translation)
    requires n < |enabled| && Translates(enabled[..n], r) && Normalized(enabled[n].name) !in r.bindings
    ensures var tool := enabled[n];
      Translates(enabled[..n + 1],
        Translation(r.definitions + [ProviderTool(Normalized(tool.name), tool.description, tool.schema)],
                    r.bindings[Normalized(tool.name) := tool]))
  {
    var all, front := enabled[..n + 1], enabled[..n];
    assert forall i :: 0 <= i < n ==> all[i] == front[i];
    assert all[n] == enabled[n];
    forall i | 0 <= i < n
        ensures Normalized(all[i].name) in r.bindings && r.bindings[Normalized(all[i].name)] == all[i] {
      assert front[i] == all[i];
    }
  }

  lemma ClearIsOrderFree(a: seq<Definition>, b: seq<Definition>)
    requires multiset(a) == multiset(b)
    ensures Clear(a) <==> Clear(b)
  {
    if Clear(a) { ClearMoves(a, b); }
    if Clear(b) { ClearMoves(b, a); }
  }

  lemma ClearMoves(a: seq<Definition>, b: seq<Definition>)
    requires Clear(a) && multiset(a) == multiset(b)
    ensures Clear(b)
  {
    Sorting.RearrangementDistinct(a, b);
    forall i, j | 0 <= i < j < |b| ensures Normalized(b[i].name) != Normalized(b[j].name) {
      assert b[i] in a && b[j] in a && b[i] != b[j];
    }
  }

  // ------------------------------------------------ what the bindings are

  /** Bindings invert normalisation on the enabled tools: each name leads back to its
      one source tool, and every source tool is reached. */
  lemma BindingsInvert(tools: seq<Definition>, r: Translation)
    requires Translates(Sorting.Sort(Precedes, Enabled(tools)), r)
    ensures forall t :: t in Enabled(tools) ==> Normalized(t.name) in r.bindings && r.bindings[Normalized(t.name)] == t
    ensures forall k :: k in r.bindings ==> r.bindings[k] in Enabled(tools) && Normalized(r.bindings[k].name) == k
    ensures |r.definitions| == |Enabled(tools)|
  {
    var sorted := Sorting.Sort(Precedes, Enabled(tools));
    Sorting.SortKeepsElements(Precedes, Enabled(tools));
    SameMembers(Enabled(tools), sorted);
    forall t | t in Enabled(tools) ensures Normalized(t.name) in r.bindings && r.bindings[Normalized(t.name)] == t {
      var i :| 0 <= i < |sorted| && sorted[i] == t;
    }
    forall k | k in r.bindings ensures r.bindings[k] in Enabled(tools) && Normalized(r.bindings[k].name) == k {
      var i :| 0 <= i < |sorted| && Normalized(sorted[i].name) == k;
      assert r.bindings[k] == sorted[i] && sorted[i] in sorted;
    }
  }

  lemma SameMembers(a: seq<Definition>, b: seq<Definition>)
    requires multiset(a) == multiset(b)
    ensures forall t :: t in a <==> t in b
  {
    forall t ensures t in a <==> t in b {
      assert t in a <==> t in multiset(a);
      assert t in b <==> t in multiset(b);
    }
  }

  /** Two translations of the same tools in any order are the same translation. */
  lemma TranslationIsOrderFree(a: seq<Definition>, b: seq<Definition>, r: Translation, q: Translation)
    requires multiset(a) == multiset(b) && Clear(Enabled(a))
    requires Translates(Sorting.Sort(Precedes, Enabled(a)), r) && Translates(Sorting.Sort(Precedes, Enabled(b)), q)
    ensures r == q
  {
    EnabledCounts(a);
    EnabledCounts(b);
    assert multiset(Enabled(a)) == multiset(Enabled(b));
    PrecedesRanks();
    NoTiesWhenClear(Enabled(a));
    Sorting.SortIsCanonical(Precedes, Enabled(a), Enabled(b));
    OneTranslation(Sorting.Sort(Precedes, Enabled(a)), r, q);
  }

  lemma NoTiesWhenClear(tools: seq<Definition>)
    requires Clear(tools)
    ensures Sorting.NoTies(Precedes, tools)
  {
    LeqIsTotalOrder();
    forall a, b | a in tools && b in tools && Precedes(a, b) && Precedes(b, a) ensures a == b {
      assert a.name == b.name;
      var i :| 0 <= i < |tools| && tools[i] == a;
      var j :| 0 <= j < |tools| && tools[j] == b;
      assert !(i < j) && !(j < i);
    }
  }

  lemma OneTranslation(tools: seq<Definition>, r: Translation, q: Translation)
    requires Translates(tools, r) && Translates(tools, q)
    ensures r == q
  {
    assert r.definitions == q.definitions;
    assert forall k :: k in r.bindings <==> k in q.bindings;
    forall k | k in r.bindings ensures r.bindings[k] == q.bindings[k] {
      var i :| 0 <= i < |tools| && Normalized(tools[i].name) == k;
    }
    assert r.bindings == q.bindings;
  }

  /** A name of allowed characters is kept; every other character becomes an
      underscore. */
  lemma NormalizedExactly(name: string, i: nat)
    requires i < |name|
    ensures |Normalized(name)| == |name|
    ensures Normalized(name)[i] == '_' || Normalized(name)[i] == name[i]
    ensures Normalized(name)[i] != name[i] <==> !NameChar(name[i])
    ensures (forall j :: 0 <= j < |name| ==> NameChar(name[j])) ==> Normalized(name) == name
  {
  }

  lemma SortedTools(tools: seq<Definition>)
    ensures var sorted := Sorting.Sort(Precedes, tools);
      && (forall t :: t in sorted <==> t in tools) && Sorting.SortedBy(Precedes, sorted)
  {
    var sorted := Sorting.Sort(Precedes, tools);
    PrecedesRanks();
    Sorting.SortSorts(Precedes, tools);
    Sorting.SortKeepsElements(Precedes, tools);
    forall t ensures t in sorted <==> t in tools {
      assert t in sorted <==> t in multiset(sorted);
      assert t in tools <==> t in multiset(tools);
    }
  }

  lemma {:induction false} EnabledExactly(tools: seq<Definition>)
    ensures forall t :: t in Enabled(tools) <==> t in tools && t.enabled
  {
    if tools != [] {
      EnabledExactly(tools[1..]);
      assert tools == [tools[0]] + tools[1..];
    }
  }

  /** The translated tools are exactly the enabled ones, in text order of their names. */
  lemma TranslatedInOrder(tools: seq<Definition>)
    ensures var sorted := Sorting.Sort(Precedes, Enabled(tools));
      && (forall t :: t in sorted <==> t in tools && t.enabled)
      && forall i, j :: 0 <= i < j < |sorted| ==>
           && Leq(sorted[i].name, sorted[j].name)
           && (sorted[i].name == sorted[j].name ==> Leq(sorted[i].version, sorted[j].version))
  {
    SortedTools(Enabled(tools));
    EnabledExactly(tools);
    LeqIsTotalOrder();
  }
}
