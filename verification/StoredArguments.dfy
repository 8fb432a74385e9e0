/** Arguments that are accepted and redacted but cannot be stored: replacing short
    secrets makes a payload grow past the size of a persisted object
    (domain/common.py validate_json_object, security/redaction.py). */
module StoredArguments {
  import opened JsonValues
  import opened JsonText
  import opened Text
  import opened TreeRedaction
  import CanonicalJson
  import Payloads
  import Sorting

  /** A token by itself, as one array element. */
  function Token(text: string): Json { Obj([Field("token", Str(text))]) }

  function Tokens(n: nat, text: string): (r: seq<Json>)
    ensures |r| == n && forall i :: 0 <= i < n ==> r[i] == Token(text)
  {
    if n == 0 then [] else [Token(text)] + Tokens(n - 1, text)
  }

  /** An argument object holding n short tokens. */
  function Secrets(n: nat, text: string): Json { Obj([Field("k", Arr(Tokens(n, text)))]) }

  // ------------------------------------------------------------- its size

  predicate Ascii(s: string) { forall i :: 0 <= i < |s| ==> s[i] < '\U{0080}' }

  lemma {:induction false} AsciiSize(s: string)
    requires Ascii(s)
    ensures |Encode(s)| == |s|
  {
    if s != "" { AsciiSize(s[1..]); }
  }

  /** Nothing to escape. */
  predicate Plain(s: string) { forall i :: 0 <= i < |s| ==> ' ' <= s[i] < '\U{0080}' && s[i] != '"' && s[i] != '\\' }

  lemma {:induction false} PlainEscapes(s: string)
    requires Plain(s)
    ensures Escape(s) == s && Ascii(s)
  {
    if s != "" { PlainEscapes(s[1..]); }
  }

  lemma PrintedMember(key: string, value: Json)
    requires Plain(key)
    ensures |Print(Obj([Field(key, value)]))| == |key| + 5 + |Print(value)|
    ensures Ascii(Print(value)) ==> Ascii(Print(Obj([Field(key, value)])))
  {
    PlainEscapes(key);
    var fields := [Field(key, value)];
    assert PrintFields(fields) == PrintMember(fields[0]);
  }

  lemma PrintedToken(text: string)
    requires Plain(text)
    ensures |Print(Token(text))| == |text| + 12 && Ascii(Print(Token(text)))
  {
    PlainEscapes(text);
    PrintedMember("token", Str(text));
  }

  lemma {:induction false} PrintedTokens(n: nat, text: string)
    requires n >= 1 && Plain(text)
    ensures |PrintItems(Tokens(n, text))| == n * (|text| + 13) - 1 && Ascii(PrintItems(Tokens(n, text)))
  {
    PrintedToken(text);
    if n > 1 {
      PrintedTokens(n - 1, text);
      assert Tokens(n, text)[1..] == Tokens(n - 1, text);
    }
  }

  lemma SecretsSize(n: nat, text: string)
    requires n >= 1 && Plain(text)
    ensures |Encode(Print(Secrets(n, text)))| == n * (|text| + 13) + 7
  {
    PrintedTokens(n, text);
    PrintedMember("k", Arr(Tokens(n, text)));
    AsciiSize(Print(Secrets(n, text)));
  }

  // --------------------------------------------------------- its acceptance

  lemma CanonicalToken(text: string)
    ensures CanonicalJson.Canonical(Token(text)) == Token(text)
  {
    AloneIsSorted(Field("token", Str(text)));
  }

  lemma AloneIsSorted(f: Field)
    requires CanonicalJson.Canonical(f.value) == f.value
    ensures CanonicalJson.Canonical(Obj([f])) == Obj([f])
  {
    var sorted := CanonicalJson.CanonicalFields([f]);
    assert sorted == [f];
    assert sorted[1..] == [];
    assert Sorting.Sort(CanonicalJson.KeyLeq, sorted) == [f];
  }

  lemma CanonicalSecrets(n: nat, text: string)
    ensures CanonicalJson.Canonical(Secrets(n, text)) == Secrets(n, text)
  {
    CanonicalToken(text);
    assert CanonicalJson.CanonicalItems(Tokens(n, text)) == Tokens(n, text);
    AloneIsSorted(Field("k", Arr(Tokens(n, text))));
  }

  lemma SecretsFit(n: nat, text: string, longest: nat)
    requires 5 <= longest && |text| <= longest
    ensures Proper(Secrets(n, text)) && Printable(Secrets(n, text)) && Height(Secrets(n, text)) <= 3
    ensures Payloads.TextsWithin(Secrets(n, text), longest) && Payloads.NumeralsWithin(Secrets(n, text))
  {
    var token := Token(text);
    FieldsHeightBound([Field("token", Str(text))], 0);
    ItemsHeightBound(Tokens(n, text), 1);
    FieldsHeightBound([Field("k", Arr(Tokens(n, text)))], 2);
    assert Proper(token) && Printable(token);
    assert Payloads.TextsWithin(token, longest) && Payloads.NumeralsWithin(token);
  }

  // ---------------------------------------------------------- its redaction

  lemma RedactedToken(c: Config, text: string)
    requires c.sensitive("token") && text != ""
    ensures Redacted(c, Token(text), false) == Token(c.redactor.replacement(text))
    ensures Nodes(c, Token(text), false) == 2 && Reach(c, Token(text), false) == 1
  {
    RedactedMember(c, "token", text);
    var fields := [Field("token", Str(text))];
    assert fields[..|fields| - 1] == [];
    assert FieldsNodes(c, fields) == 1 && FieldsReach(c, fields) == 0;
  }

  lemma {:induction false} TokensCost(c: Config, n: nat, text: string)
    requires c.sensitive("token") && text != ""
    ensures ItemsNodes(c, Tokens(n, text)) == 2 * n && ItemsReach(c, Tokens(n, text)) <= 1
  {
    if n > 0 {
      RedactedToken(c, text);
      TokensCost(c, n - 1, text);
      assert Tokens(n, text)[..n - 1] == Tokens(n - 1, text);
    }
  }

  lemma RedactedSecrets(c: Config, n: nat, text: string)
    requires c.sensitive("token") && !c.sensitive("k") && text != ""
    ensures Redacted(c, Secrets(n, text), false) == Secrets(n, c.redactor.replacement(text))
    ensures Nodes(c, Secrets(n, text), false) == 2 * n + 2 && Reach(c, Secrets(n, text), false) <= 3
  {
    RedactedToken(c, text);
    TokensCost(c, n, text);
    var items := Tokens(n, text);
    assert RedactedItems(c, items) == Tokens(n, c.redactor.replacement(text));
    var fields := [Field("k", Arr(items))];
    assert fields[..|fields| - 1] == [];
    assert RedactedFields(c, fields) == [Field("k", Redacted(c, Arr(items), false))];
    assert FieldsNodes(c, fields) == Nodes(c, Arr(items), false)
        && FieldsReach(c, fields) == Reach(c, Arr(items), false);
  }

  // ------------------------------------------------------------ the overflow

  const DEFAULT_LIMITS := Payloads.Limits(65_536, 20, 51_200)

  lemma AcceptedSecrets(n: nat, text: string)
    requires Plain(text) && 1 <= |text| <= 51_200 && n >= 1 && n * (|text| + 13) + 7 <= 65_536
    ensures var v := Payloads.Lift(Secrets(n, text));
      && Payloads.Genuine(v) && v.PMapping? && Payloads.Acceptable(v, DEFAULT_LIMITS)
      && Payloads.Erase(v) == Secrets(n, text)
  {
    SecretsFit(n, text, 51_200);
    Payloads.LiftErases(Secrets(n, text));
    CanonicalSecrets(n, text);
    SecretsSize(n, text);
  }

  /** Redacted, the object can be stored exactly while the replacements leave room. */
  lemma SecretsStorableExactly(c: Config, n: nat, text: string)
    requires c.sensitive("token") && !c.sensitive("k") && text != "" && n >= 1
    requires Plain(c.redactor.replacement(text)) && |c.redactor.replacement(text)| <= 51_200
    ensures Storable(Redacted(c, Secrets(n, text), false))
      <==> n * (|c.redactor.replacement(text)| + 13) + 7 <= 65_536
  {
    var shown := c.redactor.replacement(text);
    RedactedSecrets(c, n, text);
    SecretsSize(n, shown);
    SecretsFit(n, shown, 51_200);
    DomainAcceptsExactly(Secrets(n, shown), 0, MAX_PERSISTED_DEPTH);
  }

  /** With the default limits and a replacement as long as "[REDACTED]", between 2850
      and 4680 one-letter tokens are accepted and redacted, and the redacted object is
      too large to be stored. */
  lemma AcceptedButNotStorable(c: Config, n: nat, text: string)
    requires c.sensitive("token") && !c.sensitive("k") && Plain(text) && |text| == 1
    requires Plain(c.redactor.replacement(text)) && |c.redactor.replacement(text)| == 10
    requires c.maxDepth == 20 && c.maxNodes == 10_000 && 2850 <= n <= 4680
    ensures var v := Payloads.Lift(Secrets(n, text));
      && Payloads.Genuine(v) && v.PMapping? && Payloads.Acceptable(v, DEFAULT_LIMITS)
      && WithinLimits(c, Payloads.Erase(v)) && !Storable(Redacted(c, Payloads.Erase(v), false))
  {
    AcceptedSecrets(n, text);
    RedactedSecrets(c, n, text);
    SecretsStorableExactly(c, n, text);
  }
}
