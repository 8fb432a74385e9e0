/** Request identity: length-prefixed framing under an injective digest
    (security/payloads.py request_hash, application/agent_runs.py
    deterministic_agent_idempotency_key). */
module RequestIdentity {
  import opened Options
  import opened Text
  import opened JsonValues
  import JsonText
  import CanonicalJson

  const TWO_TO_THE_64: nat := 0x1_0000_0000_0000_0000

  /** The digest is only assumed to have no collisions. */
  type Digest = seq<Byte> -> string

  ghost predicate Injective(digest: Digest) {
    forall a, b :: digest(a) == digest(b) ==> a == b
  }

  /** n.to_bytes(width, "big") for an n that fits. */
  function BigEndian(n: nat, width: nat): (bs: seq<Byte>)
    ensures |bs| == width
  {
    if width == 0 then [] else BigEndian(n / 256, width - 1) + [n % 256]
  }

  function Power256(width: nat): (p: nat)
    ensures p > 0
  {
    if width == 0 then 1 else 256 * Power256(width - 1)
  }

  lemma {:induction false} BigEndianInjective(m: nat, n: nat, width: nat)
    requires m < Power256(width) && n < Power256(width)
    requires BigEndian(m, width) == BigEndian(n, width)
    ensures m == n
  {
    if width > 0 {
      var a, b := BigEndian(m, width), BigEndian(n, width);
      assert a[..width - 1] == BigEndian(m / 256, width - 1);
      assert b[..width - 1] == BigEndian(n / 256, width - 1);
      assert a[width - 1] == m % 256 && b[width - 1] == n % 256;
      BigEndianInjective(m / 256, n / 256, width - 1);
    }
  }

  /** The number these bytes are, the first one weighing most. */
  function Number(bs: seq<Byte>): nat {
    if bs == [] then 0 else 256 * Number(bs[..|bs| - 1]) + bs[|bs| - 1]
  }

  /** The bytes of a number that fits read back as the number. */
  lemma {:induction false} BigEndianReads(n: nat, width: nat)
    requires n < Power256(width)
    ensures Number(BigEndian(n, width)) == n
  {
    if width > 0 {
      BigEndianReads(n / 256, width - 1);
      assert BigEndian(n, width)[..width - 1] == BigEndian(n / 256, width - 1);
    }
  }

  predicate Encodable(components: seq<seq<Byte>>) {
    forall i :: 0 <= i < |components| ==> |components[i]| < TWO_TO_THE_64
  }

  /** What the digest consumes: each component after its 8-byte length. */
  function Frame(components: seq<seq<Byte>>): seq<Byte> {
    if components == [] then []
    else BigEndian(|components[0]|, 8) + components[0] + Frame(components[1..])
  }

  lemma {:induction false} FrameAppend(front: seq<seq<Byte>>, last: seq<Byte>)
    ensures Frame(front + [last]) == Frame(front) + (BigEndian(|last|, 8) + last)
  {
    if front == [] {
      assert front + [last] == [last];
      assert Frame([last]) == BigEndian(|last|, 8) + last + Frame([]);
    } else {
      FrameAppend(front[1..], last);
      assert (front + [last])[1..] == front[1..] + [last];
    }
  }

  /** The digest loop of request_hash; None is the OverflowError of to_bytes. */
  method DigestComponents(digest: Digest, components: seq<seq<Byte>>) returns (r: Option<string>)
    ensures r.Some? <==> Encodable(components)
    ensures r.Some? ==> r.value == digest(Frame(components))
  {
    var consumed: seq<Byte> := [];
    for n := 0 to |components|
      invariant consumed == Frame(components[..n])
      invariant Encodable(components[..n])
    {
      var component := components[n];
      if |component| >= TWO_TO_THE_64 { return None; }
      FrameAppend(components[..n], component);
      assert components[..n + 1] == components[..n] + [component];
      consumed := consumed + BigEndian(|component|, 8);
      consumed := consumed + component;
      assert consumed == Frame(components[..n]) + (BigEndian(|component|, 8) + component);
    }
    assert components[..|components|] == components;
    return Some(digest(consumed));
  }

  /** The framing is uniquely decodable, whatever the number of components. */
  lemma {:induction false} FrameInjective(a: seq<seq<Byte>>, b: seq<seq<Byte>>)
    requires Encodable(a) && Encodable(b) && Frame(a) == Frame(b)
    ensures a == b
  {
    if a == [] || b == [] {
      assert a == [] <==> Frame(a) == [];
      assert b == [] <==> Frame(b) == [];
    } else {
      var f, g := Frame(a), Frame(b);
      assert f[..8] == BigEndian(|a[0]|, 8) && g[..8] == BigEndian(|b[0]|, 8);
      EightBytesFit();
      BigEndianInjective(|a[0]|, |b[0]|, 8);
      var k := 8 + |a[0]|;
      assert f[8..k] == a[0] && g[8..k] == b[0];
      assert f[k..] == Frame(a[1..]) && g[k..] == Frame(b[1..]);
      FrameInjective(a[1..], b[1..]);
      assert a == [a[0]] + a[1..] && b == [b[0]] + b[1..];
    }
  }

  // ------------------------------------------------------ tool-call requests

  datatype Identity = Identity(session: string, tool: string, version: string, arguments: seq<Byte>)

  function IdentityComponents(r: Identity): seq<seq<Byte>> {
    [Encode(r.session), Encode(r.tool), Encode(r.version), r.arguments]
  }

  /** The frame of a request: session, tool, version and arguments, each after eight
      bytes that say how long it is, the first byte weighing most. */
  lemma IdentityFrame(r: Identity) returns (lengths: seq<seq<Byte>>)
    requires Encodable(IdentityComponents(r))
    ensures |lengths| == 4 && forall i :: 0 <= i < 4 ==> |lengths[i]| == 8
    ensures Number(lengths[0]) == |Encode(r.session)| && Number(lengths[1]) == |Encode(r.tool)|
    ensures Number(lengths[2]) == |Encode(r.version)| && Number(lengths[3]) == |r.arguments|
    ensures Frame(IdentityComponents(r)) ==
      lengths[0] + Encode(r.session) + (lengths[1] + Encode(r.tool) + (lengths[2] + Encode(r.version)
        + (lengths[3] + r.arguments)))
  {
    var cs := IdentityComponents(r);
    EightBytesFit();
    forall i | 0 <= i < 4 ensures Number(BigEndian(|cs[i]|, 8)) == |cs[i]| {
      BigEndianReads(|cs[i]|, 8);
    }
    lengths := [BigEndian(|cs[0]|, 8), BigEndian(|cs[1]|, 8), BigEndian(|cs[2]|, 8), BigEndian(|cs[3]|, 8)];
    FrameOfFour(cs[0], cs[1], cs[2], cs[3]);
  }

  lemma FrameOfFour(a: seq<Byte>, b: seq<Byte>, c: seq<Byte>, d: seq<Byte>)
    ensures Frame([a, b, c, d]) ==
      BigEndian(|a|, 8) + a + (BigEndian(|b|, 8) + b + (BigEndian(|c|, 8) + c + (BigEndian(|d|, 8) + d)))
  {
    assert [a, b, c, d][1..] == [b, c, d] && [b, c, d][1..] == [c, d] && [c, d][1..] == [d] && [d][1..] == [];
    assert Frame([d]) == BigEndian(|d|, 8) + d;
    assert Frame([c, d]) == BigEndian(|c|, 8) + c + Frame([d]);
    assert Frame([b, c, d]) == BigEndian(|b|, 8) + b + Frame([c, d]);
  }

  lemma EightBytesFit()
    ensures Power256(8) == TWO_TO_THE_64
  {
    assert Power256(4) == 0x1_0000_0000;
    assert Power256(8) == 256 * (256 * (256 * (256 * Power256(4))));
  }

  function RequestHash(digest: Digest, r: Identity): string { digest(Frame(IdentityComponents(r))) }

  /** Equal hashes exactly when session, tool, version and argument bytes are equal. */
  lemma SameHashSameIdentity(digest: Digest, a: Identity, b: Identity)
    requires Injective(digest)
    requires Encodable(IdentityComponents(a)) && Encodable(IdentityComponents(b))
    ensures RequestHash(digest, a) == RequestHash(digest, b) <==> a == b
  {
    if RequestHash(digest, a) == RequestHash(digest, b) {
      var x, y := IdentityComponents(a), IdentityComponents(b);
      FrameInjective(x, y);
      assert x[0] == y[0] && x[1] == y[1] && x[2] == y[2] && x[3] == y[3];
      EncodeInjective(a.session, b.session);
      EncodeInjective(a.tool, b.tool);
      EncodeInjective(a.version, b.version);
    }
  }

  /** Hashing a request with its canonical argument bytes identifies the request:
      any other session, tool, version or argument value has another hash. */
  lemma SameHashSameRequest(digest: Digest, session: string, tool: string, version: string, args: Json,
                            session': string, tool': string, version': string, args': Json)
    requires Injective(digest)
    requires Proper(args) && JsonText.Printable(args) && Proper(args') && JsonText.Printable(args')
    requires Encodable(IdentityComponents(Identity(session, tool, version, CanonicalJson.CanonicalBytes(args))))
    requires Encodable(IdentityComponents(Identity(session', tool', version', CanonicalJson.CanonicalBytes(args'))))
    ensures RequestHash(digest, Identity(session, tool, version, CanonicalJson.CanonicalBytes(args))) ==
            RequestHash(digest, Identity(session', tool', version', CanonicalJson.CanonicalBytes(args')))
            <==> session == session' && tool == tool' && version == version' && Denote(args) == Denote(args')
  {
    SameHashSameIdentity(digest, Identity(session, tool, version, CanonicalJson.CanonicalBytes(args)),
                         Identity(session', tool', version', CanonicalJson.CanonicalBytes(args')));
    CanonicalJson.SameBytesSameMeaning(args, args');
  }

  // -------------------------------------------------------- agent-loop calls

  /** What deterministic_agent_idempotency_key hashes; an absent provider id is "". */
  datatype AgentCall = AgentCall(run: string, turn: nat, index: nat, providerCallId: string, tool: string,
      arguments: Json)

  function AgentCallComponents(c: AgentCall): seq<seq<Byte>> {
    [Encode(c.run), Encode(Numeral(c.turn)), Encode(Numeral(c.index)), Encode(c.providerCallId), Encode(c.tool),
     CanonicalJson.CanonicalBytes(c.arguments)]
  }

  function AgentCallKey(digest: Digest, c: AgentCall): string { digest(Frame(AgentCallComponents(c))) }

  lemma NumeralInjective(i: int, j: int)
    requires Encode(Numeral(i)) == Encode(Numeral(j))
    ensures i == j
  {
    EncodeInjective(Numeral(i), Numeral(j));
    NumeralRoundTrip(i);
    NumeralRoundTrip(j);
  }

  /** Two calls of agent loops share a key exactly when run, turn, position,
      provider id and tool agree and the arguments are the same value. */
  lemma SameKeySameAgentCall(digest: Digest, a: AgentCall, b: AgentCall)
    requires Injective(digest)
    requires Proper(a.arguments) && JsonText.Printable(a.arguments)
    requires Proper(b.arguments) && JsonText.Printable(b.arguments)
    requires Encodable(AgentCallComponents(a)) && Encodable(AgentCallComponents(b))
    ensures AgentCallKey(digest, a) == AgentCallKey(digest, b)
            <==> a.(arguments := b.arguments) == b && Denote(a.arguments) == Denote(b.arguments)
  {
    CanonicalJson.SameBytesSameMeaning(a.arguments, b.arguments);
    if AgentCallKey(digest, a) == AgentCallKey(digest, b) {
      var x, y := AgentCallComponents(a), AgentCallComponents(b);
      FrameInjective(x, y);
      assert x[0] == y[0] && x[1] == y[1] && x[2] == y[2] && x[3] == y[3] && x[4] == y[4] && x[5] == y[5];
      EncodeInjective(a.run, b.run);
      NumeralInjective(a.turn, b.turn);
      NumeralInjective(a.index, b.index);
      EncodeInjective(a.providerCallId, b.providerCallId);
      EncodeInjective(a.tool, b.tool);
    }
  }
}
