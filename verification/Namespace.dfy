/**
 The tenant namespace of a Warm session: both ids are written with their byte length in front, so
 ids may contain colons and digits. A decoder recovers the two ids from every rendered namespace.
 */
module Namespace {
  import opened Common

  type byte = n: nat | n < 256
  type Bytes = seq<byte>

  const COLON: byte := 58
  const ZERO: byte := 48

  /** "smartgate:v1:" */
  const HEADER: Bytes := [115, 109, 97, 114, 116, 103, 97, 116, 101, 58, 118, 49, 58]

  function Decimal(n: nat): Bytes {
    if n < 10 then [ZERO + n] else Decimal(n / 10) + [ZERO + n % 10]
  }

  function EncodeComponent(value: Bytes): Bytes {
    Decimal(|value|) + [COLON] + value
  }

  function Render(projectId: Bytes, apiKeyId: Bytes): Bytes {
    HEADER + EncodeComponent(projectId) + [COLON] + EncodeComponent(apiKeyId)
  }

  datatype GatewayKey = GatewayKey(namespace: Bytes, sessionId: Bytes)

  function ToGatewayKey(projectId: Bytes, apiKeyId: Bytes, sessionId: Bytes): GatewayKey {
    GatewayKey(Render(projectId, apiKeyId), sessionId)
  }

  // ----- the decoder -----

  /** Reads decimal digits up to a colon; yields the number and what follows the colon. */
  function ReadNumber(s: Bytes, acc: nat): Option<(nat, Bytes)> {
    if s == [] then None
    else if s[0] == COLON then Some((acc, s[1..]))
    else if ZERO <= s[0] < ZERO + 10 then ReadNumber(s[1..], acc * 10 + (s[0] - ZERO))
    else None
  }

  function ReadComponent(s: Bytes): Option<(Bytes, Bytes)> {
    match ReadNumber(s, 0)
    case Some((n, rest)) => if n <= |rest| then Some((rest[..n], rest[n..])) else None
    case None => None
  }

  function Decode(s: Bytes): Option<(Bytes, Bytes)> {
    if |s| < |HEADER| || s[..|HEADER|] != HEADER then None
    else
      match ReadComponent(s[|HEADER|..])
      case None => None
      case Some((project, rest)) =>
        if rest == [] || rest[0] != COLON then None
        else
          match ReadComponent(rest[1..])
          case Some((key, end)) => if end == [] then Some((project, key)) else None
          case None => None
  }

  lemma {:induction false} ReadsDecimal(n: nat, rest: Bytes)
    ensures ReadNumber(Decimal(n) + rest, 0) == ReadNumber(rest, n)
  {
    if n < 10 {
      assert ([ZERO + n] + rest)[1..] == rest;
    } else {
      var d := [ZERO + n % 10];
      assert Decimal(n) + rest == Decimal(n / 10) + (d + rest);
      ReadsDecimal(n / 10, d + rest);
      assert (d + rest)[1..] == rest;
    }
  }

  lemma ReadsComponent(value: Bytes, rest: Bytes)
    ensures ReadComponent(EncodeComponent(value) + rest) == Some((value, rest))
  {
    var body := value + rest;
    assert EncodeComponent(value) + rest == Decimal(|value|) + ([COLON] + body);
    ReadsDecimal(|value|, [COLON] + body);
    assert ([COLON] + body)[1..] == body && body[..|value|] == value && body[|value|..] == rest;
  }

  lemma DecodeInvertsRender(projectId: Bytes, apiKeyId: Bytes)
    ensures Decode(Render(projectId, apiKeyId)) == Some((projectId, apiKeyId))
  {
    var s := Render(projectId, apiKeyId);
    var rest := [COLON] + EncodeComponent(apiKeyId);
    assert s == HEADER + (EncodeComponent(projectId) + rest);
    assert s[|HEADER|..] == EncodeComponent(projectId) + rest;
    ReadsComponent(projectId, rest);
    assert rest[1..] == EncodeComponent(apiKeyId) + [];
    ReadsComponent(apiKeyId, []);
  }

  /** Two sessions share a storage key only if they are the same session of the same tenant. */
  lemma TenantsNeverShareSessions(p1: Bytes, k1: Bytes, s1: Bytes, p2: Bytes, k2: Bytes, s2: Bytes)
    ensures ToGatewayKey(p1, k1, s1) == ToGatewayKey(p2, k2, s2) <==> p1 == p2 && k1 == k2 && s1 == s2
  {
    DecodeInvertsRender(p1, k1);
    DecodeInvertsRender(p2, k2);
  }

  /** The namespace of project "p:1" and key "k" is "smartgate:v1:3:p:1:1:k". */
  lemma RenderExample()
    ensures Render([112, 58, 49], [107]) ==
            [115, 109, 97, 114, 116, 103, 97, 116, 101, 58, 118, 49, 58] + [51, 58, 112, 58, 49] + [58] + [49, 58, 107]
  {
    assert Decimal(3) == [51] && Decimal(1) == [49];
  }
}
