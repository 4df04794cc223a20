/** A stand-in for jsonwebtoken. A token is four '.'-separated segments:
    the escaped name, the decimal id, the user type, and a signature that
    depends on the first three segments and on the secret. `Decode` reads the
    claims without looking at the signature; `Verify` also checks it. The
    `iat`/`exp` claims and expiry are not modelled. */
module Jwt {
  import opened Results
  import opened Text
  import opened Schema

  /** The payload the service signs: `{name, id, userType}`. */
  datatype Claims = Claims(name: string, id: nat, userType: UserType)

  const Dot: string := "."

  function Body(c: Claims): string {
    Escape(c.name) + Dot + NatToDecimal(c.id) + Dot + c.userType.Name()
  }

  function Signature(body: string, secret: string): string {
    Escape(secret + Dot + body)
  }

  /** `jwt.sign(claims, secret)`. */
  function Sign(c: Claims, secret: string): (token: string)
    ensures Decode(token) == Some(c)
    ensures Verify(token, secret) == Some(c)
    ensures ' ' !in token
  {
    var body := Body(c);
    var token := body + Dot + Signature(body, secret);
    SignedParts(c, secret);
    SignedHasNoSpace(c, secret);
    UnescapeEscape(c.name);
    ParseNatToDecimal(c.id);
    UserTypeNameRoundTrip(c.userType);
    token
  }

  /** `jwt.decode(token)`: the claims, with no signature check. */
  function Decode(token: string): (c: Option<Claims>)
    ensures c.Some? ==> |Split(token, Dot)| == 4
  {
    var parts := Split(token, Dot);
    if |parts| != 4 || !IsDecimal(parts[1]) then None
    else
      match (Unescape(parts[0]), ParseUserType(parts[2]))
      case (Some(name), Some(t)) => Some(Claims(name, ParseDecimal(parts[1]), t))
      case _ => None
  }

  /** `jwt.verify(token, secret)`: the claims if the signature was made with
      `secret`, `None` where the library throws. */
  function Verify(token: string, secret: string): (c: Option<Claims>)
    ensures c.Some? ==> Decode(token) == c
  {
    match Decode(token)
    case None => None
    case Some(claims) =>
      var parts := Split(token, Dot);
      if parts[3] == Signature(parts[0] + Dot + parts[1] + Dot + parts[2], secret) then Some(claims) else None
  }

  lemma NameHasNoSeparator(t: UserType)
    ensures '.' !in t.Name() && ' ' !in t.Name()
  {
  }

  /** Splitting at a first '.' that follows a '.'-free segment. */
  lemma SplitDotHead(a: string, rest: string)
    requires '.' !in a
    ensures Split(a + Dot + rest, Dot) == [a] + Split(rest, Dot)
  {
    var s := a + Dot + rest;
    assert s[|a|..|a| + 1] == Dot;
    forall j | 0 <= j < |a|
      ensures !OccursAt(s, Dot, j)
    {
      assert s[j..j + 1] == [a[j]];
    }
    SplitAt(s, Dot, |a|);
    assert s[..|a|] == a;
    assert s[|a| + 1..] == rest;
  }

  lemma Nest4(a: string, b: string, c: string, d: string)
    ensures a + Dot + b + Dot + c + Dot + d == a + Dot + (b + Dot + (c + Dot + d))
  {
  }

  lemma SplitFour(a: string, b: string, c: string, d: string)
    requires '.' !in a && '.' !in b && '.' !in c && '.' !in d
    ensures Split(a + Dot + b + Dot + c + Dot + d, Dot) == [a, b, c, d]
  {
    Nest4(a, b, c, d);
    var cd := c + Dot + d;
    var bcd := b + Dot + cd;
    OccursChar(d, '.');
    SplitWithout(d, Dot);
    SplitDotHead(c, d);
    SplitDotHead(b, cd);
    SplitDotHead(a, bcd);
    assert Split(cd, Dot) == [c, d];
    assert Split(bcd, Dot) == [b, c, d];
  }

  lemma SignedParts(c: Claims, secret: string)
    ensures Split(Body(c) + Dot + Signature(Body(c), secret), Dot)
         == [Escape(c.name), NatToDecimal(c.id), c.userType.Name(), Signature(Body(c), secret)]
  {
    NameHasNoSeparator(c.userType);
    var digits := NatToDecimal(c.id);
    assert forall i :: 0 <= i < |digits| ==> digits[i] != '.';
    SplitFour(Escape(c.name), digits, c.userType.Name(), Signature(Body(c), secret));
  }

  lemma SignedHasNoSpace(c: Claims, secret: string)
    ensures ' ' !in Body(c) + Dot + Signature(Body(c), secret)
  {
    NameHasNoSeparator(c.userType);
    var digits := NatToDecimal(c.id);
    assert forall i :: 0 <= i < |digits| ==> digits[i] != ' ';
    assert ' ' !in digits;
    assert ' ' !in Body(c);
  }

  /** Different secrets give different signatures of the same body. */
  lemma SignatureInjective(body: string, k1: string, k2: string)
    ensures Signature(body, k1) == Signature(body, k2) ==> k1 == k2
  {
    UnescapeEscape(k1 + Dot + body);
    UnescapeEscape(k2 + Dot + body);
    assert (k1 + Dot + body)[..|k1|] == k1;
    assert (k2 + Dot + body)[..|k2|] == k2;
  }

  /** A token signed with one secret does not verify under another. */
  lemma VerifyOtherSecret(c: Claims, secret: string, other: string)
    requires other != secret
    ensures Verify(Sign(c, secret), other) == None
  {
    var body := Body(c);
    SignedParts(c, secret);
    SignatureInjective(body, secret, other);
    assert Escape(c.name) + Dot + NatToDecimal(c.id) + Dot + c.userType.Name() == body;
  }
}
