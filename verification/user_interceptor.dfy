/** `UserInterceptor`: the bearer token of the `Authorization` header,
    decoded without a signature check, becomes `request.user` before every
    handler runs. The token extraction is shared with `AuthGuard`. */
module UserInterceptor {
  import opened Results
  import opened Text
  import opened Jwt

  const BearerPrefix: string := "Bearer "

  /** `authorization?.split('Bearer ')[1]`: the text after the first
      "Bearer " up to the next one, or nothing when the header is missing or
      holds no "Bearer ". */
  function ExtractBearer(authorization: Option<string>): (token: Option<string>)
    ensures token.None? <==> authorization.None? || !Occurs(authorization.value, BearerPrefix)
    ensures token.Some? ==>
      && !Occurs(token.value, BearerPrefix)
      && exists i :: IndexOf(authorization.value, BearerPrefix) == Some(i) && token.value <= authorization.value[i + |BearerPrefix|..]
    ensures token.Some? ==>
      exists i :: IndexOf(authorization.value, BearerPrefix) == Some(i) &&
        var rest := authorization.value[i + |BearerPrefix|..];
        rest == token.value || token.value + BearerPrefix <= rest
  {
    if authorization.None? then None
    else
      var parts := Split(authorization.value, BearerPrefix);
      if |parts| < 2 then None
      else
        SecondPiece(authorization.value, BearerPrefix);
        Some(parts[1])
  }

  /** The second piece of a split is where the text after the first
      separator starts. */
  lemma SecondPiece(s: string, sep: string)
    requires |sep| > 0
    requires |Split(s, sep)| >= 2
    ensures exists i :: IndexOf(s, sep) == Some(i) && Split(s, sep)[1] <= s[i + |sep|..]
    ensures
      exists i :: IndexOf(s, sep) == Some(i) &&
        (s[i + |sep|..] == Split(s, sep)[1] || Split(s, sep)[1] + sep <= s[i + |sep|..])
  {
    var i := IndexOf(s, sep).value;
    var rest := Split(s[i + |sep|..], sep);
    assert Split(s, sep) == [s[..i]] + rest;
    assert Split(s, sep)[1] == rest[0];
    JoinHead(rest, sep);
    SplitHead(s[i + |sep|..], sep);
  }

  lemma JoinHead(parts: seq<string>, sep: string)
    requires |parts| > 0
    ensures parts[0] <= Join(parts, sep)
  {
  }

  /** A token without a space is read back from `"Bearer " + token`. */
  lemma BearerRoundTrip(token: string)
    requires ' ' !in token
    ensures ExtractBearer(Some(BearerPrefix + token)) == Some(token)
  {
    var h := BearerPrefix + token;
    assert h[0..|BearerPrefix|] == BearerPrefix;
    SplitAt(h, BearerPrefix, 0);
    assert h[|BearerPrefix|..] == token;
    OccurrenceHasChars(token, BearerPrefix, 6);
    SplitWithout(token, BearerPrefix);
  }

  /** The header a client sends with a token. */
  function BearerHeader(token: string): Option<string> {
    Some(BearerPrefix + token)
  }

  /** `intercept`: `request.user` is the decoded payload of the bearer
      token, or nothing. The interceptor answers with a user and never with
      an error, so the request always reaches the handler. */
  function Intercept(authorization: Option<string>): (user: Option<Claims>)
    ensures ExtractBearer(authorization).None? ==> user.None?
    ensures ExtractBearer(authorization).Some? ==> user == Decode(ExtractBearer(authorization).value)
  {
    match ExtractBearer(authorization)
    case None => None
    case Some(token) => Decode(token)
  }

  /** The claims of a signed token are attached whatever secret signed it:
      a forged token is believed. */
  lemma InterceptIgnoresSignature(c: Claims, secret: string)
    ensures Intercept(BearerHeader(Sign(c, secret))) == Some(c)
  {
    BearerRoundTrip(Sign(c, secret));
  }

  /** Without a header, or without "Bearer " in it, no user is attached. */
  lemma InterceptWithoutBearer(authorization: Option<string>)
    requires authorization.Some? ==> !Occurs(authorization.value, BearerPrefix)
    ensures Intercept(authorization) == None
  {
  }
}
