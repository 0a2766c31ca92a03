/** The bridge's signed cookies: the unlock cookie of a password-protected route and the session value of an
    organisation's route. HMAC-SHA256 is a parameter, times are Unix seconds. */
module SignedCookie {
  import opened Wrappers
  import opened Encoding
  import opened Strings

  type Mac = (Bytes, string) -> Bytes

  datatype Parts = Parts(first: string, second: string, rest: string)

  const DOT := "."

  /** `strings.SplitN(v, ".", 3)` when it yields three parts. */
  function SplitThree(v: string): Option<Parts> {
    var i := Index(v, DOT);
    if i < 0 then None
    else
      var tail := v[i + 1..];
      var j := Index(tail, DOT);
      if j < 0 then None else Some(Parts(v[..i], tail[..j], tail[j + 1..]))
  }

  /** The expiry belongs to the signed body, as does what comes before it. */
  function Body(name: string, exp: int): string {
    name + DOT + FormatInt(exp)
  }

  function Signed(mac: Mac, secret: Bytes, body: string): string {
    body + DOT + EncodeBase64(mac(secret, body))
  }

  /** Name and expiry of a value whose MAC is right. */
  function Opened(mac: Mac, secret: Bytes, v: string): Option<Parts> {
    match SplitThree(v)
    case None => None
    case Some(p) => if DecodeBase64(p.rest) == Some(mac(secret, p.first + DOT + p.second)) then Some(p) else None
  }

  // ---- the unlock cookie ----------------------------------------------------------------------

  function MintUnlockCookie(mac: Mac, secret: Bytes, prefix: nat, exp: int): string {
    Signed(mac, secret, Body(FormatUint(prefix, 16), exp))
  }

  function VerifyUnlockCookie(mac: Mac, secret: Bytes, v: string, now: int): Option<nat> {
    match Opened(mac, secret, v)
    case None => None
    case Some(p) =>
      match ParseInt(p.second)
      case None => None
      case Some(exp) => if now >= exp then None else ParseUint(p.first, 16, MAX_UINT64)
  }

  datatype Route = Route(authMode: string, passwordHashB64: string, passwordPrefix: nat)

  /** `checkDeployAuthPassword` on a request that is not the form's own POST: does it go on to the upstream? */
  predicate Proceeds(mac: Mac, secret: Bytes, route: Route, cookie: Option<string>, now: int) {
    if route.authMode != "password" then true
    else if secret == [] then false
    else if route.passwordHashB64 == "" || route.passwordPrefix == 0 then false
    else cookie.Some? && VerifyUnlockCookie(mac, secret, cookie.value, now) == Some(route.passwordPrefix)
  }

  // ---- the session value ------------------------------------------------------------------------

  function MintDeploySignedValue(mac: Mac, secret: Bytes, orgId: string, exp: int): string {
    Signed(mac, secret, Body(orgId, exp))
  }

  function VerifyDeploySignedValue(mac: Mac, secret: Bytes, v: string, now: int): Option<string> {
    match Opened(mac, secret, v)
    case None => None
    case Some(p) =>
      match ParseInt(p.second)
      case None => None
      case Some(exp) => if now > exp then None else Some(p.first)
  }

  // ---- what is minted is read back -----------------------------------------------------------------

  lemma IndexOfDot(s: string, rest: string)
    requires '.' !in s
    ensures Index(s + DOT + rest, DOT) == |s|
  {
    var v := s + DOT + rest;
    assert OccursAt(v, DOT, |s|);
    forall j: nat | j < |s|
      ensures !OccursAt(v, DOT, j)
    {
      assert v[j..j + 1] == [s[j]] && s[j] in s;
    }
  }

  lemma SplitJoined(a: string, b: string, c: string)
    requires '.' !in a && '.' !in b
    ensures SplitThree(a + DOT + b + DOT + c) == Some(Parts(a, b, c))
  {
    var tail := b + DOT + c;
    var v := a + DOT + tail;
    assert a + DOT + b + DOT + c == v;
    IndexOfDot(a, tail);
    IndexOfDot(b, c);
    assert v[..|a|] == a && v[|a| + 1..] == tail && tail[..|b|] == b && tail[|b| + 1..] == c;
  }

  lemma FirstPartHasNoDot(v: string)
    ensures SplitThree(v).Some? ==>
              var p := SplitThree(v).value;
              '.' !in p.first && '.' !in p.second && v == p.first + DOT + p.second + DOT + p.rest
  {
    if SplitThree(v).Some? {
      var i := Index(v, DOT);
      var tail := v[i + 1..];
      var j := Index(tail, DOT);
      DotFree(v, i);
      DotFree(tail, j);
      assert v[i..i + 1] == DOT && tail[j..j + 1] == DOT;
      assert v == v[..i] + v[i..i + 1] + tail && tail == tail[..j] + tail[j..j + 1] + tail[j + 1..];
      assert v == v[..i] + DOT + (tail[..j] + DOT + tail[j + 1..]);
    }
  }

  lemma DotFree(s: string, end: nat)
    requires end <= |s| && forall j: nat :: j < end ==> !OccursAt(s, DOT, j)
    ensures '.' !in s[..end]
  {
    forall j: nat | j < end
      ensures s[j] != '.'
    {
      assert !OccursAt(s, DOT, j) && s[j..j + 1] == [s[j]];
    }
  }

  lemma IntHasNoDot(n: int)
    ensures '.' !in FormatInt(n)
  {
    DigitsHaveNoDot(if n < 0 then -n else n, 10);
  }

  lemma OpenedIsSigned(mac: Mac, secret: Bytes, name: string, exp: int)
    requires '.' !in name
    ensures var body := Body(name, exp);
            Opened(mac, secret, Signed(mac, secret, body)) == Some(Parts(name, FormatInt(exp), EncodeBase64(mac(secret, body))))
  {
    var body := Body(name, exp);
    IntHasNoDot(exp);
    SplitJoined(name, FormatInt(exp), EncodeBase64(mac(secret, body)));
    Base64RoundTrip(mac(secret, body));
  }

  /** An unlock cookie gives its prefix back exactly as long as it has not expired. */
  lemma UnlockRoundTrip(mac: Mac, secret: Bytes, prefix: nat, exp: int, now: int)
    requires prefix <= MAX_UINT64 && InInt64(exp)
    ensures VerifyUnlockCookie(mac, secret, MintUnlockCookie(mac, secret, prefix, exp), now) == if now < exp then Some(prefix) else None
  {
    hide Opened, Signed, ParseInt, FormatInt, ParseUint, FormatUint;
    DigitsHaveNoDot(prefix, 16);
    OpenedIsSigned(mac, secret, FormatUint(prefix, 16), exp);
    IntRoundTrip(exp);
    UintRoundTrip(prefix, 16, MAX_UINT64);
  }

  /** On a configured route a minted cookie lets a request pass exactly when it was minted under the route's
      own prefix and has not expired: changing the password locks everybody out again. */
  lemma MintedCookieUnlocks(mac: Mac, secret: Bytes, route: Route, prefix: nat, exp: int, now: int)
    requires route.authMode == "password" && secret != [] && route.passwordHashB64 != "" && route.passwordPrefix != 0
    requires prefix <= MAX_UINT64 && InInt64(exp)
    ensures Proceeds(mac, secret, route, Some(MintUnlockCookie(mac, secret, prefix, exp)), now) <==> prefix == route.passwordPrefix && now < exp
  {
    UnlockRoundTrip(mac, secret, prefix, exp, now);
  }

  /** What lets a request pass a password route: three parts of which the first two have no dot and the last is
      the MAC of the rest, an expiry still to come, and the route's own prefix. */
  ghost predicate Genuine(mac: Mac, secret: Bytes, v: string, now: int, prefix: nat) {
    exists a, b, c ::
      && v == a + "." + b + "." + c && '.' !in a && '.' !in b
      && DecodeBase64(c) == Some(mac(secret, a + "." + b))
      && ParseInt(b).Some? && now < ParseInt(b).value
      && ParseUint(a, 16, MAX_UINT64) == Some(prefix)
  }

  lemma VerifiedIffGenuine(mac: Mac, secret: Bytes, v: string, now: int, prefix: nat)
    ensures VerifyUnlockCookie(mac, secret, v, now) == Some(prefix) <==> Genuine(mac, secret, v, now, prefix)
  {
    hide ParseInt, ParseUint, DecodeBase64;
    FirstPartHasNoDot(v);
    if VerifyUnlockCookie(mac, secret, v, now) == Some(prefix) {
      var p := SplitThree(v).value;
      assert v == p.first + "." + p.second + "." + p.rest;
    }
    forall a, b, c | v == a + "." + b + "." + c && '.' !in a && '.' !in b
      ensures SplitThree(v) == Some(Parts(a, b, c))
    {
      SplitJoined(a, b, c);
    }
  }

  /** Exactly when a request proceeds, for all routes and cookies: without a cookie never on a password route, nor
      on one without secret, hash or prefix, and always in any other mode. */
  lemma ProceedsIff(mac: Mac, secret: Bytes, route: Route, cookie: Option<string>, now: int)
    ensures Proceeds(mac, secret, route, cookie, now)
            <==> route.authMode == "password" ==>
                   && secret != [] && route.passwordHashB64 != "" && route.passwordPrefix != 0
                   && cookie.Some? && Genuine(mac, secret, cookie.value, now, route.passwordPrefix)
  {
    hide VerifyUnlockCookie, Genuine;
    if cookie.Some? {
      VerifiedIffGenuine(mac, secret, cookie.value, now, route.passwordPrefix);
    }
  }

  /** The same for session values: whatever is accepted was signed with that organisation and has not expired. */
  lemma SessionIff(mac: Mac, secret: Bytes, v: string, now: int, orgId: string)
    ensures VerifyDeploySignedValue(mac, secret, v, now) == Some(orgId)
            <==> exists b, c ::
                   && v == orgId + "." + b + "." + c && '.' !in orgId && '.' !in b
                   && DecodeBase64(c) == Some(mac(secret, orgId + "." + b))
                   && ParseInt(b).Some? && now <= ParseInt(b).value
  {
    hide ParseInt, DecodeBase64;
    FirstPartHasNoDot(v);
    if VerifyDeploySignedValue(mac, secret, v, now) == Some(orgId) {
      var p := SplitThree(v).value;
      assert v == orgId + "." + p.second + "." + p.rest;
    }
    forall b, c | v == orgId + "." + b + "." + c && '.' !in orgId && '.' !in b
      ensures SplitThree(v) == Some(Parts(orgId, b, c))
    {
      SplitJoined(orgId, b, c);
    }
  }

  /** A session value gives its organisation back exactly when that has no dot and the value has not expired. */
  lemma DeployRoundTrip(mac: Mac, secret: Bytes, orgId: string, exp: int, now: int)
    requires InInt64(exp)
    ensures VerifyDeploySignedValue(mac, secret, MintDeploySignedValue(mac, secret, orgId, exp), now) == Some(orgId)
            <==> '.' !in orgId && now <= exp
  {
    hide Signed, ParseInt, FormatInt;
    if '.' !in orgId {
      OpenedIsSigned(mac, secret, orgId, exp);
      IntRoundTrip(exp);
    } else {
      FirstPartHasNoDot(MintDeploySignedValue(mac, secret, orgId, exp));
    }
  }

  // ---- what was not minted ------------------------------------------------------------------------------

  lemma SameBodySameParts(a: string, b: string, a': string, b': string)
    requires a + DOT + b == a' + DOT + b' && '.' !in a && '.' !in a'
    ensures a == a' && b == b'
  {
    IndexOfDot(a, b);
    IndexOfDot(a', b');
    assert (a + DOT + b)[..|a|] == a && (a' + DOT + b')[..|a'|] == a';
    assert (a + DOT + b)[|a| + 1..] == b && (a' + DOT + b')[|a'| + 1..] == b';
  }

  /** Carrying over the MAC of a genuine cookie buys nothing: unless the MAC collides on the two bodies,
      whatever cookie is accepted with it has the genuine prefix and has not outlived the genuine expiry. */
  lemma MacCarriesNothingElse(mac: Mac, secret: Bytes, v: string, now: int, prefix: nat, exp: int)
    requires prefix <= MAX_UINT64 && InInt64(exp) && VerifyUnlockCookie(mac, secret, v, now).Some?
    requires var genuine, p := Body(FormatUint(prefix, 16), exp), SplitThree(v).value;
             && DecodeBase64(p.rest) == Some(mac(secret, genuine))
             && (mac(secret, p.first + DOT + p.second) == mac(secret, genuine) ==> p.first + DOT + p.second == genuine)
    ensures VerifyUnlockCookie(mac, secret, v, now) == Some(prefix) && now < exp
  {
    hide ParseInt, FormatInt, ParseUint, FormatUint, DecodeBase64;
    var p := SplitThree(v).value;
    FirstPartHasNoDot(v);
    DigitsHaveNoDot(prefix, 16);
    SameBodySameParts(p.first, p.second, FormatUint(prefix, 16), FormatInt(exp));
    IntRoundTrip(exp);
    UintRoundTrip(prefix, 16, MAX_UINT64);
  }
}
