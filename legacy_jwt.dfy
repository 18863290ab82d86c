/**
 * The older copy of the token engine (classes/JWT.php). It carries the same
 * generate, check, getHeader, getPayload and isExpired code as peps/jwt/JWT.php,
 * calls the shape test isValid instead of isClean, and has no isValidJWT.
 * Each operation is therefore the corresponding one of module Jwt; the lemmas
 * state the class's promises in terms of its own operations.
 */
module LegacyJwt {
  import opened Wrappers
  import Jwt

  /** `JWT::generate` (lines 28-60): header, stamped payload and signature joined by dots. */
  function Generate(n: Jwt.Natives, header: Jwt.Claims, payload: Jwt.Claims, secret: string, validity: int, now: int): (t: string)
    ensures Jwt.Conforming(n) ==>
      var parts := Jwt.Explode(t);
      && |parts| == 3
      && parts[0] == Jwt.EncodeSegment(n, header)
      && parts[1] == Jwt.EncodeSegment(n, Jwt.Stamp(payload, validity, now))
      && parts[2] == Jwt.Signature(n, parts[0], parts[1], secret)
  {
    Jwt.Generate(n, header, payload, secret, validity, now)
  }

  /** `JWT::getHeader` (lines 86-93): a token without a dot is decoded whole. */
  function GetHeader(n: Jwt.Natives, token: string): (r: Option<Jwt.Claims>)
    ensures '.' !in token ==> r == n.jsonDecode(n.base64Decode(token))
  {
    Jwt.GetHeader(n, token)
  }

  /** `JWT::getPayload` (lines 101-108): a token without a dot has no payload, a TypeError. */
  function GetPayload(n: Jwt.Natives, token: string): (r: Option<Jwt.Claims>)
    ensures '.' !in token ==> r.None?
  {
    Jwt.GetPayload(n, token)
  }

  /** `JWT::check` (lines 69-78): regenerate with validity 0 and compare. */
  function Check(n: Jwt.Natives, token: string, secret: string): (r: Option<bool>)
    ensures r.None? <==> GetHeader(n, token).None? || GetPayload(n, token).None?
  {
    Jwt.Check(n, token, secret)
  }

  /** `JWT::isExpired` (lines 116-123) at clock time `now`; None: getPayload raised. */
  function IsExpired(n: Jwt.Natives, token: string, now: int): (r: Option<bool>)
    ensures r.None? <==> GetPayload(n, token).None?
  {
    match GetPayload(n, token)
    case Some(p) => Some(Jwt.ExpBefore(p, now))
    case None => None
  }

  /** `JWT::isValid` (lines 131-136): the three-segment pattern. */
  predicate IsValid(token: string) {
    Jwt.IsClean(token)
  }

  /**
   * isValid holds exactly of three non-empty `[a-zA-Z0-9\-\_\=]` strings joined
   * by single dots, optionally followed by one "\n".
   */
  lemma IsValidMeaning(token: string)
    ensures IsValid(token) <==>
      exists a, b, c :: Jwt.SegmentShaped(a) && Jwt.SegmentShaped(b) && Jwt.SegmentShaped(c) &&
        (token == a + "." + b + "." + c || token == a + "." + b + "." + c + "\n")
  {
    Jwt.IsCleanMeaning(token);
  }

  /** Lines 29-36: iat/exp are added only for a positive validity, and then exp - iat is the validity. */
  lemma StampedLifetime(payload: Jwt.Claims, validity: int, now: int)
    ensures var p := Jwt.Stamp(payload, validity, now);
      && (validity > 0 ==> "iat" in p && "exp" in p && p["exp"].Int? && p["iat"].Int? && p["exp"].n - p["iat"].n == validity)
      && (validity <= 0 ==> p == payload)
  {
  }

  /**
   * Lines 44-57: the token is three cleaned segments joined by '.'; no segment
   * holds '+', '/', '=' or '.'.
   */
  lemma TokenSegments(n: Jwt.Natives, header: Jwt.Claims, payload: Jwt.Claims, secret: string, validity: int, now: int)
    requires Jwt.Conforming(n)
    ensures var parts := Jwt.Explode(Generate(n, header, payload, secret, validity, now));
      && |parts| == 3
      && Generate(n, header, payload, secret, validity, now) == parts[0] + "." + parts[1] + "." + parts[2]
      && forall i :: 0 <= i < 3 ==> parts[i] != [] && '+' !in parts[i] && '/' !in parts[i] && '=' !in parts[i]
  {
    Jwt.GenerateSegments(n, header, payload, secret, validity, now);
    var t := Generate(n, header, payload, secret, validity, now);
    var parts := Jwt.Explode(t);
    Jwt.ImplodeExplode(t);
    assert Jwt.Implode(parts[2..]) == parts[2];
    assert Jwt.Implode(parts[1..]) == parts[1] + "." + parts[2];
    forall i | 0 <= i < 3 ensures '+' !in parts[i] && '/' !in parts[i] && '=' !in parts[i] {
      NoUnsafeInUrlText(parts[i]);
    }
  }

  lemma NoUnsafeInUrlText(s: string)
    requires Jwt.UrlText(s)
    ensures '+' !in s && '/' !in s && '=' !in s
  {
  }

  /** Lines 69-78: check is true of a token exactly when regenerating it with validity 0 reproduces it. */
  lemma CheckIsRegeneration(n: Jwt.Natives, token: string, secret: string)
    ensures Check(n, token, secret) == Some(true) <==>
      GetHeader(n, token).Some? && GetPayload(n, token).Some? &&
      token == Generate(n, GetHeader(n, token).value, GetPayload(n, token).value, secret, 0, 0)
  {
  }

  /** The class's own tokens pass check and isValid when the built-ins decode the segments back. */
  lemma IssuedTokenAccepted(n: Jwt.Natives, header: Jwt.Claims, payload: Jwt.Claims, secret: string, validity: int, now: int)
    requires Jwt.Conforming(n)
    requires n.jsonDecode(n.base64Decode(Jwt.EncodeSegment(n, header))) == Some(header)
    requires n.jsonDecode(n.base64Decode(Jwt.EncodeSegment(n, Jwt.Stamp(payload, validity, now)))) == Some(Jwt.Stamp(payload, validity, now))
    ensures Check(n, Generate(n, header, payload, secret, validity, now), secret) == Some(true)
    ensures IsValid(Generate(n, header, payload, secret, validity, now))
  {
    Jwt.CheckAcceptsIssued(n, header, payload, secret, validity, now);
    Jwt.GeneratedIsClean(n, header, payload, secret, validity, now);
  }

  /** A token check accepts has the shape isValid demands. */
  lemma CheckedIsValid(n: Jwt.Natives, token: string, secret: string)
    requires Jwt.Conforming(n)
    requires Check(n, token, secret) == Some(true)
    ensures IsValid(token)
  {
    Jwt.CheckSound(n, token, secret);
  }

  /** Lines 116-123: expiry is the strict comparison exp < now. */
  lemma ExpiryIsStrict(n: Jwt.Natives, token: string, now: int, exp: int)
    requires GetPayload(n, token).Some? && "exp" in GetPayload(n, token).value
    requires GetPayload(n, token).value["exp"] == Jwt.Int(exp)
    ensures IsExpired(n, token, now) == Some(exp < now)
  {
  }
}
