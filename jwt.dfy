/**
 * The application's hand-written JSON Web Token engine (peps/jwt/JWT.php).
 *
 * A token is three segments joined by '.', in the shape of the JWS compact
 * serialisation of section 7.1 of RFC 7515: the cleaned base64 of the JSON
 * header, the cleaned base64 of the JSON payload, and the cleaned base64 of an
 * HMAC-SHA256 (section 3.2 of RFC 7518) over "header.payload". "Cleaning" turns
 * base64 into the URL-safe alphabet of section 5 of RFC 4648 by mapping '+' to
 * '-', '/' to '_' and deleting '='. Unlike RFC 7518 the MAC key is not the secret
 * but its base64 encoding. Verification regenerates the whole token with zero
 * validity and compares the strings.
 *
 * The PHP built-ins the engine calls (json_encode, json_decode, base64_encode,
 * base64_decode, hash_hmac) are not modelled; they are supplied as a `Natives`
 * value, and the little the engine relies on about them is `Conforming`.
 * The clock and the request's server variables are parameters.
 */
module Jwt {
  import opened Wrappers
  import opened Php

  /** A JSON scalar as json_decode(..., true) returns it for the claims the application uses. */
  datatype Value = Int(n: int) | Text(s: string)

  /** A decoded JSON object (a PHP associative array); key order is not modelled. */
  type Claims = map<string, Value>

  /** The PHP built-ins the engine calls. */
  datatype Natives = Natives(
    jsonEncode: Claims -> string,
    /** None: the text is not JSON, or not a JSON array/object. */
    jsonDecode: string -> Option<Claims>,
    base64Encode: string -> string,
    /** Non-strict base64_decode: characters outside the alphabet are skipped. */
    base64Decode: string -> string,
    /** hash_hmac('sha256', data, key, true): the raw 32-byte digest. */
    hmacSha256: (string, string) -> string)

  /** The standard base64 alphabet plus padding (section 4 of RFC 4648). */
  predicate IsBase64Char(c: char) {
    ('A' <= c <= 'Z') || ('a' <= c <= 'z') || ('0' <= c <= '9') || c == '+' || c == '/' || c == '='
  }

  /** The URL-safe alphabet of section 5 of RFC 4648, without padding. */
  predicate IsUrlChar(c: char) {
    ('A' <= c <= 'Z') || ('a' <= c <= 'z') || ('0' <= c <= '9') || c == '-' || c == '_'
  }

  /** The character class `[a-zA-Z0-9\-\_\=]` that isClean accepts in a segment. */
  predicate IsSegmentChar(c: char) {
    IsUrlChar(c) || c == '='
  }

  predicate Base64Text(s: string) {
    forall i :: 0 <= i < |s| ==> IsBase64Char(s[i])
  }

  predicate UrlText(s: string) {
    forall i :: 0 <= i < |s| ==> IsUrlChar(s[i])
  }

  /**
   * What the engine relies on about the built-ins: base64_encode writes only the
   * base64 alphabet and, for a non-empty input, never starts with padding;
   * json_encode of an array is never empty; the raw SHA-256 HMAC is 32 bytes.
   */
  ghost predicate Conforming(n: Natives) {
    && (forall s :: Base64Text(n.base64Encode(s)))
    && (forall s :: s != [] ==> n.base64Encode(s) != [] && n.base64Encode(s)[0] != '=')
    && (forall c :: n.jsonEncode(c) != [])
    && (forall d, k :: |n.hmacSha256(d, k)| == 32)
  }

  // ---------------------------------------------------------------------------
  // Cleaning (lines 48-49 and 58)
  // ---------------------------------------------------------------------------

  /** `str_replace(['+','/','='], ['-','_',''], $s)`: the three replacements applied in turn. */
  function Clean(s: string): string {
    ReplaceChar(ReplaceChar(ReplaceChar(s, '+', "-"), '/', "_"), '=', "")
  }

  /** The same mapping, one character at a time. */
  function CleanChar(c: char): string {
    if c == '+' then "-" else if c == '/' then "_" else if c == '=' then "" else [c]
  }

  function CleanEach(s: string): string {
    if s == [] then [] else CleanChar(s[0]) + CleanEach(s[1..])
  }

  lemma {:induction false} ReplaceCharConcat(x: string, y: string, c: char, rep: string)
    ensures ReplaceChar(x + y, c, rep) == ReplaceChar(x, c, rep) + ReplaceChar(y, c, rep)
  {
    if x != [] {
      assert (x + y)[0] == x[0];
      assert (x + y)[1..] == x[1..] + y;
      ReplaceCharConcat(x[1..], y, c, rep);
      var h := if x[0] == c then rep else [x[0]];
      assert ReplaceChar(x + y, c, rep) == h + ReplaceChar(x[1..] + y, c, rep);
      assert ReplaceChar(x, c, rep) == h + ReplaceChar(x[1..], c, rep);
    } else {
      assert x + y == y;
    }
  }

  /** The three successive replacements amount to mapping each character on its own. */
  lemma {:induction false} CleanIsCharwise(s: string)
    ensures Clean(s) == CleanEach(s)
  {
    if s != [] {
      var c, t := s[0], s[1..];
      assert s == [c] + t;
      var a := ReplaceChar([c], '+', "-");
      ReplaceCharConcat([c], t, '+', "-");
      var b := ReplaceChar(a, '/', "_");
      ReplaceCharConcat(a, ReplaceChar(t, '+', "-"), '/', "_");
      ReplaceCharConcat(b, ReplaceChar(ReplaceChar(t, '+', "-"), '/', "_"), '=', "");
      assert ReplaceChar(b, '=', "") == CleanChar(c);
      CleanIsCharwise(t);
    }
  }

  /** No cleaned text contains '+', '/' or '='. */
  lemma CleanRemovesUnsafe(s: string)
    ensures '+' !in Clean(s) && '/' !in Clean(s) && '=' !in Clean(s)
  {
  }

  /** Cleaned base64 is base64url: only letters, digits, '-' and '_'. */
  lemma CleanIsUrlSafe(s: string)
    requires Base64Text(s)
    ensures UrlText(Clean(s))
  {
    var r := Clean(s);
    forall i | 0 <= i < |r| ensures IsUrlChar(r[i]) {
      assert r[i] in r;
    }
  }

  /** Cleaning keeps a text non-empty when it does not start with padding. */
  lemma CleanNonEmpty(s: string)
    requires s != [] && s[0] != '='
    ensures Clean(s) != []
  {
    CleanIsCharwise(s);
  }

  // ---------------------------------------------------------------------------
  // explode('.', $token) and its inverse
  // ---------------------------------------------------------------------------

  /** `explode('.', $s)`: the pieces between dots; the empty string gives [""]. */
  function Explode(s: string): (r: seq<string>)
    ensures |r| >= 1
    ensures forall i :: 0 <= i < |r| ==> '.' !in r[i]
  {
    if s == [] then [""]
    else if s[0] == '.' then [""] + Explode(s[1..])
    else
      var rest := Explode(s[1..]);
      [[s[0]] + rest[0]] + rest[1..]
  }

  /** `implode('.', $parts)`. */
  function Implode(parts: seq<string>): string
    requires |parts| >= 1
  {
    if |parts| == 1 then parts[0] else parts[0] + "." + Implode(parts[1..])
  }

  /** Joining the pieces again gives back the exploded string. */
  lemma {:induction false} ImplodeExplode(s: string)
    ensures Implode(Explode(s)) == s
  {
    if s != [] {
      ImplodeExplode(s[1..]);
      var rest := Explode(s[1..]);
      if s[0] != '.' && |rest| > 1 {
        assert Implode(rest) == rest[0] + "." + Implode(rest[1..]);
      }
    }
  }

  /** A string explodes into itself alone exactly when it holds no dot. */
  lemma {:induction false} ExplodeWithoutDot(a: string)
    ensures '.' !in a <==> Explode(a) == [a]
  {
    if a != [] && '.' !in a {
      assert a[0] in a;
      ExplodeWithoutDot(a[1..]);
      assert a == [a[0]] + a[1..];
    } else if Explode(a) == [a] {
      assert '.' !in Explode(a)[0];
    }
  }

  lemma {:induction false} ExplodeLeading(a: string, rest: string)
    requires '.' !in a
    ensures Explode(a + "." + rest) == [a] + Explode(rest)
  {
    if a == [] {
      assert a + "." + rest == ['.'] + rest;
    } else {
      assert a[0] in a;
      assert (a + "." + rest)[0] == a[0];
      assert (a + "." + rest)[1..] == a[1..] + "." + rest;
      ExplodeLeading(a[1..], rest);
      assert a == [a[0]] + a[1..];
    }
  }

  /** Three dot-free segments joined by dots explode back into exactly those segments. */
  lemma ExplodeThree(a: string, b: string, c: string)
    requires '.' !in a && '.' !in b && '.' !in c
    ensures Explode(a + "." + b + "." + c) == [a, b, c]
  {
    assert a + "." + b + "." + c == a + "." + (b + "." + c);
    ExplodeLeading(a, b + "." + c);
    ExplodeLeading(b, c);
    ExplodeWithoutDot(c);
  }

  // ---------------------------------------------------------------------------
  // generate (lines 32-64)
  // ---------------------------------------------------------------------------

  /** Lines 33-40: a positive validity adds `iat = now` and `exp = now + validity`. */
  function Stamp(payload: Claims, validity: int, now: int): (r: Claims)
    ensures validity <= 0 ==> r == payload
    ensures validity > 0 ==>
      && r.Keys == payload.Keys + {"iat", "exp"}
      && r["iat"] == Int(now) && r["exp"] == Int(now + validity)
      && r["exp"].n - r["iat"].n == validity
      && forall k :: k in payload && k != "iat" && k != "exp" ==> r[k] == payload[k]
  {
    if validity > 0 then payload["iat" := Int(now)]["exp" := Int(now + validity)] else payload
  }

  /** Lines 43-49: the cleaned base64 of the JSON text. */
  function EncodeSegment(n: Natives, c: Claims): string {
    Clean(n.base64Encode(n.jsonEncode(c)))
  }

  /** Lines 52-58: HMAC-SHA256 over "header.payload", keyed by base64_encode(secret), cleaned. */
  function Signature(n: Natives, header64: string, payload64: string, secret: string): string {
    Clean(n.base64Encode(n.hmacSha256(header64 + "." + payload64, n.base64Encode(secret))))
  }

  /**
   * `JWT::generate($header, $payload, $secret, $validity)` at clock time `now`:
   * with conforming built-ins the token splits on '.' into the encoded header,
   * the encoded stamped payload and the signature of those two.
   */
  function Generate(n: Natives, header: Claims, payload: Claims, secret: string, validity: int, now: int): (t: string)
    ensures Conforming(n) ==>
      var parts := Explode(t);
      && |parts| == 3
      && parts[0] == EncodeSegment(n, header)
      && parts[1] == EncodeSegment(n, Stamp(payload, validity, now))
      && parts[2] == Signature(n, parts[0], parts[1], secret)
  {
    var header64 := EncodeSegment(n, header);
    var payload64 := EncodeSegment(n, Stamp(payload, validity, now));
    JoinedSegments(n, header, Stamp(payload, validity, now), secret);
    header64 + "." + payload64 + "." + Signature(n, header64, payload64, secret)
  }

  /** The three segments generate joins hold no dot, so explode splits them apart again. */
  lemma JoinedSegments(n: Natives, header: Claims, claims: Claims, secret: string)
    ensures Conforming(n) ==>
      var h := EncodeSegment(n, header);
      var p := EncodeSegment(n, claims);
      Explode(h + "." + p + "." + Signature(n, h, p, secret)) == [h, p, Signature(n, h, p, secret)]
  {
    if Conforming(n) {
      var h := EncodeSegment(n, header);
      var p := EncodeSegment(n, claims);
      SegmentShape(n, n.jsonEncode(header));
      SegmentShape(n, n.jsonEncode(claims));
      SegmentShape(n, n.hmacSha256(h + "." + p, n.base64Encode(secret)));
      ExplodeThree(h, p, Signature(n, h, p, secret));
    }
  }

  /** Each segment a built-in produces is a non-empty base64url text. */
  lemma SegmentShape(n: Natives, raw: string)
    requires Conforming(n) && raw != []
    ensures var seg := Clean(n.base64Encode(raw));
      seg != [] && UrlText(seg) && '.' !in seg
  {
    var b := n.base64Encode(raw);
    CleanNonEmpty(b);
    CleanIsUrlSafe(b);
  }

  /**
   * A generated token is header, payload and signature segments joined by '.',
   * each a non-empty base64url text; splitting on '.' returns exactly them, and the
   * signature is the HMAC of the token's own first two segments under base64(secret).
   */
  lemma GenerateSegments(n: Natives, header: Claims, payload: Claims, secret: string, validity: int, now: int)
    requires Conforming(n)
    ensures var t := Generate(n, header, payload, secret, validity, now);
      var parts := Explode(t);
      && |parts| == 3
      && parts[0] == EncodeSegment(n, header)
      && parts[1] == EncodeSegment(n, Stamp(payload, validity, now))
      && parts[2] == Clean(n.base64Encode(n.hmacSha256(parts[0] + "." + parts[1], n.base64Encode(secret))))
      && (forall i :: 0 <= i < 3 ==> parts[i] != [] && UrlText(parts[i]))
  {
    var h := EncodeSegment(n, header);
    var p := EncodeSegment(n, Stamp(payload, validity, now));
    var s := Signature(n, h, p, secret);
    SegmentShape(n, n.jsonEncode(header));
    SegmentShape(n, n.jsonEncode(Stamp(payload, validity, now)));
    SegmentShape(n, n.hmacSha256(h + "." + p, n.base64Encode(secret)));
    ExplodeThree(h, p, s);
  }

  // ---------------------------------------------------------------------------
  // getHeader, getPayload, check (lines 73-112)
  // ---------------------------------------------------------------------------

  /**
   * `JWT::getHeader($token)`: decode the first segment. None stands for the
   * TypeError PHP raises when json_decode gives something other than an array.
   */
  function GetHeader(n: Natives, token: string): (r: Option<Claims>)
    ensures '.' !in token ==> r == n.jsonDecode(n.base64Decode(token))
  {
    ExplodeWithoutDot(token);
    n.jsonDecode(n.base64Decode(Explode(token)[0]))
  }

  /**
   * `JWT::getPayload($token)`: decode the second segment. A token without a '.'
   * has no second segment; PHP then passes null to base64_decode, a TypeError.
   */
  function GetPayload(n: Natives, token: string): (r: Option<Claims>)
    ensures '.' !in token ==> r.None?
  {
    ExplodeWithoutDot(token);
    var parts := Explode(token);
    if |parts| < 2 then None else n.jsonDecode(n.base64Decode(parts[1]))
  }

  /**
   * getHeader decodes the text before the first dot and getPayload the text
   * between the first dot and the next one (or the end).
   */
  lemma SegmentsDecoded(n: Natives, a: string, b: string, tail: string)
    requires '.' !in a && '.' !in b && (tail == [] || tail[0] == '.')
    ensures GetHeader(n, a + "." + b + tail) == n.jsonDecode(n.base64Decode(a))
    ensures GetPayload(n, a + "." + b + tail) == n.jsonDecode(n.base64Decode(b))
  {
    assert a + "." + b + tail == a + "." + (b + tail);
    ExplodeLeading(a, b + tail);
    if tail == [] {
      assert b + tail == b;
      ExplodeWithoutDot(b);
    } else {
      assert b + tail == b + "." + tail[1..];
      ExplodeLeading(b, tail[1..]);
    }
  }

  /**
   * `JWT::check($token, $secret)`: regenerate with validity 0 from the decoded
   * header and payload and compare. None: one of the getters raised.
   */
  function Check(n: Natives, token: string, secret: string): (r: Option<bool>)
    ensures r.None? <==> GetHeader(n, token).None? || GetPayload(n, token).None?
  {
    match (GetHeader(n, token), GetPayload(n, token))
    case (Some(h), Some(p)) => Some(token == Generate(n, h, p, secret, 0, 0))
    case _ => None
  }

  /** Regenerating with validity 0 never adds claims and does not look at the clock. */
  lemma ZeroValidityIgnoresClock(n: Natives, header: Claims, payload: Claims, secret: string, v: int, now1: int, now2: int)
    requires v <= 0
    ensures Generate(n, header, payload, secret, v, now1) == Generate(n, header, payload, secret, 0, now2)
  {
  }

  /**
   * check is exact: a token it accepts splits into three base64url segments whose
   * third is the HMAC of the first two, and it passes the isClean pattern.
   */
  lemma CheckSound(n: Natives, token: string, secret: string)
    requires Conforming(n)
    requires Check(n, token, secret) == Some(true)
    ensures var parts := Explode(token);
      && |parts| == 3
      && parts[2] == Signature(n, parts[0], parts[1], secret)
      && parts[0] == EncodeSegment(n, GetHeader(n, token).value)
      && parts[1] == EncodeSegment(n, GetPayload(n, token).value)
      && IsClean(token)
  {
    var h, p := GetHeader(n, token).value, GetPayload(n, token).value;
    GenerateSegments(n, h, p, secret, 0, 0);
    GeneratedIsClean(n, h, p, secret, 0, 0);
  }

  /**
   * check accepts the engine's own tokens, provided the built-ins decode each
   * segment back to what was encoded. (PHP's non-strict base64_decode skips '-'
   * and '_', so this does not hold of every header and payload.)
   */
  lemma CheckAcceptsIssued(n: Natives, header: Claims, payload: Claims, secret: string, validity: int, now: int)
    requires Conforming(n)
    requires n.jsonDecode(n.base64Decode(EncodeSegment(n, header))) == Some(header)
    requires n.jsonDecode(n.base64Decode(EncodeSegment(n, Stamp(payload, validity, now)))) == Some(Stamp(payload, validity, now))
    ensures var t := Generate(n, header, payload, secret, validity, now);
      && GetHeader(n, t) == Some(header)
      && GetPayload(n, t) == Some(Stamp(payload, validity, now))
      && Check(n, t, secret) == Some(true)
  {
    GenerateSegments(n, header, payload, secret, validity, now);
    var t := Generate(n, header, payload, secret, validity, now);
    var p := Stamp(payload, validity, now);
    assert Stamp(p, 0, 0) == p;
    assert t == Generate(n, header, p, secret, 0, 0);
  }

  /**
   * A token depends on the secret only through `base64_encode($secret)`, the
   * HMAC key: two secrets that encode alike sign alike, and two tokens differ
   * exactly when their signatures do.
   */
  lemma SecretEntersOnlyThroughKey(n: Natives, header: Claims, payload: Claims, s1: string, s2: string, validity: int, now: int)
    requires Conforming(n)
    ensures n.base64Encode(s1) == n.base64Encode(s2) ==>
      Generate(n, header, payload, s1, validity, now) == Generate(n, header, payload, s2, validity, now)
    ensures Generate(n, header, payload, s1, validity, now) == Generate(n, header, payload, s2, validity, now)
      <==> (Signature(n, EncodeSegment(n, header), EncodeSegment(n, Stamp(payload, validity, now)), s1)
        == Signature(n, EncodeSegment(n, header), EncodeSegment(n, Stamp(payload, validity, now)), s2))
  {
    GenerateSegments(n, header, payload, s1, validity, now);
    GenerateSegments(n, header, payload, s2, validity, now);
  }

  // ---------------------------------------------------------------------------
  // isExpired (lines 120-127)
  // ---------------------------------------------------------------------------

  /**
   * `$payload['exp'] < $now`. A missing `exp` reads as null, and PHP 8 compares
   * null with an integer as booleans: expired exactly when now != 0.
   */
  predicate ExpBefore(payload: Claims, now: int) {
    if "exp" in payload && payload["exp"].Int? then payload["exp"].n < now
    else now != 0
  }

  /** `JWT::isExpired($token)` at clock time `now`; None: getPayload raised. */
  function IsExpired(n: Natives, token: string, now: int): (r: Option<bool>)
    ensures r.None? <==> GetPayload(n, token).None?
  {
    match GetPayload(n, token)
    case Some(p) => Some(ExpBefore(p, now))
    case None => None
  }

  /** Expiry is the strict comparison exp < now: a token whose exp equals now is still live. */
  lemma ExpiryIsStrict(n: Natives, token: string, now: int, exp: int)
    requires GetPayload(n, token).Some? && "exp" in GetPayload(n, token).value
    requires GetPayload(n, token).value["exp"] == Int(exp)
    ensures IsExpired(n, token, now) == Some(true) <==> exp < now
    ensures exp == now ==> IsExpired(n, token, now) == Some(false)
  {
  }

  /**
   * A token issued at `issued` with positive validity `v` (and decoded faithfully)
   * is expired at `now` exactly when issued + v < now.
   */
  lemma IssuedTokenLifetime(n: Natives, header: Claims, payload: Claims, secret: string, v: int, issued: int, now: int)
    requires Conforming(n) && v > 0
    requires n.jsonDecode(n.base64Decode(EncodeSegment(n, Stamp(payload, v, issued)))) == Some(Stamp(payload, v, issued))
    ensures IsExpired(n, Generate(n, header, payload, secret, v, issued), now) == Some(issued + v < now)
  {
    GenerateSegments(n, header, payload, secret, v, issued);
  }

  // ---------------------------------------------------------------------------
  // isClean (lines 135-140)
  // ---------------------------------------------------------------------------

  predicate SegmentShaped(s: string) {
    s != [] && forall i :: 0 <= i < |s| ==> IsSegmentChar(s[i])
  }

  /** `[C]+\.[C]+\.[C]+` over the whole string, for C = `[a-zA-Z0-9\-\_\=]`. */
  predicate ThreeSegments(s: string) {
    var parts := Explode(s);
    |parts| == 3 && SegmentShaped(parts[0]) && SegmentShaped(parts[1]) && SegmentShaped(parts[2])
  }

  /** `preg_match('/^[C]+\.[C]+\.[C]+$/', $token) === 1`; `$` also matches before a final "\n". */
  predicate IsClean(token: string) {
    AnchoredAtEnd(token, ThreeSegments)
  }

  lemma SegmentShapedNoDot(s: string)
    requires SegmentShaped(s)
    ensures '.' !in s
  {
  }

  /** ThreeSegments holds exactly of three non-empty class strings joined by two dots. */
  lemma ThreeSegmentsJoin(a: string, b: string, c: string)
    requires SegmentShaped(a) && SegmentShaped(b) && SegmentShaped(c)
    ensures ThreeSegments(a + "." + b + "." + c)
  {
    SegmentShapedNoDot(a);
    SegmentShapedNoDot(b);
    SegmentShapedNoDot(c);
    ExplodeThree(a, b, c);
  }

  lemma ThreeSegmentsSplit(s: string)
    requires ThreeSegments(s)
    ensures var p := Explode(s); s == p[0] + "." + p[1] + "." + p[2]
  {
    ImplodeExplode(s);
    var p := Explode(s);
    assert Implode(p[2..]) == p[2];
    assert Implode(p[1..]) == p[1] + "." + p[2];
    assert Implode(p) == p[0] + "." + (p[1] + "." + p[2]);
  }

  /**
   * The pattern of isClean, stated without explode: three non-empty strings over
   * `[a-zA-Z0-9\-\_\=]` separated by single dots, optionally followed by one "\n".
   */
  lemma IsCleanMeaning(token: string)
    ensures IsClean(token) <==>
      exists a, b, c :: SegmentShaped(a) && SegmentShaped(b) && SegmentShaped(c) &&
        (token == a + "." + b + "." + c || token == a + "." + b + "." + c + "\n")
  {
    if IsClean(token) {
      var body := if ThreeSegments(token) then token else token[..|token| - 1];
      ThreeSegmentsSplit(body);
      var p := Explode(body);
      assert token == body || token == body + "\n";
      assert SegmentShaped(p[0]) && SegmentShaped(p[1]) && SegmentShaped(p[2]);
    }
    if exists a, b, c :: SegmentShaped(a) && SegmentShaped(b) && SegmentShaped(c) &&
        (token == a + "." + b + "." + c || token == a + "." + b + "." + c + "\n") {
      var a, b, c :| SegmentShaped(a) && SegmentShaped(b) && SegmentShaped(c) &&
        (token == a + "." + b + "." + c || token == a + "." + b + "." + c + "\n");
      ThreeSegmentsJoin(a, b, c);
      if token != a + "." + b + "." + c {
        assert token[..|token| - 1] == a + "." + b + "." + c;
      }
    }
  }

  lemma UrlSegmentShaped(s: string)
    requires s != [] && UrlText(s)
    ensures SegmentShaped(s)
  {
  }

  /** Every token the engine generates passes isClean. */
  lemma GeneratedIsClean(n: Natives, header: Claims, payload: Claims, secret: string, validity: int, now: int)
    requires Conforming(n)
    ensures IsClean(Generate(n, header, payload, secret, validity, now))
  {
    GenerateSegments(n, header, payload, secret, validity, now);
    var t := Generate(n, header, payload, secret, validity, now);
    var p := Explode(t);
    UrlSegmentShaped(p[0]);
    UrlSegmentShaped(p[1]);
    UrlSegmentShaped(p[2]);
  }

  // ---------------------------------------------------------------------------
  // isValidJWT (lines 148-170)
  // ---------------------------------------------------------------------------

  /** What isValidJWT yields: the token, `false`, or the TypeError a getter raised. */
  datatype Verdict = Accepted(token: string) | Refused | Crashed

  /**
   * Lines 150-161: the trimmed credential from the first source that has one:
   * $_SERVER['Authorization'], then $_SERVER['HTTP_AUTHORIZATION'], then
   * apache_request_headers()['Authorization'] when that function exists; else ''.
   */
  function Credential(server: map<string, string>, apache: Option<map<string, string>>): (c: string)
    ensures c == [] || (!IsTrimChar(c[0]) && !IsTrimChar(c[|c| - 1]))
    ensures "Authorization" in server ==> c == Trim(server["Authorization"])
    ensures "Authorization" !in server && "HTTP_AUTHORIZATION" in server ==> c == Trim(server["HTTP_AUTHORIZATION"])
    ensures "Authorization" !in server && "HTTP_AUTHORIZATION" !in server && (apache.None? || "Authorization" !in apache.value) ==>
      c == []
  {
    if "Authorization" in server then Trim(server["Authorization"])
    else if "HTTP_AUTHORIZATION" in server then Trim(server["HTTP_AUTHORIZATION"])
    else if apache.Some? && "Authorization" in apache.value then Trim(apache.value["Authorization"])
    else ""
  }

  /** `preg_match('/Bearer\s(\S+)/', $s)`: "Bearer", a space character, a non-space, anywhere in s. */
  predicate HasBearer(s: string) {
    exists i :: 0 <= i < |s| && BearerAt(s, i)
  }

  predicate BearerAt(s: string, i: int) {
    0 <= i && i + 8 <= |s| && s[i..i + 6] == "Bearer" && IsSpace(s[i + 6]) && !IsSpace(s[i + 7])
  }

  /** `JWT::isValidJWT()` with the request's server variables, the secret and the clock as parameters. */
  function IsValidJWT(n: Natives, server: map<string, string>, apache: Option<map<string, string>>,
                      secret: string, now: int): (v: Verdict)
    ensures v.Accepted? ==>
      && HasBearer(Credential(server, apache))
      && v.token == RemoveAll(Credential(server, apache), "Bearer ")
      && IsClean(v.token)
      && Check(n, v.token, secret) == Some(true)
      && IsExpired(n, v.token, now) == Some(false)
    ensures !HasBearer(Credential(server, apache)) ==> v == Refused
    ensures var raw := Credential(server, apache); var t := RemoveAll(raw, "Bearer ");
      v.Accepted? <==>
        && raw != "" && HasBearer(raw) && IsClean(t)
        && Check(n, t, secret) == Some(true) && IsExpired(n, t, now) == Some(false)
    ensures var raw := Credential(server, apache); var t := RemoveAll(raw, "Bearer ");
      v.Crashed? <==>
        && raw != "" && HasBearer(raw) && IsClean(t)
        && (Check(n, t, secret).None? || (Check(n, t, secret) == Some(true) && IsExpired(n, t, now).None?))
  {
    var raw := Credential(server, apache);
    if raw != "" && HasBearer(raw) then
      var token := RemoveAll(raw, "Bearer ");
      if !IsClean(token) then Refused
      else match Check(n, token, secret)
        case None => Crashed
        case Some(false) => Refused
        case Some(true) =>
          match IsExpired(n, token, now)
          case None => Crashed
          case Some(expired) => if expired then Refused else Accepted(token)
    else Refused
  }

  /** An accepted credential is a token with three base64url segments whose third is the HMAC of the first two. */
  lemma AcceptedIsSigned(n: Natives, server: map<string, string>, apache: Option<map<string, string>>, secret: string, now: int)
    requires Conforming(n)
    requires IsValidJWT(n, server, apache, secret, now).Accepted?
    ensures var parts := Explode(IsValidJWT(n, server, apache, secret, now).token);
      |parts| == 3 && parts[2] == Signature(n, parts[0], parts[1], secret)
  {
    CheckSound(n, IsValidJWT(n, server, apache, secret, now).token, secret);
  }

  lemma UrlTextNoSpace(s: string)
    requires UrlText(s)
    ensures ' ' !in s
  {
  }

  /** A credential "Bearer <token>" is passed to the checks as <token> when the token has no space. */
  lemma BearerStripped(t: string)
    requires t != [] && IsUrlChar(t[0]) && IsUrlChar(t[|t| - 1]) && ' ' !in t
    ensures Trim("Bearer " + t) == "Bearer " + t
    ensures HasBearer("Bearer " + t)
    ensures RemoveAll("Bearer " + t, "Bearer ") == t
  {
    BearerTrimmed(t);
    BearerFound(t);
    BearerRemoved(t);
  }

  lemma BearerTrimmed(t: string)
    requires t != [] && IsUrlChar(t[|t| - 1])
    ensures Trim("Bearer " + t) == "Bearer " + t
  {
    var s := "Bearer " + t;
    assert s[0] == 'B' && s[|s| - 1] == t[|t| - 1];
    TrimKeeps(s);
  }

  lemma BearerFound(t: string)
    requires t != [] && IsUrlChar(t[0])
    ensures HasBearer("Bearer " + t)
  {
    var s := "Bearer " + t;
    assert s[7] == t[0] && s[6] == ' ' && s[0..6] == "Bearer";
    assert BearerAt(s, 0);
  }

  lemma BearerRemoved(t: string)
    requires ' ' !in t
    ensures RemoveAll("Bearer " + t, "Bearer ") == t
  {
    var needle := "Bearer ";
    assert needle[6] == ' ';
    RemoveAllPrefix(needle, t);
    RemoveAllAbsent(t, needle, 6);
  }

  /**
   * The issue-and-validate scenario: a token issued at `issued` for `v > 0` seconds
   * and sent as "Authorization: Bearer <token>" is accepted up to and including
   * second issued + v, and refused as expired afterwards.
   */
  lemma IssuedTokenValidates(n: Natives, header: Claims, payload: Claims, secret: string, v: int, issued: int,
                             server: map<string, string>, apache: Option<map<string, string>>, now: int)
    requires Conforming(n) && v > 0
    requires n.jsonDecode(n.base64Decode(EncodeSegment(n, header))) == Some(header)
    requires n.jsonDecode(n.base64Decode(EncodeSegment(n, Stamp(payload, v, issued)))) == Some(Stamp(payload, v, issued))
    requires "Authorization" in server
    requires server["Authorization"] == "Bearer " + Generate(n, header, payload, secret, v, issued)
    ensures now <= issued + v ==>
      IsValidJWT(n, server, apache, secret, now) == Accepted(Generate(n, header, payload, secret, v, issued))
    ensures issued + v < now ==> IsValidJWT(n, server, apache, secret, now) == Refused
  {
    var t := Generate(n, header, payload, secret, v, issued);
    GenerateSegments(n, header, payload, secret, v, issued);
    var parts := Explode(t);
    ImplodeExplode(t);
    assert t == parts[0] + "." + parts[1] + "." + parts[2];
    assert t[0] == parts[0][0];
    assert t[|t| - 1] == parts[2][|parts[2]| - 1];
    UrlTextNoSpace(parts[0]);
    UrlTextNoSpace(parts[1]);
    UrlTextNoSpace(parts[2]);
    BearerStripped(t);
    GeneratedIsClean(n, header, payload, secret, v, issued);
    CheckAcceptsIssued(n, header, payload, secret, v, issued);
    IssuedTokenLifetime(n, header, payload, secret, v, issued, now);
  }

  /**
   * Whatever its signature, a token without an integer `exp` claim is never
   * accepted while the clock is not 0: PHP reads the missing claim as null and
   * `null < now` is true.
   */
  lemma WithoutExpNeverAccepted(n: Natives, server: map<string, string>, apache: Option<map<string, string>>, secret: string, now: int)
    requires now != 0
    requires var t := RemoveAll(Credential(server, apache), "Bearer ");
      GetPayload(n, t).Some? && !("exp" in GetPayload(n, t).value && GetPayload(n, t).value["exp"].Int?)
    ensures !IsValidJWT(n, server, apache, secret, now).Accepted?
  {
  }
}
