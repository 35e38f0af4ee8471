/** The checks of internal/sigv4/verify.go and internal/sigv4/presign.go. */
module Verification {
  import opened Wrappers
  import opened Text
  import opened Decimals
  import opened Signing
  import opened UriEncoding
  import CanonicalQuery
  import opened Headers
  import opened Authorization

  datatype ErrorCode = MissingAuth | InvalidArgument | InvalidAccessKey | TimeTooSkewed | Expired | SignatureDoesNotMatch

  const UNSIGNED_PAYLOAD: Bytes := "UNSIGNED-PAYLOAD"
  const SIGNATURE_PARAMETER: Bytes := "X-Amz-Signature"

  // ---- Time, in nanoseconds ----

  const NANOS := 1_000_000_000
  const TWO_63 := 0x8000_0000_0000_0000

  /** The formats of the time stamps, which are not modelled; `format` and `day` take seconds. */
  datatype Calendar = Calendar(format: int -> Bytes, parse: Bytes -> Option<int>, day: int -> Bytes)

  function Wrap64(x: int): int {
    (x + TWO_63) % (2 * TWO_63) - TWO_63
  }

  /** time.Time.Sub: the difference, cut off at the limits of a 64-bit duration. */
  function Sub(a: int, b: int): int {
    if a - b > TWO_63 - 1 then TWO_63 - 1 else if a - b < -TWO_63 then -TWO_63 else a - b
  }

  predicate WithinSkew(now: int, signedAt: int, tolerance: int) {
    var diff := Sub(now, signedAt);
    (if diff < 0 then Wrap64(-diff) else diff) <= tolerance
  }

  /**
   The skew check accepts times within the tolerance, and, because the most negative duration
   is its own negation, also every time more than 2^63 - 1 nanoseconds in the future.
   */
  lemma SkewExactly(now: int, signedAt: int, tolerance: int)
    requires 0 <= tolerance < TWO_63 - 1
    ensures WithinSkew(now, signedAt, tolerance) <==>
      (-tolerance <= now - signedAt <= tolerance) || now - signedAt <= -TWO_63
  {
  }

  /**
   A signing time that a client can send and that passes for that reason: a clock in July 2025
   and a request dated the first of January 3000, with a tolerance of fifteen minutes.
   */
  lemma FarFutureAccepted()
    ensures WithinSkew(1_753_099_200 * NANOS, 32_503_680_000 * NANOS, 900 * NANOS)
  {
    SkewExactly(1_753_099_200 * NANOS, 32_503_680_000 * NANOS, 900 * NANOS);
  }

  predicate NotExpired(now: int, signedAt: int, expiresSeconds: int, tolerance: int) {
    && expiresSeconds > 0
    && now <= signedAt + Wrap64(expiresSeconds * NANOS) + tolerance
    && signedAt <= now + tolerance
  }

  /**
   A presigned request is valid from its signing time until it expires, with the tolerance at
   both ends; a validity too long for a 64-bit duration of nanoseconds wraps around.
   */
  lemma ExpiryExactly(now: int, signedAt: int, expiresSeconds: int, tolerance: int)
    requires -TWO_63 <= expiresSeconds < TWO_63
    ensures expiresSeconds <= 9_223_372_036 ==>
      (NotExpired(now, signedAt, expiresSeconds, tolerance) <==>
       0 < expiresSeconds && signedAt - tolerance <= now <= signedAt + expiresSeconds * 1_000_000_000 + tolerance)
    ensures 9_223_372_036 < expiresSeconds <= 18_446_744_073 ==>
      (NotExpired(now, signedAt, expiresSeconds, tolerance) <==>
       signedAt - tolerance <= now
       <= signedAt + expiresSeconds * 1_000_000_000 - 18_446_744_073_709_551_616 + tolerance)
  {
  }

  // ---- Verification ----

  datatype Verifier = Verifier(accessKey: Bytes, secretKey: Bytes, service: Bytes, clockSkew: int,
                               crypto: Crypto, calendar: Calendar) {
    function Service(): Bytes {
      if service == "" then "s3" else service
    }
  }

  function CanonicalUri(path: Bytes): Bytes {
    if path == "" then "/" else Encoded(path, false)
  }

  function CanonicalRequest(verb: Bytes, uri: Bytes, query: Bytes, signed: SignedPart, payloadHash: Bytes): Bytes {
    Join([verb, uri, query, signed.canonical, signed.names, payloadHash], "\n")
  }

  /** The signature that a request with these parts should carry. */
  ghost function Expected(v: Verifier, r: Request, exclude: set<Bytes>, amzDate: Bytes, sc: Scope,
                          signed: SignedPart, payloadHash: Bytes): Bytes
  {
    var query := CanonicalQuery.Canonical(r.query, exclude);
    var request := CanonicalRequest(r.verb, CanonicalUri(r.path), query, signed, payloadHash);
    Sign(v.crypto, v.secretKey, sc, StringToSign(amzDate, sc, v.crypto.HashHex(request)))
  }

  /** The scope of an acceptable credential. */
  function CheckCredential(v: Verifier, credential: Bytes): Result<Scope, ErrorCode> {
    match ParseCredential(credential)
    case None => Failure(InvalidArgument)
    case Some(sc) =>
      if sc.accessKey != v.accessKey then Failure(InvalidAccessKey)
      else if sc.service != v.Service() then Failure(InvalidArgument)
      else Success(sc)
  }

  /** The parts of a canonical request, line by line. */
  lemma CanonicalRequestIs(verb: Bytes, uri: Bytes, query: Bytes, signed: SignedPart, payloadHash: Bytes)
    ensures CanonicalRequest(verb, uri, query, signed, payloadHash)
         == verb + "\n" + (uri + "\n" + (query + "\n" + signed.canonical + "\n" + signed.names + "\n" + payloadHash))
  {
    var hs, ns := signed.canonical, signed.names;
    JoinFour(query, hs, ns, payloadHash, "\n");
    JoinMore(uri, [query, hs, ns, payloadHash], "\n");
    JoinMore(verb, [uri, query, hs, ns, payloadHash], "\n");
    assert [uri] + [query, hs, ns, payloadHash] == [uri, query, hs, ns, payloadHash];
    assert [verb] + [uri, query, hs, ns, payloadHash] == [verb, uri, query, hs, ns, payloadHash];
  }

  /** The text of a credential. */
  function CredentialText(sc: Scope): Bytes {
    sc.accessKey + "/" + (sc.date + "/" + sc.region + "/" + sc.service + "/aws4_request")
  }

  predicate NoSlashes(sc: Scope) {
    '/' !in sc.accessKey && '/' !in sc.date && '/' !in sc.region && '/' !in sc.service
  }

  /** A credential's verdict: another key is unknown, another service or any other text is invalid. */
  lemma CredentialVerdict(v: Verifier, sc: Scope)
    requires NoSlashes(sc)
    ensures CheckCredential(v, CredentialText(sc)) ==
      if sc.accessKey != v.accessKey then Failure(InvalidAccessKey)
      else if sc.service != v.Service() then Failure(InvalidArgument)
      else Success(sc)
  {
    CredentialRoundTrip(sc);
    ScopeStringIs(sc);
  }

  lemma OtherTextIsInvalid(v: Verifier, credential: Bytes)
    requires forall sc :: NoSlashes(sc) ==> credential != CredentialText(sc)
    ensures CheckCredential(v, credential) == Failure(InvalidArgument)
  {
    hide CredentialText;
    ParsedText(credential);
  }

  lemma ParsedText(credential: Bytes)
    ensures var sc := ParseCredential(credential);
      sc.Some? ==> NoSlashes(sc.value) && credential == CredentialText(sc.value)
  {
    var ps := Split(credential, '/');
    JoinSplit(credential, '/');
    if |ps| == 5 && ps[4] == TERMINATION {
      var sc := Scope(ps[0], ps[1], ps[2], ps[3]);
      assert ps == [ps[0], ps[1], ps[2], ps[3], TERMINATION];
      JoinMore(ps[0], [ps[1], ps[2], ps[3], TERMINATION], "/");
      assert [ps[0]] + [ps[1], ps[2], ps[3], TERMINATION] == ps;
      ScopeStringIs(sc);
      assert NoSlashes(sc) && credential == CredentialText(sc);
    }
  }

  /** None: the request is accepted. */
  ghost function VerifyHeader(v: Verifier, now: int, r: Request): Option<ErrorCode> {
    if r.Get("Authorization") == "" then Some(MissingAuth)
    else
      var parsed := Parsed(r.Get("Authorization"));
      if parsed.None? then Some(InvalidArgument)
      else
        match CheckCredential(v, parsed.value.credential)
        case Failure(e) => Some(e)
        case Success(sc) =>
          var amzDate := if r.Get("X-Amz-Date") != "" then r.Get("X-Amz-Date") else r.Get("Date");
          if amzDate == "" then Some(MissingAuth)
          else
            var signedAt := v.calendar.parse(amzDate);
            if signedAt.None? then Some(InvalidArgument)
            else if !WithinSkew(now, signedAt.value * NANOS, v.clockSkew) then Some(TimeTooSkewed)
            else
              var payloadHash := r.Get("X-Amz-Content-Sha256");
              if payloadHash == "" then Some(MissingAuth)
              else
                var signed := Canonical(r, Split(parsed.value.signedHeaders, ';'));
                if signed.None? then Some(InvalidArgument)
                else if Expected(v, r, {}, amzDate, sc, signed.value, payloadHash) != parsed.value.signature then
                  Some(SignatureDoesNotMatch)
                else None
  }

  function QueryGet(q: CanonicalQuery.Query, name: Bytes): Bytes {
    if name in q && q[name] != [] then q[name][0] else ""
  }

  ghost function VerifyPresigned(v: Verifier, now: int, r: Request): Option<ErrorCode> {
    var q := r.query;
    if QueryGet(q, "X-Amz-Algorithm") != ALGORITHM then Some(InvalidArgument)
    else if QueryGet(q, "X-Amz-Credential") == "" then Some(MissingAuth)
    else
      match CheckCredential(v, QueryGet(q, "X-Amz-Credential"))
      case Failure(e) => Some(e)
      case Success(sc) =>
        var amzDate := QueryGet(q, "X-Amz-Date");
        if amzDate == "" then Some(MissingAuth)
        else
          var signedAt, expires := v.calendar.parse(amzDate), Atoi(QueryGet(q, "X-Amz-Expires"));
          if signedAt.None? || expires.None? then Some(InvalidArgument)
          else if !NotExpired(now, signedAt.value * NANOS, expires.value, v.clockSkew) then Some(Expired)
          else if QueryGet(q, "X-Amz-SignedHeaders") == "" then Some(MissingAuth)
          else
            var signed := Canonical(r, Split(QueryGet(q, "X-Amz-SignedHeaders"), ';'));
            if signed.None? then Some(InvalidArgument)
            else if QueryGet(q, SIGNATURE_PARAMETER) == "" then Some(MissingAuth)
            else if Expected(v, r, {SIGNATURE_PARAMETER}, amzDate, sc, signed.value, UNSIGNED_PAYLOAD)
              != QueryGet(q, SIGNATURE_PARAMETER) then Some(SignatureDoesNotMatch)
            else None
  }

  ghost function Verify(v: Verifier, now: int, r: Request): Option<ErrorCode> {
    if QueryGet(r.query, SIGNATURE_PARAMETER) != "" then VerifyPresigned(v, now, r) else VerifyHeader(v, now, r)
  }
}
