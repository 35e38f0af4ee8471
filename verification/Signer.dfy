/**
 The independent signer of internal/testsign/signer.go, and what the verifier makes of the
 requests it signs.
 */
module Signer {
  import opened Wrappers
  import opened Text
  import opened Sorting
  import opened Decimals
  import opened Signing
  import opened UriEncoding
  import CanonicalQuery
  import opened Headers
  import opened Authorization
  import opened Verification

  datatype Signer = Signer(accessKey: Bytes, secretKey: Bytes, region: Bytes, service: Bytes,
                           crypto: Crypto, calendar: Calendar) {
    function Region(): Bytes {
      if region == "" then "us-east-1" else region
    }

    function Service(): Bytes {
      if service == "" then "s3" else service
    }

    function Scope(now: int): Bytes {
      calendar.day(now) + "/" + Region() + "/" + Service() + "/aws4_request"
    }

    function SigningKey(now: int): Bytes {
      var kDate := crypto.hmac("AWS4" + secretKey, calendar.day(now));
      var kRegion := crypto.hmac(kDate, Region());
      var kService := crypto.hmac(kRegion, Service());
      crypto.hmac(kService, "aws4_request")
    }

    ghost function Signature(now: int, r: Request, exclude: set<Bytes>, canonHeaders: Bytes, signedHeaders: Bytes,
                             payloadHash: Bytes): Bytes
    {
      var uri := if Encoded(r.path, false) == "" then "/" else Encoded(r.path, false);
      var query := CanonicalQuery.Canonical(r.query, exclude);
      var request := Join([r.verb, uri, query, canonHeaders, signedHeaders, payloadHash], "\n");
      var sts := Join([ALGORITHM, calendar.format(now), Scope(now), crypto.HashHex(request)], "\n");
      Hex(crypto.hmac(SigningKey(now), sts))
    }

    function WithHost(r: Request): Request {
      if r.host == "" then r.(host := r.urlHost) else r
    }

    function SignedNames(r: Request): seq<Bytes> {
      var names := ["host", "x-amz-content-sha256", "x-amz-date"];
      Sort(if r.Get("Content-Type") != "" then names + ["content-type"] else names, NameLe)
    }

    function HeaderLine(r: Request, name: Bytes): Bytes {
      name + ":" + if name == "host" then r.host else TrimSpace(r.Get(name))
    }

    /** The request with its date, payload hash and host set, ready to be signed. */
    function Prepared(now: int, r: Request): Request {
      var body := if r.body.None? then "" else r.body.value;
      WithHost(r.Set("x-amz-date", calendar.format(now)).Set("x-amz-content-sha256", crypto.HashHex(body)))
    }

    ghost function HeaderAuth(now: int, r: Request): ParsedAuth {
      var p := Prepared(now, r);
      var names := SignedNames(p);
      var canonHeaders := Join(HeaderLines(this, p, names), "\n") + "\n";
      var signedHeaders := Join(names, ";");
      var signature := Signature(now, p, {}, canonHeaders, signedHeaders, p.Get("x-amz-content-sha256"));
      ParsedAuth(accessKey + "/" + Scope(now), signedHeaders, signature)
    }

    ghost function SignHeader(now: int, r: Request): Request {
      Prepared(now, r).Set("Authorization", Printed(HeaderAuth(now, r)))
    }

    function WithParameters(now: int, expires: int, q: CanonicalQuery.Query): CanonicalQuery.Query {
      q["X-Amz-Algorithm" := [ALGORITHM]]
       ["X-Amz-Credential" := [accessKey + "/" + Scope(now)]]
       ["X-Amz-Date" := [calendar.format(now)]]
       ["X-Amz-Expires" := [Itoa(expires)]]
       ["X-Amz-SignedHeaders" := ["host"]]
    }

    ghost function UrlSignature(now: int, expires: int, r: Request): Bytes {
      var p := WithHost(r).(query := WithParameters(now, expires, r.query));
      Signature(now, p, {SIGNATURE_PARAMETER}, "host:" + p.host + "\n", "host", UNSIGNED_PAYLOAD)
    }

    /** The request with the query parameters of a presigned URL. */
    ghost function WithUrlSignature(now: int, expires: int, r: Request, signature: Bytes): Request {
      WithHost(r).(query := WithParameters(now, expires, r.query)[SIGNATURE_PARAMETER := [signature]])
    }

    ghost function PresignUrl(now: int, expires: int, r: Request): Request {
      WithUrlSignature(now, expires, r, UrlSignature(now, expires, r))
    }
  }

  // ---- What the signer and the verifier must agree on ----

  /** A value without separators or white space. */
  predicate Token(s: Bytes) {
    s != "" && forall i :: 0 <= i < |s| ==> s[i] !in WHITESPACE && s[i] != ',' && s[i] != '/' && s[i] != ';'
  }

  ghost predicate GoodCalendar(c: Calendar) {
    forall t :: c.parse(c.format(t)) == Some(t) && Token(c.format(t)) && Token(c.day(t))
  }

  /** The same credentials, service and clockwork, and names that a credential can be made of. */
  ghost predicate Agree(s: Signer, v: Verifier) {
    && s.accessKey == v.accessKey && s.secretKey == v.secretKey && s.Service() == v.Service()
    && s.crypto == v.crypto && s.crypto.Sized() && (forall m :: |s.crypto.sha256(m)| == 32)
    && s.calendar == v.calendar && GoodCalendar(s.calendar)
    && '/' !in s.accessKey && '/' !in s.Region() && '/' !in s.Service()
  }

  lemma ScopeString(s: Signer, now: int)
    ensures s.Scope(now) == Signing.Scope(s.accessKey, s.calendar.day(now), s.Region(), s.Service()).ScopeString()
  {
    var a, b, c, d := s.calendar.day(now), s.Region(), s.Service(), TERMINATION;
    assert [a, b, c, d][1..] == [b, c, d] && [b, c, d][1..] == [c, d] && [c, d][1..] == [d];
    assert Join([c, d], "/") == c + "/" + d;
    assert Join([b, c, d], "/") == b + "/" + (c + "/" + d);
  }

  /** The credential of the signer is the one its scope prints, and the verifier takes it. */
  lemma CredentialAccepted(s: Signer, v: Verifier, now: int)
    requires Agree(s, v)
    ensures CheckCredential(v, s.accessKey + "/" + s.Scope(now)) ==
      Success(Signing.Scope(s.accessKey, s.calendar.day(now), s.Region(), s.Service()))
  {
    var sc := Signing.Scope(s.accessKey, s.calendar.day(now), s.Region(), s.Service());
    ScopeString(s, now);
    assert Token(s.calendar.day(now));
    CredentialRoundTrip(sc);
  }

  /** Signer and verifier compute the same signature from the same parts. */
  lemma SameSignature(s: Signer, v: Verifier, now: int, r: Request, r': Request, exclude: set<Bytes>,
                      signed: SignedPart, payloadHash: Bytes)
    requires Agree(s, v) && r.verb == r'.verb && r.path == r'.path
    requires CanonicalQuery.Canonical(r.query, exclude) == CanonicalQuery.Canonical(r'.query, exclude)
    ensures var sc := Signing.Scope(s.accessKey, s.calendar.day(now), s.Region(), s.Service());
      Expected(v, r', exclude, s.calendar.format(now), sc, signed, payloadHash)
      == s.Signature(now, r, exclude, signed.canonical, signed.names, payloadHash)
  {
    ScopeString(s, now);
    assert Encoded(r.path, false) == "" <==> r.path == "";
  }

  // ---- Presigned requests ----

  lemma ParametersSet(s: Signer, now: int, expires: int, q: CanonicalQuery.Query, signature: Bytes)
    ensures var q' := s.WithParameters(now, expires, q)[SIGNATURE_PARAMETER := [signature]];
      && QueryGet(q', "X-Amz-Algorithm") == ALGORITHM
      && QueryGet(q', "X-Amz-Credential") == s.accessKey + "/" + s.Scope(now)
      && QueryGet(q', "X-Amz-Date") == s.calendar.format(now)
      && QueryGet(q', "X-Amz-Expires") == Itoa(expires)
      && QueryGet(q', "X-Amz-SignedHeaders") == "host"
      && QueryGet(q', SIGNATURE_PARAMETER) == signature
  {
    assert "X-Amz-Algorithm"[6] == 'A' && "X-Amz-Credential"[6] == 'C' && "X-Amz-Date"[6] == 'D';
    assert "X-Amz-Expires"[6] == 'E' && "X-Amz-SignedHeaders"[6] == 'S' && |"X-Amz-SignedHeaders"| == 19;
    assert SIGNATURE_PARAMETER[6] == 'S' && |SIGNATURE_PARAMETER| == 15;
  }

  lemma HostHeader(r: Request)
    requires r.host != ""
    ensures Canonical(r, Split("host", ';')) == Some(SignedPart("host:" + r.host + "\n", "host"))
  {
    assert Join(["host"], ";") == "host" && forall p :: p in ["host"] ==> ';' !in p;
    SplitJoin(["host"], ';');
    assert Sort(["host"], NameLe) == ["host"] by {
      assert ["host"][1..] == [];
      assert Sort([], NameLe) == [];
    }
    assert Lower("host") == "host";
    assert ["host"][..0] == [] && Lines(r, []) == Some([]);
    assert [] + ["host" + ":" + r.host] == ["host" + ":" + r.host];
    assert "host" + ":" == "host:";
  }

  /** A presigned request is accepted exactly while it is valid; otherwise it counts as expired. */
  lemma PresignedIffInTime(s: Signer, v: Verifier, now: int, expires: int, r: Request, later: int)
    requires Agree(s, v) && s.WithHost(r).host != "" && -TWO_63 <= expires < TWO_63
    ensures Verify(v, later, s.PresignUrl(now, expires, r)) ==
      if NotExpired(later, now * NANOS, expires, v.clockSkew) then None else Some(Expired)
  {
    assert |s.UrlSignature(now, expires, r)| == 64;
    PresignedVerdict(s, v, now, expires, r, later, s.UrlSignature(now, expires, r));
  }

  /** Of all signatures that a valid presigned URL could carry, the signer's is the one accepted. */
  lemma PresignedVerdict(s: Signer, v: Verifier, now: int, expires: int, r: Request, later: int, signature: Bytes)
    requires Agree(s, v) && s.WithHost(r).host != "" && -TWO_63 <= expires < TWO_63 && signature != ""
    ensures Verify(v, later, s.WithUrlSignature(now, expires, r, signature)) ==
      if !NotExpired(later, now * NANOS, expires, v.clockSkew) then Some(Expired)
      else if signature == s.UrlSignature(now, expires, r) then None
      else Some(SignatureDoesNotMatch)
  {
    hide Expected;
    hide CheckCredential;
    hide Headers.Canonical;
    hide CanonicalQuery.Canonical;
    hide Text.Join;
    hide Text.Split;
    hide NotExpired;
    var p := s.WithHost(r).(query := s.WithParameters(now, expires, r.query));
    var signed := SignedPart("host:" + p.host + "\n", "host");
    var r' := s.WithUrlSignature(now, expires, r, signature);
    assert r' == p.(query := p.query[SIGNATURE_PARAMETER := [signature]]);
    ParametersSet(s, now, expires, r.query, signature);
    CredentialAccepted(s, v, now);
    ItoaRoundTrip(expires);
    HostHeader(r');
    CanonicalQuery.ExcludedIsIrrelevant(p.query, {SIGNATURE_PARAMETER}, SIGNATURE_PARAMETER, [signature]);
    SameSignature(s, v, now, p, r', {SIGNATURE_PARAMETER}, signed, UNSIGNED_PAYLOAD);
  }

  // ---- Requests signed in the header ----

  lemma LowerNames()
    ensures Lower("host") == "host" && Lower("x-amz-date") == "x-amz-date" && Lower("content-type") == "content-type"
    ensures Lower("Authorization") == "authorization" && Lower("X-Amz-Date") == "x-amz-date"
    ensures Lower("Content-Type") == "content-type"
  {
  }

  lemma LowerHashName()
    ensures Lower("x-amz-content-sha256") == Lower("X-Amz-Content-Sha256") == "x-amz-content-sha256"
  {
  }

  /** At most one content type is sent, and it has no runs of blanks. */
  predicate PlainContentType(r: Request) {
    r.Get("Content-Type") != "" ==>
      |r.Values("Content-Type")| == 1 && NoRuns(TrimSpace(r.Get("Content-Type")))
  }

  lemma TrimToken(t: Bytes)
    requires t != "" && forall i :: 0 <= i < |t| ==> t[i] !in WHITESPACE
    ensures TrimSpace(t) == t && Collapsed(t, false) == t
  {
    NothingToTrim(t);
    hide Text.TrimLeft;
    hide Text.TrimRight;
    NoBlanks(t);
    CollapsedHasNoRuns(t, false);
  }

  lemma NothingToTrim(t: Bytes)
    requires t != "" && t[0] !in WHITESPACE && t[|t| - 1] !in WHITESPACE
    ensures TrimLeft(t, WHITESPACE) == t && TrimRight(t, WHITESPACE) == t
  {
  }

  lemma NoBlanks(t: Bytes)
    requires forall i :: 0 <= i < |t| ==> t[i] !in WHITESPACE
    ensures NoRuns(t)
  {
    assert WHITESPACE[0] == ' ' && WHITESPACE[1] == '\t';
  }

  lemma HexToken(t: Bytes)
    requires t != "" && forall i :: 0 <= i < |t| ==> IsLowerHex(t[i])
    ensures Token(t)
  {
    assert forall i :: 0 <= i < |WHITESPACE| ==> !IsLowerHex(WHITESPACE[i]);
  }

  lemma SingleValue(v: Bytes)
    requires NoRuns(TrimSpace(v))
    ensures Join(Trimmed([v]), ",") == TrimSpace(v)
  {
    CollapsedHasNoRuns(TrimSpace(v), false);
    assert Trimmed([v]) == [TrimSpace(v)];
  }

  const SIGNED := ["host", "x-amz-content-sha256", "x-amz-date", "content-type"]

  /** What the verifier reads for a signed name is what the signer wrote for it. */
  lemma ValueAgrees(s: Signer, now: int, r: Request, auth: Bytes, name: Bytes)
    requires s.crypto.Sized() && (forall m :: |s.crypto.sha256(m)| == 32) && GoodCalendar(s.calendar)
    requires PlainContentType(r) && s.WithHost(r).host != "" && name in SIGNED
    requires name == "content-type" ==> r.Get("Content-Type") != ""
    ensures var p := s.Prepared(now, r);
      HeaderValue(p.Set("Authorization", auth), name) == Some(if name == "host" then p.host else TrimSpace(p.Get(name)))
  {
    LowerNames();
    LowerHashName();
    var p := s.Prepared(now, r);
    var q := p.Set("Authorization", auth);
    if name == "x-amz-date" {
      var t := s.calendar.format(now);
      assert Token(t);
      assert q.Values(name) == [t] == p.Values(name);
      TrimToken(t);
      SingleValue(t);
    } else if name == "x-amz-content-sha256" {
      var t := p.Get(name);
      HexToken(t);
      assert q.Values(name) == [t];
      TrimToken(t);
      SingleValue(t);
    } else if name == "content-type" {
      assert q.Values(name) == r.Values(name) == [r.Get(name)];
      SingleValue(r.Get(name));
    }
  }

  /** The lines that the signer writes for the names. */
  function HeaderLines(s: Signer, p: Request, names: seq<Bytes>): seq<Bytes> {
    seq(|names|, i requires 0 <= i < |names| => s.HeaderLine(p, names[i]))
  }

  lemma {:induction false} LinesAgree(s: Signer, now: int, r: Request, auth: Bytes, names: seq<Bytes>)
    requires s.crypto.Sized() && (forall m :: |s.crypto.sha256(m)| == 32) && GoodCalendar(s.calendar)
    requires PlainContentType(r) && s.WithHost(r).host != ""
    requires forall n :: n in names ==> n in SIGNED && (n == "content-type" ==> r.Get("Content-Type") != "")
    ensures var p := s.Prepared(now, r); Lines(p.Set("Authorization", auth), names) == Some(HeaderLines(s, p, names))
    decreases |names|
  {
    if names != [] {
      var p, before, n := s.Prepared(now, r), names[..|names| - 1], names[|names| - 1];
      assert n in names;
      LinesAgree(s, now, r, auth, before);
      ValueAgrees(s, now, r, auth, n);
      assert HeaderLines(s, p, names) == HeaderLines(s, p, before) + [s.HeaderLine(p, n)];
    }
  }

  /** The names the signer signs, sorted; the verifier gets them back from the printed list. */
  lemma NamesAgree(s: Signer, p: Request)
    ensures var names := s.SignedNames(p);
      && Sort(names, NameLe) == names && Split(Join(names, ";"), ';') == names && Plain(Join(names, ";"))
      && forall n :: n in names ==> n in SIGNED && (n == "content-type" ==> p.Get("Content-Type") != "")
  {
    hide Text.Join;
    hide Text.Split;
    hide Authorization.Plain;
    hide GoodName;
    var few: seq<Bytes> := ["host", "x-amz-content-sha256", "x-amz-date"];
    var base := if p.Get("Content-Type") != "" then few + ["content-type"] else few;
    var names := s.SignedNames(p);
    NameLeIsTotal();
    SortSorts(base, NameLe);
    SortForgetsOrder(names, base, NameLe);
    assert |multiset(names)| == |multiset(base)|;
    forall n | n in names ensures n in base && n in SIGNED && GoodName(n) {
      assert n in multiset(names);
      GoodNames(n);
    }
    PrintedNames(names);
  }

  lemma GoodNames(n: Bytes)
    requires n in SIGNED
    ensures GoodName(n)
  {
  }

  lemma PrintedNames(names: seq<Bytes>)
    requires names != [] && forall n :: n in names ==> GoodName(n)
    ensures Split(Join(names, ";"), ';') == names && Plain(Join(names, ";"))
  {
    assert forall n :: n in names ==> ';' !in n;
    SplitJoin(names, ';');
    JoinedNamesPlain(names);
  }

  /** A header name without separators. */
  predicate GoodName(n: Bytes) {
    n != "" && forall i :: 0 <= i < |n| ==> n[i] != ';' && n[i] != ',' && n[i] !in WHITESPACE
  }

  lemma {:induction false} JoinedNamesPlain(names: seq<Bytes>)
    requires names != [] && forall n :: n in names ==> GoodName(n)
    ensures Plain(Join(names, ";"))
    decreases |names|
  {
    assert names[0] in names && '\n' in WHITESPACE;
    if |names| > 1 {
      JoinedNamesPlain(names[1..]);
    }
  }

  /** The parts of a credential can stand in an Authorization header. */
  predicate HeaderSafe(part: Bytes) {
    ',' !in part && '\n' !in part
  }

  lemma CredentialPlain(s: Signer, now: int)
    requires GoodCalendar(s.calendar) && HeaderSafe(s.accessKey) && HeaderSafe(s.Region()) && HeaderSafe(s.Service())
    ensures Plain(s.accessKey + "/" + s.Scope(now))
  {
    var d := s.calendar.day(now);
    assert Token(d) && '\n' in WHITESPACE;
    var c := s.accessKey + "/" + s.Scope(now);
    assert c[|c| - 1] == "/aws4_request"[12] == 't';
    assert ',' !in d && '\n' !in d && ',' !in "/aws4_request" && '\n' !in "/aws4_request";
  }

  /** The verifier builds the canonical headers that the signer signed. */
  lemma HeadersAgree(s: Signer, now: int, r: Request, auth: Bytes)
    requires s.crypto.Sized() && (forall m :: |s.crypto.sha256(m)| == 32) && GoodCalendar(s.calendar)
    requires PlainContentType(r) && s.WithHost(r).host != ""
    ensures var p := s.Prepared(now, r);
      var names := s.SignedNames(p);
      && Canonical(p.Set("Authorization", auth), Split(Join(names, ";"), ';'))
         == Some(SignedPart(Join(HeaderLines(s, p, names), "\n") + "\n", Join(names, ";")))
      && Plain(Join(names, ";"))
  {
    LowerNames();
    var p := s.Prepared(now, r);
    assert p.Get("Content-Type") == r.Get("Content-Type");
    NamesAgree(s, p);
    LinesAgree(s, now, r, auth, s.SignedNames(p));
  }

  /** Of all signatures that a request signed in time could carry, the signer's is the one accepted. */
  lemma HeaderVerdict(s: Signer, v: Verifier, now: int, r: Request, later: int, signature: Bytes)
    requires Agree(s, v) && HeaderSafe(s.accessKey) && HeaderSafe(s.Region()) && HeaderSafe(s.Service())
    requires s.WithHost(r).host != "" && PlainContentType(r) && Plain(signature)
    ensures var auth := s.HeaderAuth(now, r);
      VerifyHeader(v, later, s.Prepared(now, r).Set("Authorization", Printed(auth.(signature := signature)))) ==
      if !WithinSkew(later, now * NANOS, v.clockSkew) then Some(TimeTooSkewed)
      else if signature == auth.signature then None
      else Some(SignatureDoesNotMatch)
  {
    hide Authorization.Plain;
    hide Authorization.Printed;
    hide Authorization.Parsed;
    hide Text.Join;
    hide Text.Split;
    hide VerifyHeader;
    hide Expected;
    hide CheckCredential;
    var p := s.Prepared(now, r);
    var names := s.SignedNames(p);
    var signed := SignedPart(Join(HeaderLines(s, p, names), "\n") + "\n", Join(names, ";"));
    var hash := p.Get("x-amz-content-sha256");
    var auth := s.HeaderAuth(now, r).(signature := signature);
    var r' := p.Set("Authorization", Printed(auth));
    HeadersAgree(s, now, r, Printed(auth));
    HeadersSet(s, now, r, Printed(auth));
    CredentialPlain(s, now);
    PrintParse(auth);
    CredentialAccepted(s, v, now);
    SameSignature(s, v, now, p, r', {}, signed, hash);
    PrintedIsSomething(auth);
    AcceptedParts(v, later, r', auth, s.calendar.format(now), now, signed, hash);
  }

  lemma PrintedIsSomething(a: ParsedAuth)
    ensures Printed(a) != ""
  {
  }

  /** A signed request is accepted exactly while the verifier's clock is close to the signing time. */
  lemma HeaderIffInTime(s: Signer, v: Verifier, now: int, r: Request, later: int)
    requires Agree(s, v) && HeaderSafe(s.accessKey) && HeaderSafe(s.Region()) && HeaderSafe(s.Service())
    requires s.WithHost(r).host != "" && PlainContentType(r)
    ensures var result := if WithinSkew(later, now * NANOS, v.clockSkew) then None else Some(TimeTooSkewed);
      && VerifyHeader(v, later, s.SignHeader(now, r)) == result
      && (QueryGet(r.query, SIGNATURE_PARAMETER) == "" ==> Verify(v, later, s.SignHeader(now, r)) == result)
  {
    hide VerifyHeader;
    hide Authorization.Plain;
    hide Authorization.Printed;
    var p := s.Prepared(now, r);
    var names := s.SignedNames(p);
    var auth := s.HeaderAuth(now, r);
    SignaturePlain(s, now, p, {}, Join(HeaderLines(s, p, names), "\n") + "\n", Join(names, ";"),
                   p.Get("x-amz-content-sha256"));
    HeaderVerdict(s, v, now, r, later, auth.signature);
    assert auth.(signature := auth.signature) == auth;
  }

  /** A request whose parts are all in order is judged by its time and its signature. */
  lemma AcceptedParts(v: Verifier, later: int, r: Request, auth: ParsedAuth, amzDate: Bytes, at: int,
                      signed: SignedPart, hash: Bytes)
    requires r.Get("Authorization") != "" && Parsed(r.Get("Authorization")) == Some(auth)
    requires CheckCredential(v, auth.credential).Success?
    requires r.Get("X-Amz-Date") == amzDate != "" && v.calendar.parse(amzDate) == Some(at)
    requires r.Get("X-Amz-Content-Sha256") == hash != ""
    requires Canonical(r, Split(auth.signedHeaders, ';')) == Some(signed)
    ensures VerifyHeader(v, later, r) ==
      if !WithinSkew(later, at * NANOS, v.clockSkew) then Some(TimeTooSkewed)
      else if Expected(v, r, {}, amzDate, CheckCredential(v, auth.credential).value, signed, hash) == auth.signature
      then None
      else Some(SignatureDoesNotMatch)
  {
  }

  lemma SignaturePlain(s: Signer, now: int, r: Request, exclude: set<Bytes>, canonHeaders: Bytes, signedHeaders: Bytes,
                       payloadHash: Bytes)
    requires s.crypto.Sized()
    ensures Plain(s.Signature(now, r, exclude, canonHeaders, signedHeaders, payloadHash))
  {
    var t := s.Signature(now, r, exclude, canonHeaders, signedHeaders, payloadHash);
    assert |t| == 64;
    HexToken(t);
    PlainToken(t);
  }

  lemma PlainToken(t: Bytes)
    requires Token(t)
    ensures Plain(t)
  {
    assert '\n' in WHITESPACE;
  }

  lemma HeadersSet(s: Signer, now: int, r: Request, auth: Bytes)
    requires GoodCalendar(s.calendar) && forall m :: |s.crypto.sha256(m)| == 32
    ensures var p := s.Prepared(now, r);
      var r' := p.Set("Authorization", auth);
      && r'.Get("Authorization") == auth
      && r'.Get("X-Amz-Date") == s.calendar.format(now) != ""
      && r'.Get("X-Amz-Content-Sha256") == p.Get("x-amz-content-sha256") != ""
  {
    LowerNames();
    LowerHashName();
    assert Token(s.calendar.format(now));
  }
}
