/**
 What a signature covers: two requests that the verifier accepts with one Authorization header
 agree in everything that is signed, if the hash functions have no collisions.
 */
module Integrity {
  import opened Wrappers
  import opened KeyNames
  import opened Text
  import opened Sorting
  import opened Signing
  import opened UriEncoding
  import CanonicalQuery
  import opened Headers
  import opened Authorization
  import opened Verification

  /** The last separator splits a string in only one way. */
  lemma LastSeparator(sep: char, a: Bytes, x: Bytes, b: Bytes, y: Bytes)
    requires sep !in x && sep !in y && Joined(a, sep, x) == Joined(b, sep, y)
    ensures a == b && x == y
  {
    var s := Joined(a, sep, x);
    assert s[|a|] == sep && s[|b|] == sep;
    assert forall i :: |a| < i < |s| ==> s[i] == x[i - |a| - 1];
    assert forall i :: |b| < i < |s| ==> s[i] == y[i - |b| - 1];
    assert |a| == |b|;
    assert s[..|a|] == a && s[..|b|] == b && s[|a| + 1..] == x && s[|b| + 1..] == y;
  }

  lemma Join6(a: Bytes, b: Bytes, c: Bytes, d: Bytes, e: Bytes, f: Bytes)
    ensures Join([a, b, c, d, e, f], "\n")
         == Joined(a, '\n', Joined(b, '\n', Joined(c, '\n', Joined(Joined(d, '\n', e), '\n', f))))
  {
    assert [a, b, c, d, e, f][1..] == [b, c, d, e, f] && [b, c, d, e, f][1..] == [c, d, e, f];
    assert [c, d, e, f][1..] == [d, e, f] && [d, e, f][1..] == [e, f] && [e, f][1..] == [f];
    assert Join([e, f], "\n") == e + "\n" + f;
    assert Join([d, e, f], "\n") == d + "\n" + (e + "\n" + f) == Joined(Joined(d, '\n', e), '\n', f);
    assert Join([c, d, e, f], "\n") == Joined(c, '\n', Joined(Joined(d, '\n', e), '\n', f));
    assert Join([b, c, d, e, f], "\n") == Joined(b, '\n', Join([c, d, e, f], "\n"));
    assert Join([a, b, c, d, e, f], "\n") == Joined(a, '\n', Join([b, c, d, e, f], "\n"));
  }

  /** A canonical request can be taken apart, although its header block has newlines of its own. */
  lemma CanonicalRequestInjective(verb: Bytes, uri: Bytes, query: Bytes, hs: SignedPart, hash: Bytes,
                                  verb': Bytes, uri': Bytes, query': Bytes, hs': SignedPart, hash': Bytes)
    requires '\n' !in verb && '\n' !in uri && '\n' !in query && '\n' !in hash
    requires '\n' !in verb' && '\n' !in uri' && '\n' !in query' && '\n' !in hash'
    requires hs.names == hs'.names
    requires CanonicalRequest(verb, uri, query, hs, hash) == CanonicalRequest(verb', uri', query', hs', hash')
    ensures verb == verb' && uri == uri' && query == query' && hs == hs' && hash == hash'
  {
    Join6(verb, uri, query, hs.canonical, hs.names, hash);
    Join6(verb', uri', query', hs'.canonical, hs'.names, hash');
    var d, d' := Joined(hs.canonical, '\n', hs.names), Joined(hs'.canonical, '\n', hs'.names);
    var c, c' := Joined(d, '\n', hash), Joined(d', '\n', hash');
    var b, b' := Joined(query, '\n', c), Joined(query', '\n', c');
    JoinedInjective('\n', verb, Joined(uri, '\n', b), verb', Joined(uri', '\n', b'));
    JoinedInjective('\n', uri, b, uri', b');
    JoinedInjective('\n', query, c, query', c');
    LastSeparator('\n', d, hash, d', hash');
    assert d[..|hs.canonical|] == hs.canonical && d'[..|hs'.canonical|] == hs'.canonical;
  }

  lemma SameHash(c: Crypto, amzDate: Bytes, amzDate': Bytes, sc: Scope, h: Bytes, h': Bytes)
    requires |h| == |h'| && StringToSign(amzDate, sc, h) == StringToSign(amzDate', sc, h')
    ensures h == h'
  {
    EndsWith(amzDate, sc, h);
    EndsWith(amzDate', sc, h');
  }

  lemma EndsWith(amzDate: Bytes, sc: Scope, h: Bytes)
    ensures var s := StringToSign(amzDate, sc, h); |s| >= |h| && s[|s| - |h|..] == h
  {
    var z := sc.ScopeString();
    assert [ALGORITHM, amzDate, z, h][1..] == [amzDate, z, h] && [amzDate, z, h][1..] == [z, h] && [z, h][1..] == [h];
    assert Join([z, h], "\n") == z + "\n" + h;
    assert Join([amzDate, z, h], "\n") == amzDate + "\n" + (z + "\n" + h);
    var s := StringToSign(amzDate, sc, h);
    assert s == ALGORITHM + "\n" + (amzDate + "\n" + (z + "\n" + h));
  }

  lemma SameExpected(v: Verifier, sc: Scope, amzDate: Bytes, text: Bytes, amzDate': Bytes, text': Bytes)
    requires var sts := StringToSign(amzDate, sc, v.crypto.HashHex(text));
      var sts' := StringToSign(amzDate', sc, v.crypto.HashHex(text'));
      && GoodDigests(v.crypto)
      && Sign(v.crypto, v.secretKey, sc, sts) == Sign(v.crypto, v.secretKey, sc, sts')
      && NoCollision(v.crypto.sha256, text, text')
      && NoCollision(m => v.crypto.hmac(SigningKey(v.crypto, v.secretKey, sc), m), sts, sts')
    ensures text == text'
  {
    var c := v.crypto;
    var key := SigningKey(c, v.secretKey, sc);
    var sts, sts' := StringToSign(amzDate, sc, c.HashHex(text)), StringToSign(amzDate', sc, c.HashHex(text'));
    HexInjective(c.hmac(key, sts), c.hmac(key, sts'));
    SameHash(c, amzDate, amzDate', sc, c.HashHex(text), c.HashHex(text'));
    HexInjective(c.sha256(text), c.sha256(text'));
  }

  // ---- What the verifier hashes for a request it accepts ----

  ghost function AuthOf(v: Verifier, now: int, r: Request): ParsedAuth
    requires VerifyHeader(v, now, r) == None
  {
    Parsed(r.Get("Authorization")).value
  }

  ghost function ScopeOf(v: Verifier, now: int, r: Request): Scope
    requires VerifyHeader(v, now, r) == None
  {
    CheckCredential(v, AuthOf(v, now, r).credential).value
  }

  ghost function HeadersOf(v: Verifier, now: int, r: Request): SignedPart
    requires VerifyHeader(v, now, r) == None
  {
    Canonical(r, Split(AuthOf(v, now, r).signedHeaders, ';')).value
  }

  ghost function SignedText(v: Verifier, now: int, r: Request): Bytes
    requires VerifyHeader(v, now, r) == None
  {
    CanonicalRequest(r.verb, CanonicalUri(r.path), CanonicalQuery.Canonical(r.query, {}), HeadersOf(v, now, r),
                     r.Get("X-Amz-Content-Sha256"))
  }

  ghost function SignedString(v: Verifier, now: int, r: Request): Bytes
    requires VerifyHeader(v, now, r) == None
  {
    StringToSign(DateOf(r), ScopeOf(v, now, r), v.crypto.HashHex(SignedText(v, now, r)))
  }

  function DateOf(r: Request): Bytes {
    if r.Get("X-Amz-Date") != "" then r.Get("X-Amz-Date") else r.Get("Date")
  }

  /** An accepted request names the key and the service, was signed in time, and carries the right signature. */
  lemma AcceptedSignature(v: Verifier, now: int, r: Request)
    requires VerifyHeader(v, now, r) == None
    ensures ScopeOf(v, now, r).accessKey == v.accessKey && ScopeOf(v, now, r).service == v.Service()
    ensures exists at :: v.calendar.parse(DateOf(r)) == Some(at) && WithinSkew(now, at * NANOS, v.clockSkew)
    ensures AuthOf(v, now, r).signature == Sign(v.crypto, v.secretKey, ScopeOf(v, now, r), SignedString(v, now, r))
  {
  }

  /** HTTP keeps newlines out of the method and of header values. */
  ghost predicate OneLine(r: Request) {
    '\n' !in r.verb && '\n' !in r.Get("X-Amz-Content-Sha256") && IsBytes(r.path) && CanonicalQuery.QueryBytes(r.query)
  }

  lemma NoNewlines(r: Request, exclude: set<Bytes>)
    ensures '\n' !in CanonicalUri(r.path) && '\n' !in CanonicalQuery.Canonical(r.query, exclude)
  {
    EncodedAlphabet(r.path, false);
    CanonicalQuery.CanonicalAlphabet(r.query, exclude);
  }

  lemma PathCovered(p: Bytes, p': Bytes)
    requires IsBytes(p) && IsBytes(p') && CanonicalUri(p) == CanonicalUri(p')
    ensures p == p' || {p, p'} == {"", "/"}
  {
    EncodingInjective(p, p', false);
    assert Encoded("/", false) == "/" by { assert "/"[1..] == ""; }
    EncodingInjective(p, "/", false);
    EncodingInjective(p', "/", false);
  }

  /** Neither hash function collides on the texts of these two requests. */
  ghost predicate Apart(v: Verifier, now: int, r: Request, now': int, r': Request)
    requires VerifyHeader(v, now, r) == None && VerifyHeader(v, now', r') == None
  {
    && NoCollision(v.crypto.sha256, SignedText(v, now, r), SignedText(v, now', r'))
    && NoCollision(m => v.crypto.hmac(SigningKey(v.crypto, v.secretKey, ScopeOf(v, now, r)), m),
                   SignedString(v, now, r), SignedString(v, now', r'))
  }

  /**
   Two accepted requests with the same Authorization header have the same method, the same
   path ("" counts as "/"), the same query parameters, the same signed headers and the same
   payload hash: none of these can be changed without the signature failing.
   */
  lemma SignatureCoversRequest(v: Verifier, now: int, r: Request, now': int, r': Request)
    requires GoodDigests(v.crypto) && OneLine(r) && OneLine(r')
    requires r.Get("Authorization") == r'.Get("Authorization")
    requires VerifyHeader(v, now, r) == None && VerifyHeader(v, now', r') == None && Apart(v, now, r, now', r')
    ensures r.verb == r'.verb && (r.path == r'.path || {r.path, r'.path} == {"", "/"})
    ensures CanonicalQuery.SameParameters(r.query, r'.query, {})
    ensures HeadersOf(v, now, r) == HeadersOf(v, now', r')
    ensures r.Get("X-Amz-Content-Sha256") == r'.Get("X-Amz-Content-Sha256")
  {
    AcceptedSignature(v, now, r);
    AcceptedSignature(v, now', r');
    SameExpected(v, ScopeOf(v, now, r), DateOf(r), SignedText(v, now, r), DateOf(r'), SignedText(v, now', r'));
    NoNewlines(r, {});
    NoNewlines(r', {});
    var q, q' := CanonicalQuery.Canonical(r.query, {}), CanonicalQuery.Canonical(r'.query, {});
    CanonicalRequestInjective(r.verb, CanonicalUri(r.path), q, HeadersOf(v, now, r), r.Get("X-Amz-Content-Sha256"),
                              r'.verb, CanonicalUri(r'.path), q', HeadersOf(v, now', r'), r'.Get("X-Amz-Content-Sha256"));
    PathCovered(r.path, r'.path);
    CanonicalQuery.CanonicalIffSameParameters(r.query, r'.query, {});
  }

  // ---- The same for presigned requests ----

  ghost function PresignedScope(v: Verifier, now: int, r: Request): Scope
    requires VerifyPresigned(v, now, r) == None
  {
    CheckCredential(v, QueryGet(r.query, "X-Amz-Credential")).value
  }

  ghost function PresignedHeaders(v: Verifier, now: int, r: Request): SignedPart
    requires VerifyPresigned(v, now, r) == None
  {
    Canonical(r, Split(QueryGet(r.query, "X-Amz-SignedHeaders"), ';')).value
  }

  ghost function PresignedText(v: Verifier, now: int, r: Request): Bytes
    requires VerifyPresigned(v, now, r) == None
  {
    CanonicalRequest(r.verb, CanonicalUri(r.path), CanonicalQuery.Canonical(r.query, {SIGNATURE_PARAMETER}),
                     PresignedHeaders(v, now, r), UNSIGNED_PAYLOAD)
  }

  ghost function PresignedString(v: Verifier, now: int, r: Request): Bytes
    requires VerifyPresigned(v, now, r) == None
  {
    StringToSign(QueryGet(r.query, "X-Amz-Date"), PresignedScope(v, now, r), v.crypto.HashHex(PresignedText(v, now, r)))
  }

  lemma PresignedSignature(v: Verifier, now: int, r: Request)
    requires VerifyPresigned(v, now, r) == None
    ensures QueryGet(r.query, SIGNATURE_PARAMETER)
         == Sign(v.crypto, v.secretKey, PresignedScope(v, now, r), PresignedString(v, now, r))
  {
  }

  lemma PresignedNames(v: Verifier, now: int, r: Request)
    requires VerifyPresigned(v, now, r) == None
    ensures PresignedHeaders(v, now, r).names
         == Join(Sort(Split(QueryGet(r.query, "X-Amz-SignedHeaders"), ';'), NameLe), ";")
  {
  }

  ghost predicate PresignedApart(v: Verifier, now: int, r: Request, now': int, r': Request)
    requires VerifyPresigned(v, now, r) == None && VerifyPresigned(v, now', r') == None
  {
    && NoCollision(v.crypto.sha256, PresignedText(v, now, r), PresignedText(v, now', r'))
    && NoCollision(m => v.crypto.hmac(SigningKey(v.crypto, v.secretKey, PresignedScope(v, now, r)), m),
                   PresignedString(v, now, r), PresignedString(v, now', r'))
  }

  /**
   Two accepted presigned requests with the same credential, signed-header list and signature
   have the same method, path and signed headers, and the same query parameters except for the
   signature itself: in particular a link's expiry time cannot be changed.
   */
  lemma SignatureCoversPresigned(v: Verifier, now: int, r: Request, now': int, r': Request)
    requires GoodDigests(v.crypto) && OneLine(r) && OneLine(r')
    requires VerifyPresigned(v, now, r) == None && VerifyPresigned(v, now', r') == None
    requires PresignedApart(v, now, r, now', r')
    requires QueryGet(r.query, "X-Amz-Credential") == QueryGet(r'.query, "X-Amz-Credential")
    requires QueryGet(r.query, "X-Amz-SignedHeaders") == QueryGet(r'.query, "X-Amz-SignedHeaders")
    requires QueryGet(r.query, SIGNATURE_PARAMETER) == QueryGet(r'.query, SIGNATURE_PARAMETER)
    ensures r.verb == r'.verb && (r.path == r'.path || {r.path, r'.path} == {"", "/"})
    ensures CanonicalQuery.SameParameters(r.query, r'.query, {SIGNATURE_PARAMETER})
    ensures PresignedHeaders(v, now, r) == PresignedHeaders(v, now', r')
  {
    hide Text.Join;
    hide Text.Split;
    hide Headers.Canonical;
    hide CanonicalQuery.Canonical;
    hide CanonicalRequest;
    hide VerifyPresigned;
    PresignedSignature(v, now, r);
    PresignedSignature(v, now', r');
    PresignedNames(v, now, r);
    PresignedNames(v, now', r');
    SameExpected(v, PresignedScope(v, now, r), QueryGet(r.query, "X-Amz-Date"), PresignedText(v, now, r),
                 QueryGet(r'.query, "X-Amz-Date"), PresignedText(v, now', r'));
    var ex := {SIGNATURE_PARAMETER};
    NoNewlines(r, ex);
    NoNewlines(r', ex);
    assert '\n' !in UNSIGNED_PAYLOAD;
    CanonicalRequestInjective(
      r.verb, CanonicalUri(r.path), CanonicalQuery.Canonical(r.query, ex), PresignedHeaders(v, now, r), UNSIGNED_PAYLOAD,
      r'.verb, CanonicalUri(r'.path), CanonicalQuery.Canonical(r'.query, ex), PresignedHeaders(v, now', r'),
      UNSIGNED_PAYLOAD);
    PathCovered(r.path, r'.path);
    CanonicalQuery.CanonicalIffSameParameters(r.query, r'.query, ex);
  }
}
