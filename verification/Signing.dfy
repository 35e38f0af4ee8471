/** The signature chain of AWS Signature Version 4 and its credential scopes. */
module Signing {
  import opened Wrappers
  import opened KeyNames
  import opened Text

  const ALGORITHM: Bytes := "AWS4-HMAC-SHA256"
  const TERMINATION: Bytes := "aws4_request"

  /** SHA-256 and HMAC-SHA-256 are not modelled beyond being functions with 32-byte results. */
  datatype Crypto = Crypto(sha256: Bytes -> Bytes, hmac: (Bytes, Bytes) -> Bytes) {
    ghost predicate Sized() {
      forall k, m :: |hmac(k, m)| == 32
    }

    function HashHex(s: Bytes): Bytes {
      Hex(sha256(s))
    }
  }

  datatype Scope = Scope(accessKey: Bytes, date: Bytes, region: Bytes, service: Bytes) {
    function ScopeString(): Bytes {
      Join([date, region, service, TERMINATION], "/")
    }

    /** The credential that names the scope. */
    function Credential(): Bytes {
      accessKey + "/" + ScopeString()
    }
  }

  function ParseCredential(cred: Bytes): Option<Scope> {
    var parts := Split(cred, '/');
    if |parts| != 5 || parts[4] != TERMINATION then None
    else Some(Scope(parts[0], parts[1], parts[2], parts[3]))
  }

  /** A credential is read back as the scope it was printed from exactly when no part has a slash. */
  lemma CredentialRoundTrip(sc: Scope)
    ensures ParseCredential(sc.Credential()) == Some(sc) <==>
      '/' !in sc.accessKey && '/' !in sc.date && '/' !in sc.region && '/' !in sc.service
  {
    var parts := [sc.accessKey, sc.date, sc.region, sc.service, TERMINATION];
    assert parts[1..] == [sc.date, sc.region, sc.service, TERMINATION];
    assert Join(parts, "/") == sc.Credential();
    SplitJoin(parts, '/');
    assert '/' !in TERMINATION;
    assert (forall p :: p in parts ==> '/' !in p) <==>
      '/' !in parts[0] && '/' !in parts[1] && '/' !in parts[2] && '/' !in parts[3];
  }

  function SigningKey(c: Crypto, secret: Bytes, sc: Scope): Bytes {
    var kDate := c.hmac("AWS4" + secret, sc.date);
    var kRegion := c.hmac(kDate, sc.region);
    var kService := c.hmac(kRegion, sc.service);
    c.hmac(kService, TERMINATION)
  }

  function Sign(c: Crypto, secret: Bytes, sc: Scope, sts: Bytes): Bytes {
    Hex(c.hmac(SigningKey(c, secret, sc), sts))
  }

  function StringToSign(amzDate: Bytes, sc: Scope, requestHash: Bytes): Bytes {
    Join([ALGORITHM, amzDate, sc.ScopeString(), requestHash], "\n")
  }

  lemma JoinTwo(a: Bytes, b: Bytes, sep: Bytes)
    ensures Join([a, b], sep) == a + sep + b
  {
    assert [a, b][1..] == [b];
  }

  lemma JoinMore(a: Bytes, rest: seq<Bytes>, sep: Bytes)
    requires rest != []
    ensures Join([a] + rest, sep) == a + sep + Join(rest, sep)
  {
    assert ([a] + rest)[1..] == rest;
  }

  lemma JoinFour(a: Bytes, b: Bytes, c: Bytes, d: Bytes, sep: Bytes)
    ensures Join([a, b, c, d], sep) == a + sep + b + sep + c + sep + d
  {
    JoinTwo(c, d, sep);
    JoinMore(b, [c, d], sep);
    JoinMore(a, [b, c, d], sep);
    assert [b] + [c, d] == [b, c, d] && [a] + [b, c, d] == [a, b, c, d];
  }

  lemma ScopeStringIs(sc: Scope)
    ensures sc.ScopeString() == sc.date + "/" + sc.region + "/" + sc.service + "/aws4_request"
  {
    JoinFour(sc.date, sc.region, sc.service, TERMINATION, "/");
    assert "/" + TERMINATION == "/aws4_request";
    assert sc.date + "/" + sc.region + "/" + sc.service + ("/" + TERMINATION)
        == sc.date + "/" + sc.region + "/" + sc.service + "/" + TERMINATION;
  }

  /** The string to sign and the signing key, letter by letter. */
  lemma SignatureIs(c: Crypto, secret: Bytes, sc: Scope, amzDate: Bytes, hash: Bytes)
    ensures StringToSign(amzDate, sc, hash)
         == "AWS4-HMAC-SHA256\n" + amzDate + "\n"
            + (sc.date + "/" + sc.region + "/" + sc.service + "/aws4_request") + "\n" + hash
    ensures SigningKey(c, secret, sc)
         == c.hmac(c.hmac(c.hmac(c.hmac("AWS4" + secret, sc.date), sc.region), sc.service), "aws4_request")
  {
    ScopeStringIs(sc);
    JoinFour(ALGORITHM, amzDate, sc.ScopeString(), hash, "\n");
    assert ALGORITHM + "\n" == "AWS4-HMAC-SHA256\n";
  }

  /** Digests are 32 bytes. */
  ghost predicate GoodDigests(c: Crypto) {
    && (forall m :: |c.sha256(m)| == 32 && IsBytes(c.sha256(m)))
    && (forall k, m :: |c.hmac(k, m)| == 32 && IsBytes(c.hmac(k, m)))
  }

  predicate NoCollision(f: Bytes -> Bytes, a: Bytes, b: Bytes) {
    f(a) == f(b) ==> a == b
  }
}
