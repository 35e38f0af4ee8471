/** The Authorization header of AWS Signature Version 4, as internal/sigv4/verify.go reads it. */
module Authorization {
  import opened Wrappers
  import opened KeyNames
  import opened Text
  import opened Signing

  const WHITESPACE: Bytes := " \t\n\U{B}\U{C}\r"

  function TrimSpace(s: Bytes): Bytes {
    TrimRight(TrimLeft(s, WHITESPACE), WHITESPACE)
  }

  predicate Blank(s: Bytes) {
    forall i :: 0 <= i < |s| ==> s[i] in WHITESPACE
  }

  lemma {:induction false} TrimLeftIs(s: Bytes) returns (before: Bytes)
    ensures s == before + TrimLeft(s, WHITESPACE) && Blank(before)
    ensures TrimLeft(s, WHITESPACE) != "" ==> TrimLeft(s, WHITESPACE)[0] !in WHITESPACE
  {
    before := "";
    if s != "" && s[0] in WHITESPACE {
      var more := TrimLeftIs(s[1..]);
      before := [s[0]] + more;
      assert s == [s[0]] + s[1..];
    }
  }

  lemma {:induction false} TrimRightIs(s: Bytes) returns (after: Bytes)
    ensures s == TrimRight(s, WHITESPACE) + after && Blank(after)
    ensures TrimRight(s, WHITESPACE) != "" ==>
      var t := TrimRight(s, WHITESPACE); t[|t| - 1] !in WHITESPACE && t[0] == s[0]
  {
    hide WHITESPACE;
    after := "";
    if s != "" && s[|s| - 1] in WHITESPACE {
      var more := TrimRightIs(s[..|s| - 1]);
      after := more + [s[|s| - 1]];
      assert s == s[..|s| - 1] + [s[|s| - 1]];
    }
  }

  /** Trimming takes white space from both ends, and all of it. */
  lemma TrimSpaceIs(s: Bytes) returns (before: Bytes, after: Bytes)
    ensures s == before + TrimSpace(s) + after && Blank(before) && Blank(after)
    ensures var t := TrimSpace(s); t != "" ==> t[0] !in WHITESPACE && t[|t| - 1] !in WHITESPACE
  {
    before := TrimLeftIs(s);
    after := TrimRightIs(TrimLeft(s, WHITESPACE));
    assert s == before + (TrimSpace(s) + after);
  }

  datatype ParsedAuth = ParsedAuth(credential: Bytes, signedHeaders: Bytes, signature: Bytes)

  /** One "name=value" field; a field without '=' or with another name is skipped. */
  function SetField(out: ParsedAuth, field: Bytes): ParsedAuth {
    var kv := Cut(TrimSpace(field), '=');
    if kv.after.None? then out
    else if kv.before == "Credential" then out.(credential := kv.after.value)
    else if kv.before == "SignedHeaders" then out.(signedHeaders := kv.after.value)
    else if kv.before == "Signature" then out.(signature := kv.after.value)
    else out
  }

  function SetFields(out: ParsedAuth, fields: seq<Bytes>): ParsedAuth {
    if fields == [] then out else SetField(SetFields(out, fields[..|fields| - 1]), fields[|fields| - 1])
  }

  /** What follows the algorithm and white space, on one line, as the pattern demands. */
  function Fields(h: Bytes): Option<Bytes> {
    if !(ALGORITHM <= h) then None
    else
      var rest := h[|ALGORITHM|..];
      var fields := TrimLeft(rest, " \t\n\U{C}\r");
      if fields == rest || fields == "" || '\n' in fields then None else Some(fields)
  }

  function Complete(out: ParsedAuth): Option<ParsedAuth> {
    if out.credential == "" || out.signedHeaders == "" || out.signature == "" then None else Some(out)
  }

  function Parsed(h: Bytes): Option<ParsedAuth> {
    var fields := Fields(h);
    if fields.None? then None else Complete(SetFields(ParsedAuth("", "", ""), Split(fields.value, ',')))
  }

  method ParseAuthorizationHeader(h: Bytes) returns (r: Option<ParsedAuth>)
    ensures r == Parsed(h)
  {
    var m := Fields(h);
    if m.None? { return None; }
    var out := ParsedAuth("", "", "");
    var fields := Split(m.value, ',');
    var i := 0;
    while i < |fields|
      invariant 0 <= i <= |fields| && out == SetFields(ParsedAuth("", "", ""), fields[..i])
    {
      assert fields[..i + 1][..i] == fields[..i];
      out := SetField(out, fields[i]);
      i := i + 1;
    }
    assert fields[..i] == fields;
    return Complete(out);
  }

  function Printed(a: ParsedAuth): Bytes {
    ALGORITHM + " Credential=" + a.credential + ", SignedHeaders=" + a.signedHeaders + ", Signature=" + a.signature
  }

  /** A value that survives printing and parsing. */
  predicate Plain(v: Bytes) {
    v != "" && ',' !in v && '\n' !in v && v[|v| - 1] !in WHITESPACE
  }

  lemma FieldOf(name: Bytes, v: Bytes, blank: Bytes)
    requires name != "" && name[0] !in WHITESPACE && '=' !in name && Plain(v) && (blank == "" || blank == " ")
    ensures Cut(TrimSpace(blank + name + "=" + v), '=') == Halves(name, Some(v))
  {
    var f := name + "=" + v;
    var s := blank + name + "=" + v;
    assert blank + f == s;
    assert f[0] == name[0] && f[|f| - 1] == v[|v| - 1];
    assert TrimLeft(f, WHITESPACE) == f;
    if blank == " " {
      assert s[0] == ' ' && s[1..] == f;
      assert TrimLeft(s, WHITESPACE) == TrimLeft(s[1..], WHITESPACE) == f;
    } else {
      assert s == f;
    }
    assert TrimRight(f, WHITESPACE) == f;
    assert f == Joined(name, '=', v);
    CutJoined(name, '=', v);
  }

  lemma Join3(a: Bytes, b: Bytes, c: Bytes, sep: Bytes)
    ensures Join([a, b, c], sep) == a + sep + (b + sep + c)
  {
    assert [a, b, c][1..] == [b, c] && [b, c][1..] == [c];
    assert Join([c], sep) == c;
    assert Join([b, c], sep) == b + sep + c;
  }

  /** The three fields, as they stand between the commas. */
  function PrintedFields(a: ParsedAuth): seq<Bytes> {
    ["Credential=" + a.credential, " SignedHeaders=" + a.signedHeaders, " Signature=" + a.signature]
  }

  lemma FieldsAfterAlgorithm(fields: Bytes)
    requires fields != "" && fields[0] !in WHITESPACE && '\n' !in fields
    ensures Fields(ALGORITHM + " " + fields) == Some(fields)
  {
    var rest := " " + fields;
    assert ALGORITHM + " " + fields == ALGORITHM + rest;
    assert (ALGORITHM + rest)[|ALGORITHM|..] == rest && rest[1..] == fields;
    assert TrimLeft(fields, " \t\n\U{C}\r") == fields;
    assert TrimLeft(rest, " \t\n\U{C}\r") == fields;
  }

  lemma PrintedIsJoin(a: ParsedAuth)
    ensures Printed(a) == ALGORITHM + " " + Join(PrintedFields(a), ",")
  {
    var c, h, g := "Credential=" + a.credential, " SignedHeaders=" + a.signedHeaders, " Signature=" + a.signature;
    Join3(c, h, g, ",");
    hide Text.Join;
    var front := ALGORITHM + " ";
    assert front + "Credential=" == ALGORITHM + " Credential=";
    assert "," + " SignedHeaders=" == ", SignedHeaders=" && "," + " Signature=" == ", Signature=";
    assert front + (c + "," + (h + "," + g)) == front + c + ("," + h) + ("," + g);
    assert front + c == ALGORITHM + " Credential=" + a.credential;
    assert "," + h == ", SignedHeaders=" + a.signedHeaders && "," + g == ", Signature=" + a.signature;
    assert front + c + ("," + h) == ALGORITHM + " Credential=" + a.credential + ", SignedHeaders=" + a.signedHeaders;
  }

  lemma FieldsOfPrinted(a: ParsedAuth)
    requires Plain(a.credential) && Plain(a.signedHeaders) && Plain(a.signature)
    ensures Fields(Printed(a)) == Some(Join(PrintedFields(a), ","))
  {
    var c, h, g := "Credential=" + a.credential, " SignedHeaders=" + a.signedHeaders, " Signature=" + a.signature;
    Join3(c, h, g, ",");
    var fields := c + "," + (h + "," + g);
    assert '\n' !in c && '\n' !in h && '\n' !in g;
    assert fields[0] == c[0] == 'C';
    PrintedIsJoin(a);
    FieldsAfterAlgorithm(fields);
  }

  lemma SplitPrinted(a: ParsedAuth)
    requires Plain(a.credential) && Plain(a.signedHeaders) && Plain(a.signature)
    ensures Split(Join(PrintedFields(a), ","), ',') == PrintedFields(a)
  {
    var fs := PrintedFields(a);
    assert ',' !in fs[0] && ',' !in fs[1] && ',' !in fs[2];
    SplitJoin(fs, ',');
  }

  lemma SetFields3(z: ParsedAuth, c: Bytes, h: Bytes, g: Bytes)
    ensures SetFields(z, [c, h, g]) == SetField(SetField(SetField(z, c), h), g)
  {
    assert [c, h, g][..2] == [c, h] && [c, h][..1] == [c] && [c][..0] == [];
    assert SetFields(z, [c]) == SetField(z, c);
    assert SetFields(z, [c, h]) == SetField(SetField(z, c), h);
  }

  // What each of the printed fields sets.

  lemma CredentialSets(out: ParsedAuth, v: Bytes)
    requires Plain(v)
    ensures SetField(out, "Credential=" + v) == out.(credential := v)
  {
    assert "" + "Credential" + "=" == "Credential=";
    FieldOf("Credential", v, "");
  }

  lemma SignedHeadersSets(out: ParsedAuth, v: Bytes)
    requires Plain(v)
    ensures SetField(out, " SignedHeaders=" + v) == out.(signedHeaders := v)
  {
    assert " " + "SignedHeaders" + "=" == " SignedHeaders=";
    FieldOf("SignedHeaders", v, " ");
  }

  lemma SignatureSets(out: ParsedAuth, v: Bytes)
    requires Plain(v)
    ensures SetField(out, " Signature=" + v) == out.(signature := v)
  {
    assert " " + "Signature" + "=" == " Signature=";
    FieldOf("Signature", v, " ");
  }

  /** Printing and parsing gives the three values back. */
  lemma PrintParse(a: ParsedAuth)
    requires Plain(a.credential) && Plain(a.signedHeaders) && Plain(a.signature)
    ensures Parsed(Printed(a)) == Some(a)
  {
    FieldsOfPrinted(a);
    SplitPrinted(a);
    var z := ParsedAuth("", "", "");
    SetFields3(z, "Credential=" + a.credential, " SignedHeaders=" + a.signedHeaders, " Signature=" + a.signature);
    CredentialSets(z, a.credential);
    SignedHeadersSets(z.(credential := a.credential), a.signedHeaders);
    SignatureSets(z.(credential := a.credential).(signedHeaders := a.signedHeaders), a.signature);
  }
}
