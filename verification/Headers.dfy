/** HTTP requests as the signature code sees them, and their canonical headers. */
module Headers {
  import opened Wrappers
  import opened ByteOrder
  import opened Text
  import opened Sorting
  import opened Authorization
  import opened CanonicalQuery

  /** `headers` is keyed by lower-case name; each name may have several values. */
  datatype Request = Request(verb: Bytes, path: Bytes, host: Bytes, urlHost: Bytes, query: Query,
                             headers: map<Bytes, seq<Bytes>>, body: Option<Bytes>) {
    function Values(name: Bytes): seq<Bytes> {
      if Lower(name) in headers then headers[Lower(name)] else []
    }

    function Get(name: Bytes): Bytes {
      if Values(name) == [] then "" else Values(name)[0]
    }

    function Set(name: Bytes, value: Bytes): Request {
      this.(headers := headers[Lower(name) := [value]])
    }
  }

  function LowerChar(c: char): char {
    if 'A' <= c <= 'Z' then c - 'A' + 'a' else c
  }

  function Lower(s: Bytes): Bytes {
    seq(|s|, i requires 0 <= i < |s| => LowerChar(s[i]))
  }

  predicate IsBlank(c: char) {
    c == ' ' || c == '\t'
  }

  /** Every run of blanks becomes one space. */
  function Collapsed(s: Bytes, prevSpace: bool): Bytes {
    if s == "" then ""
    else if IsBlank(s[0]) then (if prevSpace then "" else " ") + Collapsed(s[1..], true)
    else [s[0]] + Collapsed(s[1..], false)
  }

  method CollapseSpaces(s: Bytes) returns (buf: Bytes)
    ensures buf == Collapsed(s, false)
  {
    buf := "";
    var prevSpace := false;
    var i := 0;
    while i < |s|
      invariant 0 <= i <= |s| && buf + Collapsed(s[i..], prevSpace) == Collapsed(s, false)
    {
      assert s[i..][1..] == s[i + 1..];
      var c := s[i];
      i := i + 1;
      if IsBlank(c) {
        if !prevSpace {
          buf := buf + " ";
        }
        prevSpace := true;
        continue;
      }
      prevSpace := false;
      buf := buf + [c];
    }
  }

  /** No tabs and no two spaces in a row. */
  predicate NoRuns(s: Bytes) {
    forall i :: 0 <= i < |s| ==> s[i] != '\t' && (i + 1 < |s| && s[i] == ' ' ==> s[i + 1] != ' ')
  }

  /** Collapsing leaves single spaces only, and leaves a value alone exactly when it has no runs. */
  lemma {:induction false} CollapsedHasNoRuns(s: Bytes, prevSpace: bool)
    ensures NoRuns(Collapsed(s, prevSpace))
    ensures prevSpace && Collapsed(s, prevSpace) != "" ==> Collapsed(s, prevSpace)[0] != ' '
    ensures NoRuns(s) && (prevSpace && s != "" ==> s[0] != ' ') ==> Collapsed(s, prevSpace) == s
  {
    if s != "" {
      CollapsedHasNoRuns(s[1..], IsBlank(s[0]));
      assert s == [s[0]] + s[1..];
    }
  }

  /** The maximal stretches without blanks. */
  function Words(s: Bytes): (ws: seq<Bytes>)
    ensures s != "" && !IsBlank(s[0]) ==> ws != []
  {
    if s == "" then []
    else if IsBlank(s[0]) then Words(s[1..])
    else if |s| == 1 || IsBlank(s[1]) then [[s[0]]] + Words(s[1..])
    else
      var ws := Words(s[1..]);
      [[s[0]] + ws[0]] + ws[1..]
  }

  /** Collapsing keeps the words, in order. */
  lemma {:induction false} CollapsedKeepsWords(s: Bytes, prevSpace: bool)
    ensures Words(Collapsed(s, prevSpace)) == Words(s)
    ensures !prevSpace ==>
      var t := Collapsed(s, prevSpace);
      (t == "" <==> s == "") && (s != "" ==> t[0] == if IsBlank(s[0]) then ' ' else s[0])
  {
    if s != "" {
      var t, rest := Collapsed(s, prevSpace), Collapsed(s[1..], IsBlank(s[0]));
      CollapsedKeepsWords(s[1..], IsBlank(s[0]));
      if IsBlank(s[0]) {
        assert if prevSpace then t == rest else t == [' '] + rest && t[1..] == rest;
      } else {
        assert t[1..] == rest;
        assert |s| > 1 ==> rest[0] == if IsBlank(s[1]) then ' ' else s[1];
      }
    }
  }

  function Trimmed(vs: seq<Bytes>): seq<Bytes> {
    seq(|vs|, i requires 0 <= i < |vs| => Collapsed(TrimSpace(vs[i]), false))
  }

  /** The value of a signed header; the host is kept apart from the other headers. */
  function HeaderValue(r: Request, name: Bytes): Option<Bytes> {
    if Lower(name) == "host" then
      var host := if r.host == "" then r.urlHost else r.host;
      if host == "" then None else Some(host)
    else if r.Values(name) == [] then None
    else Some(Join(Trimmed(r.Values(name)), ","))
  }

  function NameLe(a: Bytes, b: Bytes): bool {
    a == b || Less(a, b)
  }

  lemma NameLeIsTotal()
    ensures TotalOrder(NameLe)
  {
    forall a, b ensures NameLe(a, b) || NameLe(b, a) {
      Total(a, b);
    }
    forall a, b | NameLe(a, b) && NameLe(b, a) ensures a == b {
      Asymmetric(a, b);
    }
    forall a, b, c | NameLe(a, b) && NameLe(b, c) ensures NameLe(a, c) {
      if Less(a, b) && Less(b, c) { Transitive(a, b, c); }
    }
  }

  /** One line for each name; None when a named header is missing. */
  function Lines(r: Request, names: seq<Bytes>): Option<seq<Bytes>> {
    if names == [] then Some([])
    else
      var before, v := Lines(r, names[..|names| - 1]), HeaderValue(r, names[|names| - 1]);
      if before.None? || v.None? then None
      else Some(before.value + [names[|names| - 1] + ":" + v.value])
  }

  datatype SignedPart = SignedPart(canonical: Bytes, names: Bytes)

  function Canonical(r: Request, signedHeaderNames: seq<Bytes>): Option<SignedPart> {
    var names := Sort(signedHeaderNames, NameLe);
    match Lines(r, names)
    case None => None
    case Some(lines) => Some(SignedPart(Join(lines, "\n") + "\n", Join(names, ";")))
  }

  method CanonicalHeaders(r: Request, signedHeaderNames: seq<Bytes>) returns (p: Option<SignedPart>)
    ensures p == Canonical(r, signedHeaderNames)
  {
    var names := Sort(signedHeaderNames, NameLe);
    var lines: seq<Bytes> := [];
    var i := 0;
    while i < |names|
      invariant 0 <= i <= |names| && Lines(r, names[..i]) == Some(lines)
    {
      assert names[..i + 1][..i] == names[..i];
      var v := HeaderValue(r, names[i]);
      if v.None? {
        MissingLine(r, names, i);
        return None;
      }
      lines := lines + [names[i] + ":" + v.value];
      i := i + 1;
    }
    assert names[..i] == names;
    return Some(SignedPart(Join(lines, "\n") + "\n", Join(names, ";")));
  }

  lemma {:induction false} MissingLine(r: Request, names: seq<Bytes>, i: nat)
    requires i < |names| && HeaderValue(r, names[i]).None?
    ensures Lines(r, names).None?
    decreases |names|
  {
    if i < |names| - 1 {
      MissingLine(r, names[..|names| - 1], i);
    }
  }

  /** One line for each name, in the order of the names; none at all if a named header is missing. */
  lemma {:induction false} LinesAre(r: Request, names: seq<Bytes>)
    ensures Lines(r, names).Some? <==> forall n :: n in names ==> HeaderValue(r, n).Some?
    ensures Lines(r, names).Some? ==>
      var lines := Lines(r, names).value;
      |lines| == |names|
      && forall i :: 0 <= i < |names| ==>
           HeaderValue(r, names[i]).Some? && lines[i] == names[i] + ":" + HeaderValue(r, names[i]).value
    decreases |names|
  {
    if names != [] {
      var front, last := names[..|names| - 1], names[|names| - 1];
      LinesAre(r, front);
      assert names == front + [last];
    }
  }

  /** The order in which a client lists its signed headers does not matter. */
  lemma OrderOfNamesIrrelevant(r: Request, a: seq<Bytes>, b: seq<Bytes>)
    requires multiset(a) == multiset(b)
    ensures Canonical(r, a) == Canonical(r, b)
  {
    NameLeIsTotal();
    SortForgetsOrder(a, b, NameLe);
  }
}
