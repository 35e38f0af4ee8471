/** The mapping of object keys to backup ids and of buckets to namespaces in internal/idmap/sanitize.go. */
module Idmap {
  import opened Wrappers
  import opened Text
  import KeyNames

  const MAX_BACKUP_ID := 60
  const HASH_SUFFIX := 8
  const EXTENSIONS: seq<string> := [".tar.gz", ".tgz", ".tar", ".gz", ".zip"]

  predicate HasSuffix(s: string, suffix: string) {
    |suffix| <= |s| && s[|s| - |suffix|..] == suffix
  }

  /** Cuts off the first of the extensions that the key ends with. */
  function Strip(key: string, extensions: seq<string>): string {
    if extensions == [] then key
    else if HasSuffix(key, extensions[0]) then key[..|key| - |extensions[0]|]
    else Strip(key, extensions[1..])
  }

  predicate IsIdChar(c: char) {
    'A' <= c <= 'Z' || 'a' <= c <= 'z' || '0' <= c <= '9' || c == '-' || c == '_'
  }

  function Sanitized(s: string): string {
    seq(|s|, i requires 0 <= i < |s| => if IsIdChar(s[i]) then s[i] else '_')
  }

  method SanitizeChars(s: string) returns (buf: string)
    ensures buf == Sanitized(s)
  {
    buf := "";
    while |buf| < |s|
      invariant |buf| <= |s| && buf == Sanitized(s[..|buf|])
    {
      var r := s[|buf|];
      buf := buf + [if IsIdChar(r) then r else '_'];
    }
    assert s[..|buf|] == s;
  }

  /** A backup id that PBS accepts. */
  predicate ValidId(id: string) {
    0 < |id| <= MAX_BACKUP_ID && forall i :: 0 <= i < |id| ==> IsIdChar(id[i])
  }

  function SanitizeBackupId(digest: string -> Bytes, key: string): string {
    var stripped := Strip(key, EXTENSIONS);
    var sanitized := if Sanitized(stripped) == "" then "key" else Sanitized(stripped);
    if stripped == sanitized && |sanitized| <= MAX_BACKUP_ID then sanitized
    else
      var hash := Hex(digest(key));
      var suffix := if HASH_SUFFIX <= |hash| then hash[..HASH_SUFFIX] else hash;
      var room := MAX_BACKUP_ID - |suffix| - 1;
      (if |sanitized| > room then sanitized[..room] else sanitized) + "-" + suffix
  }

  lemma {:induction false} StripKeepsIds(id: string, extensions: seq<string>)
    requires '.' !in id && forall e :: e in extensions ==> '.' in e
    ensures Strip(id, extensions) == id
    decreases |extensions|
  {
    if extensions != [] {
      assert extensions[0] in extensions;
      SuffixHasItsChars(id, extensions[0], '.');
      StripKeepsIds(id, extensions[1..]);
    }
  }

  lemma SuffixHasItsChars(s: string, suffix: string, c: char)
    ensures HasSuffix(s, suffix) && c in suffix ==> c in s
  {
    if HasSuffix(s, suffix) && c in suffix {
      var i :| 0 <= i < |suffix| && suffix[i] == c;
      assert s[|s| - |suffix| + i] == s[|s| - |suffix|..][i];
    }
  }

  lemma SanitizedId(id: string)
    requires forall i :: 0 <= i < |id| ==> IsIdChar(id[i])
    ensures Sanitized(id) == id
  {
  }

  lemma IdIsValid(digest: string -> Bytes, key: string)
    ensures ValidId(SanitizeBackupId(digest, key))
  {
    var hash := Hex(digest(key));
    assert forall i :: 0 <= i < |hash| ==> IsIdChar(hash[i]);
  }

  /** Every key gets a valid id, and an id is its own id. */
  lemma SanitizeIsIdempotent(digest: string -> Bytes, key: string)
    ensures ValidId(SanitizeBackupId(digest, key))
    ensures SanitizeBackupId(digest, SanitizeBackupId(digest, key)) == SanitizeBackupId(digest, key)
  {
    IdIsValid(digest, key);
    var id := SanitizeBackupId(digest, key);
    IdsHaveNoExtension(id);
    SanitizedId(id);
  }

  /** The key without its extension is an id already. */
  predicate Clean(key: string) {
    ValidId(Strip(key, EXTENSIONS))
  }

  /** What an id shows of a key that is not clean: at most this many of its characters. */
  const SHOWN := MAX_BACKUP_ID - HASH_SUFFIX - 1

  function ShownOf(key: string): string {
    var s := Sanitized(Strip(key, EXTENSIONS));
    if s == "" then "key" else if |s| > SHOWN then s[..SHOWN] else s
  }

  function HashOf(digest: string -> Bytes, key: string): string
    requires |digest(key)| >= HASH_SUFFIX
  {
    Hex(digest(key))[..HASH_SUFFIX]
  }

  /** The id of a key: the key itself without its extension if that is an id, else what is shown of it and a digest. */
  lemma IdOf(digest: string -> Bytes, key: string)
    requires |digest(key)| >= HASH_SUFFIX
    ensures SanitizeBackupId(digest, key)
         == if Clean(key) then Strip(key, EXTENSIONS) else ShownOf(key) + "-" + HashOf(digest, key)
  {
    var s := Strip(key, EXTENSIONS);
    if Clean(key) {
      SanitizedId(s);
    } else if s == Sanitized(s) {
      assert forall i :: 0 <= i < |s| ==> Sanitized(s)[i] == s[i];
    }
  }

  /**
   Exactly when two keys share an id. Clean keys: when they differ in a known extension only.
   Other keys: when what is shown of them and the first digits of their digests agree. A clean
   key and another: when the clean one looks like the other's id.
   */
  lemma SharedIds(digest: string -> Bytes, k: string, l: string)
    requires |digest(k)| >= HASH_SUFFIX && |digest(l)| >= HASH_SUFFIX
    ensures SanitizeBackupId(digest, k) == SanitizeBackupId(digest, l) <==>
      if Clean(k) && Clean(l) then Strip(k, EXTENSIONS) == Strip(l, EXTENSIONS)
      else if Clean(k) then Strip(k, EXTENSIONS) == ShownOf(l) + "-" + HashOf(digest, l)
      else if Clean(l) then Strip(l, EXTENSIONS) == ShownOf(k) + "-" + HashOf(digest, k)
      else ShownOf(k) == ShownOf(l) && HashOf(digest, k) == HashOf(digest, l)
  {
    IdOf(digest, k);
    IdOf(digest, l);
    if !Clean(k) && !Clean(l) {
      var a, b := ShownOf(k) + "-", ShownOf(l) + "-";
      var g, h := HashOf(digest, k), HashOf(digest, l);
      if a + g == b + h {
        assert (a + g)[..|a|] == a && (b + h)[..|b|] == b && (a + g)[|a|..] == g && (b + h)[|b|..] == h;
        assert a[..|a| - 1] == ShownOf(k) && b[..|b| - 1] == ShownOf(l);
      }
    }
  }

  /** What is shown of a key: up to 51 of its characters, each that no id has as an underscore. */
  lemma ShownIs(key: string)
    ensures var s, t := Strip(key, EXTENSIONS), ShownOf(key);
      if s == "" then t == "key"
      else
        && |t| == (if |s| < 51 then |s| else 51)
        && forall i :: 0 <= i < |t| ==> t[i] == if IsIdChar(s[i]) then s[i] else '_'
  {
  }

  lemma IdsHaveNoExtension(id: string)
    requires ValidId(id)
    ensures Strip(id, EXTENSIONS) == id
  {
    assert forall e :: e in EXTENSIONS ==> '.' in e by {
      assert ".tar.gz"[0] == ".tgz"[0] == ".tar"[0] == ".gz"[0] == ".zip"[0] == '.';
    }
    StripKeepsIds(id, EXTENSIONS);
  }

  /** An id ends in no extension but the one added to it. */
  lemma NotSuffix(id: string, ext: string, other: string)
    requires '.' !in id && ext != "" && other != "" && other[0] == '.'
    requires |other| > |ext| || other[|other| - 1] != ext[|ext| - 1]
    ensures !HasSuffix(id + ext, other)
  {
    var s := id + ext;
    if |other| <= |s| {
      var tail := s[|s| - |other|..];
      assert tail[0] == s[|s| - |other|] && tail[|other| - 1] == s[|s| - 1] == ext[|ext| - 1];
    }
  }

  lemma AddedIsSuffix(id: string, ext: string)
    ensures HasSuffix(id + ext, ext) && (id + ext)[..|id + ext| - |ext|] == id
  {
  }

  /** The extensions before this one in the list are longer or end differently. */
  ghost predicate FirstMatch(ext: string, extensions: seq<string>) {
    exists n :: 0 <= n < |extensions| && extensions[n] == ext
      && forall m :: 0 <= m < n ==>
        var other := extensions[m];
        other != "" && other[0] == '.' && (|other| > |ext| || other[|other| - 1] != ext[|ext| - 1])
  }

  lemma {:induction false} StripAdded(id: string, ext: string, extensions: seq<string>)
    requires '.' !in id && ext != "" && FirstMatch(ext, extensions)
    ensures Strip(id + ext, extensions) == id
    decreases |extensions|
  {
    var n :| 0 <= n < |extensions| && extensions[n] == ext
      && forall m :: 0 <= m < n ==>
        var other := extensions[m];
        other != "" && other[0] == '.' && (|other| > |ext| || other[|other| - 1] != ext[|ext| - 1]);
    AddedIsSuffix(id, ext);
    if n > 0 {
      NotSuffix(id, ext, extensions[0]);
      assert extensions[1..][n - 1] == ext;
      assert forall m :: 0 <= m < n - 1 ==> extensions[1..][m] == extensions[m + 1];
      StripAdded(id, ext, extensions[1..]);
    }
  }

  lemma AnyExtensionMatches(ext: string)
    requires ext in [".tar.gz", ".tgz", ".tar", ".gz", ".zip"]
    ensures ext != "" && FirstMatch(ext, EXTENSIONS)
  {
    var n :| 0 <= n < 5 && EXTENSIONS[n] == ext;
    hide FirstMatch;
    assert FirstMatch(ext, EXTENSIONS) by { MatchAt(ext, n); }
  }

  lemma MatchAt(ext: string, n: nat)
    requires n < 5 && EXTENSIONS[n] == ext
    ensures FirstMatch(ext, EXTENSIONS)
  {
  }

  /** Such keys: any id, and the same with an extension. */
  lemma NotInjective(digest: string -> Bytes, id: string, ext: string)
    requires ValidId(id) && ext in [".tar.gz", ".tgz", ".tar", ".gz", ".zip"]
    ensures SanitizeBackupId(digest, id) == SanitizeBackupId(digest, id + ext) == id
  {
    hide FirstMatch;
    hide EXTENSIONS;
    AnyExtensionMatches(ext);
    StripAdded(id, ext, EXTENSIONS);
    IdsHaveNoExtension(id);
    SanitizedId(id);
  }

  /** The backups of all keys with one first segment share a group: that of the segment itself. */
  lemma GroupOfSegment(digest: string -> Bytes, segment: string, rest: string)
    requires '/' !in segment
    ensures GroupIdFromKey(digest, segment + "/" + rest) == GroupIdFromKey(digest, segment)
         == SanitizeBackupId(digest, segment)
  {
    assert segment + "/" + rest == KeyNames.Joined(segment, '/', rest);
    CutJoined(segment, '/', rest);
    assert Index(segment, '/') == |segment|;
  }

  function GroupIdFromKey(digest: string -> Bytes, key: string): string {
    SanitizeBackupId(digest, Cut(key, '/').before)
  }

  // ---- Namespaces ----

  function NonEmpty(parts: seq<string>): seq<string> {
    if parts == [] then []
    else NonEmpty(parts[..|parts| - 1]) + if parts[|parts| - 1] == "" then [] else [parts[|parts| - 1]]
  }

  /** The levels of a bucket's namespace. */
  function Levels(bucket: string): seq<string> {
    NonEmpty(Split(bucket, '.'))
  }

  /** Dots separate namespace levels; empty levels are dropped. */
  method SanitizeNamespace(bucket: string) returns (ns: string)
    ensures ns == Join(Levels(bucket), "/")
  {
    var parts := Split(bucket, '.');
    var out: seq<string> := [];
    var i := 0;
    while i < |parts|
      invariant 0 <= i <= |parts| && out == NonEmpty(parts[..i])
    {
      assert parts[..i + 1][..i] == parts[..i];
      if parts[i] != "" {
        out := out + [parts[i]];
      }
      i := i + 1;
    }
    assert parts[..i] == parts;
    ns := Join(out, "/");
  }

  lemma {:induction false} PartsOfSplit(s: string, c: char, d: char)
    requires d !in s
    ensures forall p :: p in Split(s, c) ==> d !in p
    decreases |s|
  {
    var i := Index(s, c);
    if i < |s| {
      PartsOfSplit(s[i + 1..], c, d);
    }
  }

  lemma {:induction false} NonEmptyParts(parts: seq<string>)
    ensures forall p :: p in NonEmpty(parts) <==> p in parts && p != ""
  {
    if parts != [] {
      NonEmptyParts(parts[..|parts| - 1]);
      assert parts == parts[..|parts| - 1] + [parts[|parts| - 1]];
    }
  }

  lemma SplitAt(a: string, c: char, b: string)
    requires c !in a
    ensures Split(a + [c] + b, c) == [a] + Split(b, c)
  {
    var s := KeyNames.Joined(a, c, b);
    IndexIs(a, c, b);
    assert s == a + [c] + b && s[..|a|] == a && s[|a| + 1..] == b;
  }

  lemma {:induction false} SplitConcat(a: string, b: string, c: char)
    ensures Split(a + [c] + b, c) == Split(a, c) + Split(b, c)
    decreases |a|
  {
    hide Text.Split;
    if c !in a {
      SplitAt(a, c, b);
      SplitWhole(a, c);
    } else {
      var i := Index(a, c);
      var front, rest := a[..i], a[i + 1..];
      SplitConcat(rest, b, c);
      SplitAt(front, c, rest);
      SplitAt(front, c, rest + [c] + b);
      assert a == front + [c] + rest;
      assert a + [c] + b == front + [c] + (rest + [c] + b);
    }
  }

  lemma SplitWhole(a: string, c: char)
    requires c !in a
    ensures Split(a, c) == [a]
  {
    assert Index(a, c) == |a|;
  }

  lemma {:induction false} NonEmptyConcat(a: seq<string>, b: seq<string>)
    ensures NonEmpty(a + b) == NonEmpty(a) + NonEmpty(b)
    decreases |b|
  {
    if b == [] {
      assert a + b == a;
    } else {
      assert (a + b)[..|a + b| - 1] == a + b[..|b| - 1];
      NonEmptyConcat(a, b[..|b| - 1]);
    }
  }

  /** A dot ends one level and begins another; a name without dots is one level, or none if it is empty. */
  lemma LevelsAre(a: string, b: string)
    ensures Levels(a + "." + b) == Levels(a) + Levels(b)
    ensures '.' !in a ==> Levels(a) == if a == "" then [] else [a]
  {
    SplitConcat(a, b, '.');
    NonEmptyConcat(Split(a, '.'), Split(b, '.'));
    if '.' !in a {
      assert Index(a, '.') == |a|;
      assert [a][..0] == [];
    }
  }

  /** The levels of the namespace are the non-empty parts of the bucket's name: dots become slashes. */
  lemma NamespaceLevels(bucket: string)
    requires '/' !in bucket
    ensures var levels := Levels(bucket);
      && (forall l :: l in levels ==> l != "" && '/' !in l)
      && (levels != [] ==> Split(Join(levels, "/"), '/') == levels)
  {
    var levels := Levels(bucket);
    PartsOfSplit(bucket, '.', '/');
    NonEmptyParts(Split(bucket, '.'));
    if levels != [] {
      SplitJoin(levels, '/');
    }
  }
}
