/** The scratch manager of internal/stage/staging.go. */
module Staging {
  import opened Wrappers
  import opened KeyNames
  import opened Decimals
  import opened Scratch

  const FINAL: Bytes := "final.img"

  datatype WriteResult = WriteResult(path: Bytes, size: nat, md5: Bytes)

  /** The contents of the files, one after the other. */
  ghost function Concat(files: Files, paths: seq<Bytes>): Bytes {
    if paths == [] then []
    else
      var p := paths[|paths| - 1];
      Concat(files, paths[..|paths| - 1]) + if p in files then files[p] else []
  }

  ghost predicate AllExist(files: Files, paths: seq<Bytes>) {
    forall p :: p in paths ==> p in files
  }

  ghost predicate Distinct(paths: seq<Bytes>) {
    forall i, j :: 0 <= i < j < |paths| ==> paths[i] != paths[j]
  }

  lemma ConcatSnoc(files: Files, paths: seq<Bytes>, i: nat)
    requires i < |paths| && paths[i] in files
    ensures Concat(files, paths[..i + 1]) == Concat(files, paths[..i]) + files[paths[i]]
    ensures AllExist(files, paths[..i]) ==> AllExist(files, paths[..i + 1])
  {
    assert paths[..i + 1][..i] == paths[..i];
    assert paths[..i + 1] == paths[..i] + [paths[i]];
  }

  /** Besides `mine`, a file is as it was, except that listed files may be gone. */
  ghost predicate OnlyConsumes(was: Files, now: Files, mine: set<Bytes>, listed: seq<Bytes>) {
    forall p :: p !in mine ==> Lookup(now, p) == Lookup(was, p) || (p in listed && p !in now)
  }

  /** The first i listed files have been copied to `partial`. */
  ghost predicate Copied(was: Files, now: Files, partial: Bytes, paths: seq<Bytes>, i: nat) {
    && i <= |paths| && AllExist(was, paths[..i])
    && partial in now && now[partial] == Concat(was, paths[..i])
    && OnlyConsumes(was, now, {partial}, paths[..i])
  }

  /** The output is what it was, or all the listed files in order: never anything half-done. */
  ghost predicate AllOrNothing(was: Files, now: Files, final: Bytes, paths: seq<Bytes>) {
    Lookup(now, final) == Lookup(was, final)
    || (AllExist(was, paths) && Lookup(now, final) == Some(Concat(was, paths)))
  }

  ghost predicate AlwaysAllOrNothing(was: Files, trail: seq<Files>, since: nat, final: Bytes, paths: seq<Bytes>) {
    forall k :: since <= k < |trail| ==> AllOrNothing(was, trail[k], final, paths)
  }

  lemma CopyStep(was: Files, before: Files, now: Files, partial: Bytes, paths: seq<Bytes>, i: nat)
    requires i < |paths| && Copied(was, before, partial, paths, i) && partial !in paths
    requires paths[i] in before && Lookup(now, partial) == Some(before[partial] + before[paths[i]])
    requires OnlyConsumes(before, now, {partial}, [paths[i]])
    ensures Copied(was, now, partial, paths, i + 1) && was[paths[i]] == before[paths[i]]
  {
    var p := paths[i];
    assert Lookup(before, p) == Lookup(was, p);
    ConcatSnoc(was, paths, i);
    assert paths[..i + 1] == paths[..i] + [p];
  }

  /** The first i listed files are different files and have been consumed. */
  ghost predicate Consumed(now: Files, paths: seq<Bytes>, i: nat)
    requires i <= |paths|
  {
    Distinct(paths[..i]) && forall p :: p in paths[..i] ==> p !in now
  }

  lemma ConsumeStep(was: Files, before: Files, now: Files, partial: Bytes, paths: seq<Bytes>, i: nat)
    requires i < |paths| && partial !in paths
    requires Copied(was, before, partial, paths, i) && Consumed(before, paths, i)
    ensures paths[i] !in before ==> !(AllExist(was, paths) && Distinct(paths))
    ensures paths[i] in before && paths[i] !in now && OnlyConsumes(before, now, {partial}, [paths[i]]) ==>
      Consumed(now, paths, i + 1)
  {
    var p := paths[i];
    assert paths[..i + 1] == paths[..i] + [p];
    if p !in before {
      if Lookup(was, p) != Lookup(before, p) {
        var j :| 0 <= j < i && paths[j] == p;
      }
    } else if p !in now && OnlyConsumes(before, now, {partial}, [p]) {
      forall q | q in paths[..i] ensures q !in now && q != p {
        assert q in paths && q != partial;
      }
    }
  }

  /** When nothing goes wrong: what a call finds in final.img, if it succeeds. */
  ghost function Outcome(files: Files, final: Bytes, paths: seq<Bytes>): Option<Bytes> {
    if final in files then Some(files[final])
    else if AllExist(files, paths) && Distinct(paths) then Some(Concat(files, paths))
    else None
  }

  /** `trail` extends `past`, and the output was all or nothing at every moment since. */
  ghost predicate Steady(was: Files, past: seq<Files>, trail: seq<Files>, final: Bytes, paths: seq<Bytes>) {
    past <= trail && AlwaysAllOrNothing(was, trail, |past|, final, paths)
  }

  lemma SteadyStep(was: Files, past: seq<Files>, trail: seq<Files>, now: Files, final: Bytes, paths: seq<Bytes>)
    requires Steady(was, past, trail, final, paths) && AllOrNothing(was, now, final, paths)
    ensures Steady(was, past, trail + [now], final, paths)
  {
  }

  lemma SteadyJoin(was: Files, past: seq<Files>, mid: seq<Files>, trail: seq<Files>, final: Bytes, paths: seq<Bytes>)
    requires Steady(was, past, mid, final, paths) && Steady(was, mid, trail, final, paths)
    ensures Steady(was, past, trail, final, paths)
  {
    forall k | |past| <= k < |trail| ensures AllOrNothing(was, trail[k], final, paths) {
      if k < |mid| { assert trail[k] == mid[k]; }
    }
  }

  /** While a part is copied, the output itself is not touched. */
  lemma CopyingSparesOutput(was: Files, before: Files, past: seq<Files>, trail: seq<Files>,
                            final: Bytes, partial: Bytes, paths: seq<Bytes>, i: nat)
    requires Copied(was, before, partial, paths, i) && i < |paths|
    requires final != partial && final !in paths && past <= trail
    requires forall k :: |past| <= k < |trail| ==> OnlyConsumes(before, trail[k], {partial}, [paths[i]])
    ensures Steady(was, past, trail, final, paths)
  {
    assert Lookup(before, final) == Lookup(was, final);
  }

  class Manager {
    const root: Bytes
    const disk: Disk
    const md5: Bytes -> Bytes

    constructor (root: Bytes, disk: Disk, md5: Bytes -> Bytes)
      ensures this.root == root && this.disk == disk && this.md5 == md5
    {
      this.root, this.disk, this.md5 := root, disk, md5;
    }

    function MultipartRoot(): Bytes {
      root + "/multipart"
    }

    function UploadDir(id: Bytes): Bytes {
      Joined(MultipartRoot(), '/', id)
    }

    function FilePath(id: Bytes, name: Bytes): Bytes {
      Joined(UploadDir(id), '/', name)
    }

    function PartPath(id: Bytes, n: nat): Bytes {
      FilePath(id, "part-" + Padded(5, n))
    }

    function FinalPath(id: Bytes): Bytes {
      FilePath(id, FINAL)
    }

    function PartialPath(id: Bytes): Bytes {
      FilePath(id, FINAL + ".partial")
    }

    /** An upload's files lie in its own directory and in no other upload's. */
    lemma OwnDirectory(id: Bytes, name: Bytes, other: Bytes, name': Bytes)
      requires '/' !in id && '/' !in other
      ensures Under(UploadDir(other), FilePath(id, name)) <==> id == other
      ensures FilePath(id, name) == FilePath(other, name') <==> id == other && name == name'
      ensures UploadDir(id) == UploadDir(other) <==> id == other
    {
      var base := MultipartRoot() + "/";
      assert FilePath(id, name) == base + Joined(id, '/', name);
      assert FilePath(other, name') == base + Joined(other, '/', name');
      assert UploadDir(other) + "/" == base + Joined(other, '/', "");
      CancelPrefix(base, Joined(other, '/', ""), Joined(id, '/', name));
      CancelPrefix(base, Joined(other, '/', name'), Joined(id, '/', name));
      CancelPrefix(base, other, id);
      JoinedPrefix('/', other, "", id, name);
      JoinedInjective('/', other, name', id, name);
    }

    /** Part files, the output and its temporary name never coincide. */
    lemma PathsAreDistinct(id: Bytes, m: nat, other: Bytes, n: nat)
      requires '/' !in id && '/' !in other
      ensures PartPath(id, m) == PartPath(other, n) <==> id == other && m == n
      ensures PartPath(id, m) != FinalPath(other) && PartPath(id, m) != PartialPath(other)
    {
      var a, b := "part-" + Padded(5, m), "part-" + Padded(5, n);
      OwnDirectory(id, a, other, b);
      OwnDirectory(id, a, other, FINAL);
      OwnDirectory(id, a, other, FINAL + ".partial");
      assert a[5..] == Padded(5, m) && b[5..] == Padded(5, n);
      assert a[0] == 'p' && FINAL[0] == 'f';
      PaddedValue(5, m);
      PaddedValue(5, n);
    }

    /** Hashes a file that is already there. */
    method HashExistingFile(path: Bytes, size: nat) returns (r: Option<WriteResult>)
      requires path in disk.files
      modifies disk`ops
      ensures r == if disk.faults(old(disk.ops)).Fine? && disk.faults(old(disk.ops) + 1).Fine?
                   then Some(WriteResult(path, size, md5(disk.files[path]))) else None
      ensures disk.ops == old(disk.ops) + if disk.faults(old(disk.ops)).Fine? then 2 else 1
    {
      var ok := disk.Find(path);
      if !ok { return None; }
      var bytes := disk.Read(path);
      if bytes.None? { return None; }
      return Some(WriteResult(path, size, md5(bytes.value)));
    }

    /** Gives up: removes the temporary output, if that works. */
    method Discard(partial: Bytes)
      requires partial in disk.files
      modifies disk`ops, disk`files, disk`trail
      ensures disk.ops == old(disk.ops) + 1
      ensures disk.files == old(disk.files) || disk.files == old(disk.files) - {partial}
      ensures disk.trail == old(disk.trail) + [disk.files]
      ensures disk.faults(old(disk.ops)).Fine? ==> partial !in disk.files
    {
      var removed := disk.Remove(partial);
    }

    /** Appends one part to the output and removes it; gives up when it cannot be read or copied. */
    method CopyPart(partial: Bytes, p: Bytes) returns (bytes: Option<Bytes>)
      requires partial in disk.files && p != partial
      modifies disk`ops, disk`files, disk`trail
      ensures disk.ops > old(disk.ops)
      ensures bytes.Some? ==>
        && Lookup(old(disk.files), p) == bytes
        && Lookup(disk.files, partial) == Some(old(disk.files)[partial] + bytes.value)
        && OnlyConsumes(old(disk.files), disk.files, {partial}, [p])
      ensures bytes.None? ==> OnlyConsumes(old(disk.files), disk.files, {partial}, [])
      ensures old(disk.trail) <= disk.trail
        && forall k :: |old(disk.trail)| <= k < |disk.trail| ==> OnlyConsumes(old(disk.files), disk.trail[k], {partial}, [p])
      ensures Quiet(disk.faults, old(disk.ops)) ==>
        && (bytes.Some? <==> p in old(disk.files))
        && (if bytes.Some? then p else partial) !in disk.files
    {
      var ok := disk.Find(p);
      if !ok {
        Discard(partial);
        return None;
      }
      bytes := Some(disk.files[p]);
      ok := disk.Append(partial, bytes.value);
      if !ok {
        Discard(partial);
        return None;
      }
      var removed := disk.Remove(p);
    }

    /** The copying loop: appends every listed part to the temporary output, consuming the parts. */
    method CopyParts(partial: Bytes, paths: seq<Bytes>, ghost was: Files, ghost final: Bytes)
      returns (hashed: Option<Bytes>)
      requires Copied(was, disk.files, partial, paths, 0)
      requires partial !in paths && final !in paths && final != partial
      modifies disk`ops, disk`files, disk`trail
      ensures hashed.Some? ==> Copied(was, disk.files, partial, paths, |paths|) && hashed.value == Concat(was, paths)
      ensures OnlyConsumes(was, disk.files, {partial}, paths)
      ensures disk.ops >= old(disk.ops)
      ensures Quiet(disk.faults, old(disk.ops)) ==>
        && (hashed.Some? <==> AllExist(was, paths) && Distinct(paths))
        && (if hashed.Some? then Consumed(disk.files, paths, |paths|) else partial !in disk.files)
      ensures Steady(was, old(disk.trail), disk.trail, final, paths)
    {
      ghost var past := disk.trail;
      var sum: Bytes := [];
      var i := 0;
      while i < |paths|
        invariant 0 <= i <= |paths| && Copied(was, disk.files, partial, paths, i)
        invariant sum == Concat(was, paths[..i])
        invariant Steady(was, past, disk.trail, final, paths)
        invariant disk.ops >= old(disk.ops)
        invariant Quiet(disk.faults, old(disk.ops)) ==> Consumed(disk.files, paths, i)
      {
        ghost var before, mid := disk.files, disk.trail;
        var bytes := CopyPart(partial, paths[i]);
        if Quiet(disk.faults, old(disk.ops)) {
          ConsumeStep(was, before, disk.files, partial, paths, i);
        }
        CopyingSparesOutput(was, before, mid, disk.trail, final, partial, paths, i);
        SteadyJoin(was, past, mid, disk.trail, final, paths);
        if bytes.None? { return None; }
        CopyStep(was, before, disk.files, partial, paths, i);
        ConcatSnoc(was, paths, i);
        sum := sum + bytes.value;
        i := i + 1;
      }
      assert paths[..i] == paths;
      return Some(sum);
    }

    /** Builds the output under its temporary name and renames it into place when it is whole. */
    method Build(final: Bytes, partial: Bytes, paths: seq<Bytes>) returns (r: Option<WriteResult>)
      requires final !in paths && partial !in paths && final != partial
      modifies disk`ops, disk`files, disk`trail
      ensures r.Some? ==>
        && AllExist(old(disk.files), paths)
        && Lookup(disk.files, final) == Some(Concat(old(disk.files), paths))
        && r.value == WriteResult(final, |disk.files[final]|, md5(disk.files[final]))
      ensures r.None? ==> Lookup(disk.files, final) == Lookup(old(disk.files), final)
      ensures OnlyConsumes(old(disk.files), disk.files, {final, partial}, paths)
      ensures Quiet(disk.faults, old(disk.ops)) ==>
        && (r.Some? <==> AllExist(old(disk.files), paths) && Distinct(paths))
        && (r.Some? ==> forall p :: p in paths ==> p !in disk.files)
        && partial !in disk.files
      ensures Steady(old(disk.files), old(disk.trail), disk.trail, final, paths)
    {
      ghost var was, past := disk.files, disk.trail;
      var ok := disk.Create(partial);
      SteadyStep(was, past, past, disk.files, final, paths);
      if !ok { return None; }
      ghost var mid := disk.trail;
      var hashed := CopyParts(partial, paths, was, final);
      SteadyJoin(was, past, mid, disk.trail, final, paths);
      assert paths[..|paths|] == paths;
      if hashed.None? { return None; }
      ok := disk.Close();
      if !ok { return None; }
      mid := disk.trail;
      ok := disk.Rename(partial, final);
      SteadyStep(was, past, mid, disk.files, final, paths);
      if !ok { return None; }
      return Some(WriteResult(final, |hashed.value|, md5(hashed.value)));
    }

    /**
     Concatenates the listed files into the upload's final.img, consuming them as it goes. An
     existing final.img is taken as it is, whatever the list. At every moment in between, and
     when anything goes wrong, final.img is what it was or the whole concatenation.
     */
    method ConcatParts(id: Bytes, paths: seq<Bytes>) returns (r: Option<WriteResult>)
      requires FinalPath(id) !in paths && PartialPath(id) !in paths
      modifies disk
      ensures var final := FinalPath(id); r.Some? ==>
        && final in disk.files
        && r.value == WriteResult(final, |disk.files[final]|, md5(disk.files[final]))
        && AllOrNothing(old(disk.files), disk.files, final, paths)
      ensures r.None? ==> Lookup(disk.files, FinalPath(id)) == Lookup(old(disk.files), FinalPath(id))
      ensures FinalPath(id) in old(disk.files) && disk.faults(old(disk.ops) + 1).Fine? ==> disk.files == old(disk.files)
      ensures OnlyConsumes(old(disk.files), disk.files, {FinalPath(id), PartialPath(id)}, paths)
      ensures Quiet(disk.faults, old(disk.ops)) ==>
        var done := Outcome(old(disk.files), FinalPath(id), paths);
        && (r.Some? <==> done.Some?)
        && (r.Some? ==> Lookup(disk.files, FinalPath(id)) == done)
      ensures Steady(old(disk.files), old(disk.trail), disk.trail, FinalPath(id), paths)
    {
      ghost var was, past := disk.files, disk.trail;
      var final := FinalPath(id);
      var ok := disk.MkdirAll(UploadDir(id));
      SteadyStep(was, past, past, disk.files, final, paths);
      if !ok { return None; }
      ok := disk.Find(final);
      if ok {
        r := HashExistingFile(final, |disk.files[final]|);
        return;
      }
      ghost var mid := disk.trail;
      r := Build(final, PartialPath(id), paths);
      SteadyJoin(was, past, mid, disk.trail, final, paths);
    }

    /**
     Writes a part file, over any earlier one. When that fails the part file may be left as it
     was, gone, or cut short; nothing else changes.
     */
    method WritePart(id: Bytes, n: nat, body: Bytes) returns (r: Option<WriteResult>)
      modifies disk
      ensures var path := PartPath(id, n);
        && (forall p :: p != path ==> Lookup(disk.files, p) == Lookup(old(disk.files), p))
        && (r.Some? ==> r.value == WriteResult(path, |body|, md5(body)) && Lookup(disk.files, path) == Some(body))
        && (r.None? && path in disk.files ==>
              Lookup(old(disk.files), path) == Some(disk.files[path]) || disk.files[path] <= body)
      ensures r.Some? ==> UploadDir(id) in disk.dirs
      ensures Quiet(disk.faults, old(disk.ops)) ==> r.Some?
    {
      var path := PartPath(id, n);
      var ok := disk.MkdirAll(UploadDir(id));
      if !ok { return None; }
      ok := disk.Create(path);
      if !ok { return None; }
      ok := disk.Append(path, body);
      assert [] + body == body && forall n :: 0 <= n <= |body| ==> [] + body[..n] == body[..n] <= body;
      if !ok {
        Discard(path);
        return None;
      }
      return Some(WriteResult(path, |body|, md5(body)));
    }

    /** An upload's scratch: whether its directory exists, and the files under it. */
    ghost function ScratchOf(id: Bytes): (bool, Files)
      reads disk
    {
      (UploadDir(id) in disk.dirs, map p | p in disk.files && Under(UploadDir(id), p) :: disk.files[p])
    }

    /** Removes an upload's scratch and leaves every other upload's alone. */
    method RemoveUploadDir(id: Bytes) returns (ok: bool)
      requires '/' !in id
      modifies disk
      ensures forall u :: '/' !in u && u != id ==> ScratchOf(u) == old(ScratchOf(u))
      ensures ok ==> ScratchOf(id) == (false, map[])
      ensures ok == disk.faults(old(disk.ops)).Fine? && disk.ops == old(disk.ops) + 1
      ensures disk.dirs <= old(disk.dirs)
    {
      ok := disk.RemoveAll(UploadDir(id));
      forall u | '/' !in u && u != id ensures ScratchOf(u) == old(ScratchOf(u)) {
        DirsApart(u, id);
        forall p | Under(UploadDir(u), p) ensures !Under(UploadDir(id), p) {
          var name := p[|UploadDir(u)| + 1..];
          assert p == FilePath(u, name);
          OwnDirectory(u, name, id, name);
        }
        assert UploadDir(u) !in old(disk.dirs) - disk.dirs;
        assert ScratchOf(u).1 == old(ScratchOf(u)).1;
      }
    }

    lemma DirsApart(u: Bytes, id: Bytes)
      requires '/' !in u && '/' !in id
      ensures !Under(UploadDir(id), UploadDir(u)) && (u != id ==> UploadDir(u) != UploadDir(id))
    {
      var base := MultipartRoot() + "/";
      assert UploadDir(id) + "/" == base + Joined(id, '/', "") && UploadDir(u) == base + u;
      CancelPrefix(base, Joined(id, '/', ""), u);
      CancelPrefix(base, id, u);
      assert UploadDir(id) == base + id;
      assert Joined(id, '/', "")[|id|] == '/';
    }
  }
}
