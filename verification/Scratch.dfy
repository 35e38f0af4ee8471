/** The scratch disk under a process: files and directories, and operations that may go wrong. */
module Scratch {
  import opened Wrappers
  import opened KeyNames

  type Files = map<Bytes, Bytes>

  /** What goes wrong with one operation: a copy stops after `copied` bytes, a removal leaves `kept`. */
  datatype Fault = Fine | Broken(copied: nat, kept: set<Bytes>)

  predicate Under(dir: Bytes, path: Bytes) {
    dir + "/" <= path
  }

  ghost predicate Quiet(faults: nat -> Fault, n: nat) {
    forall i: nat :: n <= i ==> faults(i).Fine?
  }

  class Disk {
    var files: Files
    var dirs: set<Bytes>
    var ops: nat
    ghost var trail: seq<Files>  // the files after every operation
    const faults: nat -> Fault

    constructor (faults: nat -> Fault)
      ensures files == map[] && dirs == {} && this.faults == faults && trail == []
    {
      files, dirs, ops, trail := map[], {}, 0, [];
      this.faults := faults;
    }

    /** One operation begins; false when it goes wrong. */
    method Begin() returns (f: Fault)
      modifies this`ops
      ensures ops == old(ops) + 1 && f == faults(old(ops))
    {
      f := faults(ops);
      ops := ops + 1;
    }

    method MkdirAll(dir: Bytes) returns (ok: bool)
      modifies this
      ensures ops == old(ops) + 1 && ok == faults(old(ops)).Fine?
      ensures files == old(files) && trail == old(trail) + [files]
      ensures dirs == if ok then old(dirs) + {dir} else old(dirs)
    {
      var f := Begin();
      ok := f.Fine?;
      if ok {
        dirs := dirs + {dir};
      }
      trail := trail + [files];
    }

    /** Whether the file can be found, as os.Stat and os.Open report it. */
    method Find(path: Bytes) returns (ok: bool)
      modifies this`ops
      ensures ops == old(ops) + 1 && ok == (faults(old(ops)).Fine? && path in files)
    {
      var f := Begin();
      ok := f.Fine? && path in files;
    }

    /** Reads a file through, as io.Copy into a hash does. */
    method Read(path: Bytes) returns (bytes: Option<Bytes>)
      requires path in files
      modifies this`ops
      ensures ops == old(ops) + 1 && bytes == if faults(old(ops)).Fine? then Some(files[path]) else None
    {
      var f := Begin();
      bytes := if f.Fine? then Some(files[path]) else None;
    }

    method Create(path: Bytes) returns (ok: bool)
      modifies this`ops, this`files, this`trail
      ensures ops == old(ops) + 1 && ok == faults(old(ops)).Fine?
      ensures files == (if ok then old(files)[path := []] else old(files)) && trail == old(trail) + [files]
    {
      var f := Begin();
      ok := f.Fine?;
      if ok {
        files := files[path := []];
      }
      trail := trail + [files];
    }

    /** Appends the bytes to an open file; a failing copy may have written some of them. */
    method Append(path: Bytes, bytes: Bytes) returns (ok: bool)
      requires path in files
      modifies this`ops, this`files, this`trail
      ensures ops == old(ops) + 1 && ok == faults(old(ops)).Fine? && trail == old(trail) + [files]
      ensures exists n :: 0 <= n <= |bytes| && files == old(files)[path := old(files)[path] + bytes[..n]]
      ensures ok ==> files == old(files)[path := old(files)[path] + bytes]
    {
      var f := Begin();
      ok := f.Fine?;
      var n := if f.Broken? && f.copied < |bytes| then f.copied else |bytes|;
      assert bytes[..|bytes|] == bytes;
      files := files[path := files[path] + bytes[..n]];
      trail := trail + [files];
    }

    method Close() returns (ok: bool)
      modifies this`ops
      ensures ops == old(ops) + 1 && ok == faults(old(ops)).Fine?
    {
      var f := Begin();
      ok := f.Fine?;
    }

    method Remove(path: Bytes) returns (ok: bool)
      modifies this`ops, this`files, this`trail
      ensures ops == old(ops) + 1 && ok == (faults(old(ops)).Fine? && path in old(files))
      ensures files == (if ok then old(files) - {path} else old(files)) && trail == old(trail) + [files]
    {
      var f := Begin();
      ok := f.Fine? && path in files;
      if ok {
        files := files - {path};
      }
      trail := trail + [files];
    }

    method Rename(from: Bytes, to: Bytes) returns (ok: bool)
      requires from in files && from != to
      modifies this`ops, this`files, this`trail
      ensures ops == old(ops) + 1 && ok == faults(old(ops)).Fine?
      ensures files == (if ok then (old(files) - {from})[to := old(files)[from]] else old(files))
      ensures trail == old(trail) + [files]
    {
      var f := Begin();
      ok := f.Fine?;
      if ok {
        files := (files - {from})[to := files[from]];
      }
      trail := trail + [files];
    }

    /** Removes a directory tree; a failing removal may leave any part of it. */
    method RemoveAll(dir: Bytes) returns (ok: bool)
      modifies this
      ensures ops == old(ops) + 1 && ok == faults(old(ops)).Fine? && trail == old(trail) + [files]
      ensures forall p :: p in files ==> p in old(files) && files[p] == old(files)[p]
      ensures forall p :: p in old(files) && p !in files ==> Under(dir, p)
      ensures dirs <= old(dirs) && forall p :: p in old(dirs) - dirs ==> p == dir || Under(dir, p)
      ensures ok ==> (forall p :: p in files ==> !Under(dir, p)) && forall p :: p in dirs ==> p != dir && !Under(dir, p)
    {
      var f := Begin();
      ok := f.Fine?;
      var kept := if f.Broken? then f.kept else {};
      files := map p | p in files && (p in kept || !Under(dir, p)) :: files[p];
      dirs := set p | p in dirs && (p in kept || (p != dir && !Under(dir, p)));
      trail := trail + [files];
    }

    /** The names of the directories right under `parent`. */
    method ReadDir(parent: Bytes) returns (names: Option<set<Bytes>>)
      modifies this`ops
      ensures ops == old(ops) + 1 && names.Some? == faults(old(ops)).Fine?
      ensures names.Some? ==> forall n :: n in names.value <==> '/' !in n && Joined(parent, '/', n) in dirs
    {
      var f := Begin();
      if f.Broken? {
        return None;
      }
      var children := set d | d in dirs && Under(parent, d) && '/' !in d[|parent| + 1..] :: d[|parent| + 1..];
      forall n ensures n in children <==> '/' !in n && Joined(parent, '/', n) in dirs {
        var d := Joined(parent, '/', n);
        assert d[|parent| + 1..] == n && parent + "/" <= d;
        if n in children {
          var c :| c in dirs && Under(parent, c) && '/' !in c[|parent| + 1..] && c[|parent| + 1..] == n;
          assert c == parent + "/" + n == d;
        }
      }
      return Some(children);
    }
  }
}
