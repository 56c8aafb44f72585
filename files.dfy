/** The project directory as the servers see it through `fs/promises`: an
    ordered list of entries (directories and files, in creation order, the
    order `readdir` lists them in) and a map of paths on which every
    operation fails with a given message. */
module Files {
  import opened Wrappers

  datatype Node = Dir(path: string) | File(path: string, text: string)

  /** Abstract messages for the two failures that come from the entry types
      rather than from the failing-path map. */
  const FileExistsMessage := "EEXIST: file already exists"
  const IsDirectoryMessage := "EISDIR: illegal operation on a directory"
  const NotDirectoryMessage := "ENOTDIR: not a directory"

  /** `path.join(base, part)` for a relative `part` without "." or ".."
      segments: a base of "" or "." is dropped, otherwise the two are
      separated by "/". */
  function Join(base: string, part: string): string
  {
    if base == "" || base == "." then part else base + "/" + part
  }

  /** Different parts joined to the same base give different paths. */
  lemma JoinDistinct(base: string, a: string, b: string)
    requires a != b
    ensures Join(base, a) != Join(base, b)
  {
    if base != "" && base != "." {
      assert a == Join(base, a)[|base| + 1..];
      assert b == Join(base, b)[|base| + 1..];
    }
  }

  /** A path joined to a base is no prefix of another part joined to it when
      the two parts start differently. */
  lemma JoinNotPrefix(base: string, a: string, b: string, n: nat)
    requires a != [] && b != [] && a[0] != b[0] && n <= |Join(base, b)|
    ensures Join(base, b)[..n] != Join(base, a)
  {
    var off := if base == "" || base == "." then 0 else |base| + 1;
    if n == |Join(base, a)| {
      assert Join(base, a)[off] == a[0];
      assert Join(base, b)[..n][off] == b[0];
    }
  }

  predicate HasPath(ns: seq<Node>, p: string) {
    exists i :: 0 <= i < |ns| && ns[i].path == p
  }

  predicate IsDir(ns: seq<Node>, p: string) {
    Dir(p) in ns
  }

  /** A directory is an entry. */
  lemma DirHasPath(ns: seq<Node>, p: string)
    requires IsDir(ns, p)
    ensures HasPath(ns, p)
  {
    var i :| 0 <= i < |ns| && ns[i] == Dir(p);
    assert ns[i].path == p;
  }

  /** A path names at most one entry. */
  predicate PathsUnique(ns: seq<Node>) {
    forall i, j :: 0 <= i < j < |ns| ==> ns[i].path != ns[j].path
  }

  /** The content of the file at `p`, if there is one. */
  function FileText(ns: seq<Node>, p: string): Option<string>
  {
    if ns == [] then None
    else if ns[0].File? && ns[0].path == p then Some(ns[0].text)
    else FileText(ns[1..], p)
  }

  /** Every file entry at `p` replaced by one holding `t`. */
  function Overwrite(ns: seq<Node>, p: string, t: string): (r: seq<Node>)
    ensures |r| == |ns|
    ensures forall i :: 0 <= i < |ns| ==> r[i].path == ns[i].path && (r[i].Dir? <==> ns[i].Dir?)
  {
    seq(|ns|, i requires 0 <= i < |ns| => if ns[i].File? && ns[i].path == p then File(p, t) else ns[i])
  }

  /** Some proper ancestor of `p`, the part before one of its slashes, is a
      file. */
  predicate UnderFile(ns: seq<Node>, p: string) {
    exists n :: 0 <= n < |p| && p[n] == '/' && FileText(ns, p[..n]).Some?
  }

  /** Whether a path lies under a file depends only on the files' texts. */
  lemma UnderFileSameFiles(ns: seq<Node>, ns': seq<Node>, p: string)
    requires forall q :: FileText(ns', q) == FileText(ns, q)
    ensures UnderFile(ns', p) == UnderFile(ns, p)
  {
  }

  /** `fs.mkdir(p, { recursive: true })`: throws ENOTDIR when an ancestor is
      a file, and succeeds without change when the directory exists. */
  function Mkdir(ns: seq<Node>, failing: map<string, string>, p: string): Result<seq<Node>, string>
  {
    if p in failing then Failure(failing[p])
    else if UnderFile(ns, p) then Failure(NotDirectoryMessage)
    else if IsDir(ns, p) then Success(ns)
    else if HasPath(ns, p) then Failure(FileExistsMessage)
    else Success(ns + [Dir(p)])
  }

  /** `fs.writeFile(p, t)`: creates the file or overwrites its content;
      throws ENOTDIR when an ancestor is a file. */
  function WriteFile(ns: seq<Node>, failing: map<string, string>, p: string, t: string): Result<seq<Node>, string>
  {
    if p in failing then Failure(failing[p])
    else if UnderFile(ns, p) then Failure(NotDirectoryMessage)
    else if IsDir(ns, p) then Failure(IsDirectoryMessage)
    else if HasPath(ns, p) then Success(Overwrite(ns, p, t))
    else Success(ns + [File(p, t)])
  }

  /** `fs.access(p)` succeeds. */
  predicate Accessible(ns: seq<Node>, failing: map<string, string>, p: string) {
    p !in failing && HasPath(ns, p)
  }

  /** The entry name of `path` when it lies directly inside directory `d`. */
  function ChildName(d: string, path: string): Option<string>
  {
    var prefix := d + "/";
    if |prefix| < |path| && path[..|prefix|] == prefix && '/' !in path[|prefix|..]
    then Some(path[|prefix|..])
    else None
  }

  /** Joining the same base to a directory and a path does not change
      whether, and under which name, the path lies inside the directory. */
  lemma ChildNameJoin(base: string, d: string, path: string)
    ensures ChildName(Join(base, d), Join(base, path)) == ChildName(d, path)
  {
    if base != "" && base != "." {
      var pre := base + "/";
      var x, y := Join(base, d) + "/", Join(base, path);
      assert x == pre + (d + "/") && y == pre + path;
      if |x| < |y| {
        assert y[..|x|] == pre + path[..|d| + 1];
        assert y[|x|..] == path[|d| + 1..];
        if y[..|x|] == x {
          assert path[..|d| + 1] == (pre + path[..|d| + 1])[|pre|..] == x[|pre|..] == d + "/";
        }
      }
    }
  }

  /** The names directly inside `d`, in listing order. */
  function Children(ns: seq<Node>, d: string): seq<string>
  {
    if ns == [] then []
    else
      (match ChildName(d, ns[0].path) case Some(n) => [n] case None => [])
      + Children(ns[1..], d)
  }

  /** An entry name is listed exactly when some entry lies directly inside
      `d` under that name. */
  lemma {:induction false} ChildrenExact(ns: seq<Node>, d: string)
    ensures forall n :: n in Children(ns, d) <==> exists i :: 0 <= i < |ns| && ChildName(d, ns[i].path) == Some(n)
  {
    if ns != [] {
      ChildrenExact(ns[1..], d);
      forall n ensures n in Children(ns, d) <==> exists i :: 0 <= i < |ns| && ChildName(d, ns[i].path) == Some(n)
      {
        if n in Children(ns[1..], d) {
          var i :| 0 <= i < |ns[1..]| && ChildName(d, ns[1..][i].path) == Some(n);
          assert ns[i + 1] == ns[1..][i];
        }
        if exists i :: 0 <= i < |ns| && ChildName(d, ns[i].path) == Some(n) {
          var i :| 0 <= i < |ns| && ChildName(d, ns[i].path) == Some(n);
          if i > 0 {
            assert ns[1..][i - 1] == ns[i];
          }
        }
      }
    }
  }

  /** Nothing is listed when no entry lies directly inside `d`. */
  lemma {:induction false} ChildrenNone(ns: seq<Node>, d: string)
    requires forall i :: 0 <= i < |ns| ==> ChildName(d, ns[i].path) == None
    ensures Children(ns, d) == []
  {
    if ns != [] {
      assert forall i :: 0 <= i < |ns[1..]| ==> ns[1..][i] == ns[i + 1];
      ChildrenNone(ns[1..], d);
    }
  }

  /** No name occurs twice. */
  predicate NoDuplicates(s: seq<string>) {
    forall i, j :: 0 <= i < j < |s| ==> s[i] != s[j]
  }

  /** A child name and its directory give back the path. */
  lemma ChildNamePath(d: string, path: string)
    requires ChildName(d, path).Some?
    ensures path == d + "/" + ChildName(d, path).value
  {
    var prefix := d + "/";
    assert path == path[..|prefix|] + path[|prefix|..];
  }

  /** With unique paths a directory lists each name once. */
  lemma {:induction false} ChildrenDistinct(ns: seq<Node>, d: string)
    requires PathsUnique(ns)
    ensures NoDuplicates(Children(ns, d))
  {
    if ns != [] {
      var tail := ns[1..];
      assert PathsUnique(tail) by {
        forall i, j | 0 <= i < j < |tail| ensures tail[i].path != tail[j].path {
          assert tail[i] == ns[i + 1] && tail[j] == ns[j + 1];
        }
      }
      ChildrenDistinct(tail, d);
      var rest := Children(tail, d);
      match ChildName(d, ns[0].path)
      case None =>
      case Some(n) =>
        if n in rest {
          ChildrenExact(tail, d);
          var i :| 0 <= i < |tail| && ChildName(d, tail[i].path) == Some(n);
          ChildNamePath(d, ns[0].path);
          ChildNamePath(d, tail[i].path);
          assert false;
        }
        assert Children(ns, d) == [n] + rest;
    }
  }

  /** `fs.readdir(d)`. */
  function ReadDir(ns: seq<Node>, failing: map<string, string>, d: string): Result<seq<string>, string>
  {
    if d in failing then Failure(failing[d])
    else if !IsDir(ns, d) then Failure(NotDirectoryMessage)
    else Success(Children(ns, d))
  }

  /** The first mkdir that failed during a run over a directory list. */
  datatype MkdirFailure = MkdirFailure(path: string, message: string)

  /** The state after a run of mkdirs, how many of them succeeded, and the
      failure that stopped the run, if any. */
  datatype MkdirRun = MkdirRun(nodes: seq<Node>, done: nat, failure: Option<MkdirFailure>)

  /** `for (const dir of dirs) await mkdir(path.join(root, dir))`, stopping at
      the first failure and keeping what was created before it. */
  function MkdirEach(ns: seq<Node>, failing: map<string, string>, root: string, dirs: seq<string>): (r: MkdirRun)
    ensures r.done <= |dirs|
    ensures r.failure.None? ==> r.done == |dirs|
    decreases |dirs|
  {
    if dirs == [] then MkdirRun(ns, 0, None)
    else match Mkdir(ns, failing, Join(root, dirs[0]))
      case Failure(m) => MkdirRun(ns, 0, Some(MkdirFailure(Join(root, dirs[0]), m)))
      case Success(ns') =>
        var rest := MkdirEach(ns', failing, root, dirs[1..]);
        MkdirRun(rest.nodes, rest.done + 1, rest.failure)
  }

  // ---- Properties of the single operations ----

  /** A successful mkdir leaves the directory in place, keeps every entry
      that was there, and a second mkdir changes nothing. */
  lemma MkdirProperties(ns: seq<Node>, failing: map<string, string>, p: string)
    requires Mkdir(ns, failing, p).Success?
    ensures var ns' := Mkdir(ns, failing, p).value;
            && IsDir(ns', p)
            && (forall q :: IsDir(ns, q) ==> IsDir(ns', q))
            && (forall q :: HasPath(ns, q) ==> HasPath(ns', q))
            && (forall q :: q != p ==> (IsDir(ns', q) <==> IsDir(ns, q)))
            && (forall q :: FileText(ns', q) == FileText(ns, q))
            && Mkdir(ns', failing, p) == Success(ns')
  {
    var ns' := Mkdir(ns, failing, p).value;
    if ns' != ns {
      assert ns' == ns + [Dir(p)];
      forall q | HasPath(ns, q) ensures HasPath(ns', q) {
        var i :| 0 <= i < |ns| && ns[i].path == q;
        assert ns'[i].path == q;
      }
      forall q ensures FileText(ns', q) == FileText(ns, q) {
        FileTextAppendDir(ns, p, q);
      }
      UnderFileSameFiles(ns, ns', p);
    }
  }

  lemma {:induction false} FileTextAppendDir(ns: seq<Node>, p: string, q: string)
    ensures FileText(ns + [Dir(p)], q) == FileText(ns, q)
  {
    if ns == [] {
      assert FileText([Dir(p)], q) == FileText([], q);
    } else {
      assert (ns + [Dir(p)])[1..] == ns[1..] + [Dir(p)];
      FileTextAppendDir(ns[1..], p, q);
    }
  }

  /** After a successful write the file holds the new text, every file entry
      at that path does, and the directories are those from before. */
  lemma WriteFileProperties(ns: seq<Node>, failing: map<string, string>, p: string, t: string)
    requires WriteFile(ns, failing, p, t).Success?
    ensures var ns' := WriteFile(ns, failing, p, t).value;
            && FileText(ns', p) == Some(t)
            && (forall i :: 0 <= i < |ns'| && ns'[i].File? && ns'[i].path == p ==> ns'[i].text == t)
            && (forall q :: IsDir(ns', q) <==> IsDir(ns, q))
            && (forall q :: HasPath(ns, q) ==> HasPath(ns', q))
            && (forall q :: q != p ==> FileText(ns', q) == FileText(ns, q))
            && (forall q :: HasPath(ns', q) ==> HasPath(ns, q) || q == p)
            && HasPath(ns', p)
  {
    var ns' := WriteFile(ns, failing, p, t).value;
    forall q | q != p ensures FileText(ns', q) == FileText(ns, q) {
      WriteKeepsOthers(ns, p, t, q);
    }
    if HasPath(ns, p) {
      OverwriteText(ns, p, t);
      forall q ensures IsDir(ns', q) <==> IsDir(ns, q) {
        if IsDir(ns, q) {
          var i :| 0 <= i < |ns| && ns[i] == Dir(q);
          assert ns'[i] == Dir(q);
        }
        if IsDir(ns', q) {
          var i :| 0 <= i < |ns'| && ns'[i] == Dir(q);
          assert ns[i] == Dir(q);
        }
      }
      forall q | HasPath(ns, q) ensures HasPath(ns', q) {
        var i :| 0 <= i < |ns| && ns[i].path == q;
        assert ns'[i].path == q;
      }
      forall q | HasPath(ns', q) ensures HasPath(ns, q) {
        var i :| 0 <= i < |ns'| && ns'[i].path == q;
        assert ns[i].path == q;
      }
    } else {
      assert ns' == ns + [File(p, t)];
      assert ns'[|ns|].path == p;
      AppendFileText(ns, p, t);
      forall q | HasPath(ns, q) ensures HasPath(ns', q) {
        var i :| 0 <= i < |ns| && ns[i].path == q;
        assert ns'[i].path == q;
      }
    }
  }

  /** A write to `p` changes no other file's text. */
  lemma {:induction false} WriteKeepsOthers(ns: seq<Node>, p: string, t: string, q: string)
    requires q != p
    ensures FileText(Overwrite(ns, p, t), q) == FileText(ns, q)
    ensures FileText(ns + [File(p, t)], q) == FileText(ns, q)
  {
    if ns == [] {
      assert FileText([File(p, t)], q) == FileText([], q);
    } else {
      assert Overwrite(ns, p, t)[1..] == Overwrite(ns[1..], p, t);
      assert (ns + [File(p, t)])[1..] == ns[1..] + [File(p, t)];
      WriteKeepsOthers(ns[1..], p, t, q);
    }
  }

  lemma {:induction false} OverwriteText(ns: seq<Node>, p: string, t: string)
    requires HasPath(ns, p) && !IsDir(ns, p)
    ensures FileText(Overwrite(ns, p, t), p) == Some(t)
  {
    var r := Overwrite(ns, p, t);
    if ns[0].path == p {
      assert ns[0].File?;
    } else {
      var i :| 0 <= i < |ns| && ns[i].path == p;
      assert ns[1..][i - 1].path == p;
      assert r[1..] == Overwrite(ns[1..], p, t);
      OverwriteText(ns[1..], p, t);
    }
  }

  lemma {:induction false} AppendFileText(ns: seq<Node>, p: string, t: string)
    requires !HasPath(ns, p)
    ensures FileText(ns + [File(p, t)], p) == Some(t)
  {
    if ns != [] {
      assert (ns + [File(p, t)])[1..] == ns[1..] + [File(p, t)];
      AppendFileText(ns[1..], p, t);
    }
  }

  /** Overwriting with the text every file entry at `p` already holds
      changes nothing. */
  lemma OverwriteSame(ns: seq<Node>, p: string, t: string)
    requires forall i :: 0 <= i < |ns| && ns[i].File? && ns[i].path == p ==> ns[i].text == t
    ensures Overwrite(ns, p, t) == ns
  {
  }

  /** Both operations keep paths unique. */
  lemma UniquePreserved(ns: seq<Node>, failing: map<string, string>, p: string, t: string)
    requires PathsUnique(ns)
    ensures Mkdir(ns, failing, p).Success? ==> PathsUnique(Mkdir(ns, failing, p).value)
    ensures WriteFile(ns, failing, p, t).Success? ==> PathsUnique(WriteFile(ns, failing, p, t).value)
  {
  }

  /** A write does not put a path under a file unless it writes one of the
      path's ancestors. */
  lemma WriteNotUnderFile(ns: seq<Node>, failing: map<string, string>, w: string, t: string, p: string)
    requires WriteFile(ns, failing, w, t).Success? && !UnderFile(ns, p)
    requires forall n :: 0 <= n < |p| && p[n] == '/' ==> p[..n] != w
    ensures !UnderFile(WriteFile(ns, failing, w, t).value, p)
  {
    WriteFileProperties(ns, failing, w, t);
  }

  // ---- Properties of a run of mkdirs ----

  /** A run of mkdirs never removes an entry, and the directories it got
      through are all present afterwards. */
  lemma {:induction false} MkdirEachKeeps(ns: seq<Node>, failing: map<string, string>, root: string, dirs: seq<string>)
    ensures var r := MkdirEach(ns, failing, root, dirs);
            && (forall q :: IsDir(ns, q) ==> IsDir(r.nodes, q))
            && (forall q :: HasPath(ns, q) ==> HasPath(r.nodes, q))
            && (forall q :: FileText(r.nodes, q) == FileText(ns, q))
            && (forall k :: 0 <= k < r.done ==> IsDir(r.nodes, Join(root, dirs[k])))
            && (forall k :: 0 <= k < r.done ==> Join(root, dirs[k]) !in failing)
            && (forall k :: 0 <= k < r.done ==> !UnderFile(ns, Join(root, dirs[k])))
            && (r.failure.Some? ==> r.done < |dirs| && r.failure.value.path == Join(root, dirs[r.done]))
    decreases |dirs|
  {
    if dirs != [] {
      var p := Join(root, dirs[0]);
      if Mkdir(ns, failing, p).Success? {
        var ns' := Mkdir(ns, failing, p).value;
        MkdirProperties(ns, failing, p);
        MkdirEachKeeps(ns', failing, root, dirs[1..]);
        var rest := MkdirEach(ns', failing, root, dirs[1..]);
        forall k | 0 <= k < rest.done + 1
          ensures IsDir(rest.nodes, Join(root, dirs[k])) && Join(root, dirs[k]) !in failing
          ensures !UnderFile(ns, Join(root, dirs[k]))
        {
          if k > 0 {
            assert dirs[1..][k - 1] == dirs[k];
            UnderFileSameFiles(ns, ns', Join(root, dirs[k]));
          }
        }
        if rest.failure.Some? {
          assert dirs[1..][rest.done] == dirs[rest.done + 1];
        }
      }
    }
  }

  /** A run of mkdirs adds nothing but the directories it was given. */
  lemma {:induction false} MkdirEachOnly(ns: seq<Node>, failing: map<string, string>, root: string, dirs: seq<string>)
    ensures var r := MkdirEach(ns, failing, root, dirs);
            forall q :: HasPath(r.nodes, q) ==> HasPath(ns, q) || exists k :: 0 <= k < |dirs| && q == Join(root, dirs[k])
    decreases |dirs|
  {
    if dirs != [] {
      var p := Join(root, dirs[0]);
      if Mkdir(ns, failing, p).Success? {
        var ns' := Mkdir(ns, failing, p).value;
        MkdirEachOnly(ns', failing, root, dirs[1..]);
        var r := MkdirEach(ns, failing, root, dirs);
        forall q | HasPath(r.nodes, q)
          ensures HasPath(ns, q) || exists k :: 0 <= k < |dirs| && q == Join(root, dirs[k])
        {
          if HasPath(ns', q) && !HasPath(ns, q) {
            var i :| 0 <= i < |ns'| && ns'[i].path == q;
            assert q == Join(root, dirs[0]);
          } else if !HasPath(ns', q) {
            var k :| 0 <= k < |dirs[1..]| && q == Join(root, dirs[1..][k]);
            assert q == Join(root, dirs[k + 1]);
          }
        }
      }
    }
  }

  /** The run stops with the message the failing mkdir threw: the one the
      failing-path map gives, ENOTDIR under a file, or EEXIST. */
  lemma {:induction false} MkdirEachFailure(ns: seq<Node>, failing: map<string, string>, root: string, dirs: seq<string>)
    ensures var r := MkdirEach(ns, failing, root, dirs);
            r.failure.Some? ==>
              var p := r.failure.value.path;
              r.failure.value.message ==
                (if p in failing then failing[p] else if UnderFile(r.nodes, p) then NotDirectoryMessage else FileExistsMessage)
    decreases |dirs|
  {
    if dirs != [] {
      var p := Join(root, dirs[0]);
      if Mkdir(ns, failing, p).Success? {
        MkdirEachFailure(Mkdir(ns, failing, p).value, failing, root, dirs[1..]);
      }
    }
  }

  /** A run of mkdirs never turns an existing entry into a directory. */
  lemma {:induction false} MkdirEachNoRetype(ns: seq<Node>, failing: map<string, string>, root: string, dirs: seq<string>)
    ensures var r := MkdirEach(ns, failing, root, dirs);
            forall q :: HasPath(ns, q) && IsDir(r.nodes, q) ==> IsDir(ns, q)
    decreases |dirs|
  {
    if dirs != [] {
      var p := Join(root, dirs[0]);
      if Mkdir(ns, failing, p).Success? {
        var ns' := Mkdir(ns, failing, p).value;
        MkdirProperties(ns, failing, p);
        MkdirEachNoRetype(ns', failing, root, dirs[1..]);
      }
    }
  }

  /** When every directory is already present and none of them fails, a run
      of mkdirs goes through and changes nothing. */
  lemma {:induction false} MkdirEachPresent(ns: seq<Node>, failing: map<string, string>, root: string, dirs: seq<string>)
    requires forall k :: 0 <= k < |dirs| ==> IsDir(ns, Join(root, dirs[k])) && Join(root, dirs[k]) !in failing
    requires forall k :: 0 <= k < |dirs| ==> !UnderFile(ns, Join(root, dirs[k]))
    ensures MkdirEach(ns, failing, root, dirs) == MkdirRun(ns, |dirs|, None)
    decreases |dirs|
  {
    if dirs != [] {
      forall k | 0 <= k < |dirs[1..]|
        ensures IsDir(ns, Join(root, dirs[1..][k])) && Join(root, dirs[1..][k]) !in failing
        ensures !UnderFile(ns, Join(root, dirs[1..][k]))
      {
        assert dirs[1..][k] == dirs[k + 1];
      }
      MkdirEachPresent(ns, failing, root, dirs[1..]);
    }
  }

  /** With no failing path, no file in the way and none above, a run of
      mkdirs goes through. */
  lemma {:induction false} MkdirEachUnobstructed(ns: seq<Node>, failing: map<string, string>, root: string, dirs: seq<string>)
    requires forall k :: 0 <= k < |dirs| ==> Join(root, dirs[k]) !in failing
    requires forall k :: 0 <= k < |dirs| ==> HasPath(ns, Join(root, dirs[k])) ==> IsDir(ns, Join(root, dirs[k]))
    requires forall k :: 0 <= k < |dirs| ==> !UnderFile(ns, Join(root, dirs[k]))
    ensures MkdirEach(ns, failing, root, dirs).failure.None?
    decreases |dirs|
  {
    if dirs != [] {
      var p := Join(root, dirs[0]);
      assert Mkdir(ns, failing, p).Success?;
      var ns' := Mkdir(ns, failing, p).value;
      MkdirProperties(ns, failing, p);
      forall k | 0 <= k < |dirs[1..]|
        ensures Join(root, dirs[1..][k]) !in failing
        ensures HasPath(ns', Join(root, dirs[1..][k])) ==> IsDir(ns', Join(root, dirs[1..][k]))
        ensures !UnderFile(ns', Join(root, dirs[1..][k]))
      {
        assert dirs[1..][k] == dirs[k + 1];
        var q := Join(root, dirs[k + 1]);
        UnderFileSameFiles(ns, ns', q);
        if HasPath(ns', q) && !IsDir(ns, q) && ns' != ns {
          assert ns' == ns + [Dir(p)];
          if !HasPath(ns, q) {
            var i :| 0 <= i < |ns'| && ns'[i].path == q;
            assert i == |ns|;
            assert ns'[i] == Dir(q);
          }
        }
      }
      MkdirEachUnobstructed(ns', failing, root, dirs[1..]);
    }
  }

  /** The file system that `fs/promises` acts on. */
  class FileSystem {
    var nodes: seq<Node>
    const failing: map<string, string>

    /** A path names at most one entry, so a directory lists each name
        once (`ChildrenDistinct`). */
    ghost predicate Valid()
      reads this
    {
      PathsUnique(nodes)
    }

    constructor (nodes: seq<Node>, failing: map<string, string>)
      requires PathsUnique(nodes)
      ensures Valid() && this.nodes == nodes && this.failing == failing
    {
      this.nodes := nodes;
      this.failing := failing;
    }

    /** `fs.mkdir(p, { recursive: true })`; `err` is the thrown message. */
    method MakeDirectory(p: string) returns (err: Option<string>)
      requires Valid()
      modifies this
      ensures Valid()
      ensures match Mkdir(old(nodes), failing, p)
              case Success(ns) => err == None && nodes == ns
              case Failure(m) => err == Some(m) && nodes == old(nodes)
    {
      UniquePreserved(nodes, failing, p, "");
      match Mkdir(nodes, failing, p)
      case Success(ns) =>
        nodes := ns;
        err := None;
      case Failure(m) =>
        err := Some(m);
    }

    /** `fs.writeFile(p, t)`; `err` is the thrown message. */
    method WriteTextFile(p: string, t: string) returns (err: Option<string>)
      requires Valid()
      modifies this
      ensures Valid()
      ensures match WriteFile(old(nodes), failing, p, t)
              case Success(ns) => err == None && nodes == ns
              case Failure(m) => err == Some(m) && nodes == old(nodes)
    {
      UniquePreserved(nodes, failing, p, t);
      match WriteFile(nodes, failing, p, t)
      case Success(ns) =>
        nodes := ns;
        err := None;
      case Failure(m) =>
        err := Some(m);
    }
  }
}
