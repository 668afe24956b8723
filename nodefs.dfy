/** The part of Node's `fs` module and of the console that the generator uses,
    over an abstract file system: a set of directory paths and a set of file
    paths, plus the trace of everything created or logged, in order. File
    contents are not modelled. Paths are the literal strings the program builds;
    the only normalisation is that trailing slashes name the directory itself. */
module NodeFs {

  /** The console lines the generator prints. */
  datatype Message =
    | TargetExists(name: string)            // the "folder already exists" error
    | ColorAdded(name: string, value: string)
    | EntryCopied(path: string)             // one archive entry written

  datatype Event =
    | MadeDir(path: string)
    | WroteFile(path: string)
    | Logged(message: Message)

  /** The paths of a list, as a set. */
  function SetOf(ps: seq<string>): set<string>
  {
    set p | p in ps
  }

  /** The events of making each folder of a list, in order. */
  function MadeDirs(ps: seq<string>): (r: seq<Event>)
  {
    seq(|ps|, k requires 0 <= k < |ps| => MadeDir(ps[k]))
  }

  /** The events of writing each file of a list, in order. */
  function WroteFiles(ps: seq<string>): (r: seq<Event>)
  {
    seq(|ps|, k requires 0 <= k < |ps| => WroteFile(ps[k]))
  }

  /** Appending two pieces one after the other appends their concatenation. */
  lemma AppendAssoc<T>(t: seq<T>, a: seq<T>, b: seq<T>)
    ensures t + a + b == t + (a + b)
  {
  }

  /** One more path in a list is one more path in its set. */
  lemma SetOfAppend(ps: seq<string>, p: string)
    ensures SetOf(ps + [p]) == SetOf(ps) + {p}
  {
    assert forall q :: q in ps + [p] <==> q in ps || q == p;
  }

  /** One more file in a list is one more write event at the end. */
  lemma WroteFilesAppend(ps: seq<string>, p: string)
    ensures WroteFiles(ps + [p]) == WroteFiles(ps) + [WroteFile(p)]
  {
  }

  predicate EndsWithSlash(p: string)
  {
    |p| > 0 && p[|p| - 1] == '/'
  }

  /** `p` without its trailing slashes. */
  function Canon(p: string): (r: string)
    ensures !EndsWithSlash(r)
    ensures |r| <= |p|
    decreases |p|
  {
    if EndsWithSlash(p) then Canon(p[..|p| - 1]) else p
  }

  /** The directory that holds `p`: everything before its last `/` (nothing when
      there is no `/`). */
  function Parent(p: string): string
    decreases |p|
  {
    if p == [] then ""
    else if p[|p| - 1] == '/' then p[..|p| - 1]
    else Parent(p[..|p| - 1])
  }

  /** `p + '/' + s`. */
  function Child(p: string, s: string): string
  {
    p + "/" + s
  }

  /** The parent of a child is the directory it was built from. */
  lemma {:induction false} ParentOfChild(p: string, s: string)
    requires '/' !in s
    ensures Parent(Child(p, s)) == p
    decreases |s|
  {
    var c := Child(p, s);
    if s == [] {
      assert c[..|c| - 1] == p;
    } else {
      assert c[..|c| - 1] == Child(p, s[..|s| - 1]);
      ParentOfChild(p, s[..|s| - 1]);
    }
  }

  /** Children of one directory with different names are different paths. */
  lemma ChildDistinct(p: string, a: string, b: string)
    requires a != b
    ensures Child(p, a) != Child(p, b)
  {
    assert Child(p, a)[|p| + 1..] == a;
    assert Child(p, b)[|p| + 1..] == b;
  }

  /** A child whose last segment does not end in a slash is its own canonical form. */
  lemma ChildCanon(p: string, s: string)
    requires s != [] && s[|s| - 1] != '/'
    ensures !EndsWithSlash(Child(p, s)) && Canon(Child(p, s)) == Child(p, s)
  {
  }

  /** A consistent tree: the working directory `.` exists, `""` names nothing,
      no path is both a file and a directory, stored paths carry no trailing
      slash, and the parent of every other entry is a directory. */
  ghost predicate ValidTree(dirs: set<string>, files: set<string>)
  {
    && "." in dirs && "" !in dirs
    && dirs !! files
    && (forall d :: d in dirs ==> !EndsWithSlash(d))
    && (forall f :: f in files ==> !EndsWithSlash(f))
    && (forall d {:trigger Parent(d)} :: d in dirs && d != "." ==> Parent(d) in dirs)
    && (forall f :: f in files ==> Parent(f) in dirs)
  }

  /** In a consistent tree nothing lies below a path that is not a directory. */
  lemma AbsentBelow(dirs: set<string>, files: set<string>, p: string, s: string)
    requires ValidTree(dirs, files)
    requires p !in dirs && '/' !in s
    ensures Child(p, s) !in dirs && Child(p, s) !in files
  {
    ParentOfChild(p, s);
  }

  /** `fs.existsSync(p)` on a tree: a path with trailing slashes exists only as a directory. */
  predicate ExistsIn(dirs: set<string>, files: set<string>, p: string)
    ensures ExistsIn(dirs, files, p) <==> Canon(p) in dirs || (!EndsWithSlash(p) && p in files)
  {
    if EndsWithSlash(p) then Canon(p) in dirs else p in dirs || p in files
  }

  /** When `fs.writeFileSync(p)` succeeds: the path is not a directory and its parent is one
      (an existing file is truncated). */
  predicate WritableIn(dirs: set<string>, p: string)
  {
    !EndsWithSlash(p) && p !in dirs && Parent(p) in dirs
  }

  class FileSystem {
    var dirs: set<string>
    var files: set<string>
    var trace: seq<Event>

    ghost predicate Valid()
      reads this
    {
      ValidTree(dirs, files)
    }

    constructor (dirs0: set<string>, files0: set<string>)
      requires ValidTree(dirs0, files0)
      ensures Valid()
      ensures dirs == dirs0 && files == files0 && trace == []
    {
      dirs, files, trace := dirs0, files0, [];
    }

    predicate Exists(p: string)
      reads this
      ensures Exists(p) <==> Canon(p) in dirs || (!EndsWithSlash(p) && p in files)
    {
      ExistsIn(dirs, files, p)
    }

    /** When `fs.mkdirSync(p)` succeeds: nothing is there yet and the parent is a directory. */
    predicate CanMkdir(p: string)
      reads this
    {
      Canon(p) !in dirs && Canon(p) !in files && Parent(Canon(p)) in dirs
    }

    predicate CanWrite(p: string)
      reads this
    {
      WritableIn(dirs, p)
    }

    /** `fs.mkdirSync(p)`; `ok == false` stands for the exception it throws. */
    method Mkdir(p: string) returns (ok: bool)
      requires Valid()
      modifies this
      ensures Valid()
      ensures ok == old(CanMkdir(p))
      ensures ok ==> dirs == old(dirs) + {Canon(p)} && trace == old(trace) + [MadeDir(Canon(p))]
      ensures !ok ==> dirs == old(dirs) && trace == old(trace)
      ensures files == old(files)
    {
      var c := Canon(p);
      ok := CanMkdir(p);
      if ok {
        assert c != "" && c != "." by {
          assert Parent("") == "";
        }
        dirs := dirs + {c};
        trace := trace + [MadeDir(c)];
      }
    }

    /** `fs.writeFileSync(p)` (or opening a write stream on `p`): creates or truncates
        the file; `ok == false` stands for the exception. */
    method WriteFile(p: string) returns (ok: bool)
      requires Valid()
      modifies this
      ensures Valid()
      ensures ok == old(CanWrite(p))
      ensures ok ==> files == old(files) + {p} && trace == old(trace) + [WroteFile(p)]
      ensures !ok ==> files == old(files) && trace == old(trace)
      ensures dirs == old(dirs)
    {
      ok := WritableIn(dirs, p);
      if ok {
        files := files + {p};
        trace := trace + [WroteFile(p)];
      }
    }

    /** `console.log`. */
    method Log(m: Message)
      modifies this
      ensures dirs == old(dirs) && files == old(files)
      ensures trace == old(trace) + [Logged(m)]
    {
      trace := trace + [Logged(m)];
    }
  }

  /** `fs.mkdirSync(parent + '/' + s)` where it cannot throw. */
  method MkdirFresh(fs: FileSystem, parent: string, s: string)
    requires fs.Valid() && parent in fs.dirs
    requires '/' !in s && s != []
    requires Child(parent, s) !in fs.dirs && Child(parent, s) !in fs.files
    modifies fs
    ensures fs.Valid() && fs.files == old(fs.files)
    ensures fs.dirs == old(fs.dirs) + {Child(parent, s)}
    ensures fs.trace == old(fs.trace) + [MadeDir(Child(parent, s))]
  {
    ParentOfChild(parent, s);
    ChildCanon(parent, s);
    var ok := fs.Mkdir(Child(parent, s));
    assert ok;
  }
}
