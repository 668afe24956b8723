/** The generator of src/main.js: the preflight check and the fixed order of its
    steps, the folder tree and placeholder files, the optional jQuery file, the
    archive-entry filter and copy loop, and the naming of colors. Network
    fetches are replaced by their effect on the file system (the jQuery file
    appears) or by an input (the list of archive entry paths), and the
    color-name lookup by a function parameter. */
module Scaffold {
  import opened Js
  import opened Options
  import opened NodeFs
  import opened Colors
  import Vendor

  /** The project folder `'./' + options.name`, where `+` converts the name with `String(...)`. */
  function Root(o: Options): string
  {
    Child(".", ToStr(o.name))
  }

  /** A name without `/` makes the project a folder of the working directory. */
  lemma RootInWorkingDir(o: Options)
    ensures '/' !in ToStr(o.name) ==> Parent(Root(o)) == "."
  {
    if '/' !in ToStr(o.name) {
      ParentOfChild(".", ToStr(o.name));
    }
  }

  // ---------------------------------------------------------------------------
  // Folders and placeholder files

  /** The folders `createFolders` makes, in the order it makes them. */
  function FolderPaths(root: string): seq<string>
  {
    [root, Child(root, "css"), Child(root, "files"), Child(root, "img"),
     Child(Child(root, "img"), "social"), Child(root, "js"), Child(root, "sass")]
  }

  /** The placeholder files `createMainFiles` writes, in the order it writes them. */
  function PlaceholderPaths(root: string): seq<string>
  {
    [Child(Child(root, "js"), "main.js"), Child(Child(root, "sass"), "main.scss"), Child(root, "index.html")]
  }

  const JQueryFile := "jquery-3.4.1.min.js"

  function JQueryPath(root: string): string
  {
    Child(Child(root, "js"), JQueryFile)
  }

  /** The tree can be created: the project folder is absent, its parent exists,
      and the name does not end in a slash (which would make every child path
      contain `//`). */
  predicate CanScaffold(dirs: set<string>, files: set<string>, root: string)
  {
    !EndsWithSlash(root) && root !in dirs && root !in files && Parent(root) in dirs
  }

  /** Each folder is made after its parent: the first one's parent is the
      directory that holds the project, every other one's parent is an earlier
      entry of the list. */
  lemma {:induction false} FoldersParentFirst(root: string)
    ensures var ps := FolderPaths(root);
      forall k :: 0 < k < |ps| ==> exists j :: 0 <= j < k && ps[j] == Parent(ps[k])
  {
    var ps := FolderPaths(root);
    ParentOfChild(root, "css");
    ParentOfChild(root, "files");
    ParentOfChild(root, "img");
    ParentOfChild(Child(root, "img"), "social");
    ParentOfChild(root, "js");
    ParentOfChild(root, "sass");
    assert ps[0] == Parent(ps[1]) && ps[0] == Parent(ps[2]) && ps[0] == Parent(ps[3]);
    assert ps[3] == Parent(ps[4]) && ps[0] == Parent(ps[5]) && ps[0] == Parent(ps[6]);
  }

  /** The placeholders and the jQuery file are not among the folders. */
  lemma FilesAreNotFolders(root: string)
    ensures forall p :: p in PlaceholderPaths(root) ==> p !in FolderPaths(root)
    ensures JQueryPath(root) !in FolderPaths(root)
  {
    var n := |root|;
    assert Child(Child(root, "js"), "main.js")[n + 1] == 'j';
    assert Child(Child(root, "img"), "social")[n + 1] == 'i';
    assert Child(root, "index.html")[n + 2] == 'n';
    assert Child(Child(root, "img"), "social")[n + 2] == 'm';
  }

  /** Below an absent project folder, none of the five inner folders is there
      yet, and none of them is the project folder or its `css` folder. */
  lemma SubfoldersFresh(dirs: set<string>, files: set<string>, root: string)
    requires ValidTree(dirs, files) && root !in dirs
    ensures var made := dirs + {root, Child(root, "css")};
      && Child(root, "files") !in made && Child(root, "files") !in files
      && Child(root, "img") !in made && Child(root, "img") !in files
      && Child(Child(root, "img"), "social") !in made && Child(Child(root, "img"), "social") !in files
      && Child(root, "js") !in made && Child(root, "js") !in files
      && Child(root, "sass") !in made && Child(root, "sass") !in files
  {
    AbsentBelow(dirs, files, root, "files");
    AbsentBelow(dirs, files, root, "img");
    AbsentBelow(dirs, files, Child(root, "img"), "social");
    AbsentBelow(dirs, files, root, "js");
    AbsentBelow(dirs, files, root, "sass");
    ChildDistinct(root, "css", "img");
    assert |Child(Child(root, "img"), "social")| == |root| + 11;
  }

  lemma FoldersListed(root: string)
    ensures var ps := FolderPaths(root);
      && SetOf(ps) == {ps[0], ps[1], ps[2], ps[3], ps[4], ps[5], ps[6]}
      && MadeDirs(ps) == [MadeDir(ps[0]), MadeDir(ps[1]), MadeDir(ps[2]), MadeDir(ps[3]), MadeDir(ps[4]), MadeDir(ps[5]), MadeDir(ps[6])]
  {
  }

  /** The `files`, `img` and `img/social` calls of `createFolders`, which cannot
      throw below a fresh project folder. */
  method MakeAssetFolders(fs: FileSystem, root: string)
    requires fs.Valid() && root in fs.dirs
    requires Child(root, "files") !in fs.dirs && Child(root, "files") !in fs.files
    requires Child(root, "img") !in fs.dirs && Child(root, "img") !in fs.files
    requires Child(Child(root, "img"), "social") !in fs.dirs && Child(Child(root, "img"), "social") !in fs.files
    modifies fs
    ensures fs.Valid() && fs.files == old(fs.files)
    ensures fs.dirs == old(fs.dirs) + {Child(root, "files"), Child(root, "img"), Child(Child(root, "img"), "social")}
    ensures fs.trace == old(fs.trace) + [MadeDir(Child(root, "files")), MadeDir(Child(root, "img")), MadeDir(Child(Child(root, "img"), "social"))]
  {
    ChildDistinct(root, "files", "img");
    assert |Child(Child(root, "img"), "social")| == |root| + 11;
    MkdirFresh(fs, root, "files");
    MkdirFresh(fs, root, "img");
    MkdirFresh(fs, Child(root, "img"), "social");
  }

  /** The `js` and `sass` calls of `createFolders`. */
  method MakeCodeFolders(fs: FileSystem, root: string)
    requires fs.Valid() && root in fs.dirs
    requires Child(root, "js") !in fs.dirs && Child(root, "js") !in fs.files
    requires Child(root, "sass") !in fs.dirs && Child(root, "sass") !in fs.files
    modifies fs
    ensures fs.Valid() && fs.files == old(fs.files)
    ensures fs.dirs == old(fs.dirs) + {Child(root, "js"), Child(root, "sass")}
    ensures fs.trace == old(fs.trace) + [MadeDir(Child(root, "js")), MadeDir(Child(root, "sass"))]
  {
    ChildDistinct(root, "js", "sass");
    MkdirFresh(fs, root, "js");
    MkdirFresh(fs, root, "sass");
  }

  /** The five `mkdirSync` calls of `createFolders` after the project folder and
      its `css` folder: below a fresh project folder none of them throws. */
  method MakeInnerFolders(fs: FileSystem, root: string, ghost dirs0: set<string>, ghost files0: set<string>, ghost trace0: seq<Event>)
    requires ValidTree(dirs0, files0) && root !in dirs0
    requires fs.Valid() && fs.files == files0
    requires fs.dirs == dirs0 + {root, Child(root, "css")}
    requires fs.trace == trace0 + [MadeDir(root), MadeDir(Child(root, "css"))]
    modifies fs
    ensures fs.Valid() && fs.files == files0
    ensures fs.dirs == dirs0 + SetOf(FolderPaths(root))
    ensures fs.trace == trace0 + MadeDirs(FolderPaths(root))
  {
    SubfoldersFresh(dirs0, files0, root);
    ghost var css, files, img, social, js, sass :=
      Child(root, "css"), Child(root, "files"), Child(root, "img"), Child(Child(root, "img"), "social"),
      Child(root, "js"), Child(root, "sass");
    MakeAssetFolders(fs, root);
    MakeCodeFolders(fs, root);
    FoldersListed(root);
    SevenInOrder(dirs0, trace0, root, css, files, img, social, js, sass);
  }

  /** Making two, then three, then two more folders adds the seven of them, in order. */
  lemma SevenInOrder(d: set<string>, t: seq<Event>, a: string, b: string, c: string, e: string, f: string, g: string, h: string)
    ensures d + {a, b} + {c, e, f} + {g, h} == d + {a, b, c, e, f, g, h}
    ensures t + [MadeDir(a), MadeDir(b)] + [MadeDir(c), MadeDir(e), MadeDir(f)] + [MadeDir(g), MadeDir(h)]
         == t + [MadeDir(a), MadeDir(b), MadeDir(c), MadeDir(e), MadeDir(f), MadeDir(g), MadeDir(h)]
  {
    AppendAssoc(t + [MadeDir(a), MadeDir(b)], [MadeDir(c), MadeDir(e), MadeDir(f)], [MadeDir(g), MadeDir(h)]);
    AppendAssoc(t, [MadeDir(a), MadeDir(b)], [MadeDir(c), MadeDir(e), MadeDir(f)] + [MadeDir(g), MadeDir(h)]);
  }

  /** `createFolders`: seven `mkdirSync` calls; the first exception stops the rest.
      Once the project folder is made, every later call succeeds unless the name
      ends in a slash. */
  method CreateFolders(fs: FileSystem, root: string) returns (ok: bool)
    requires fs.Valid()
    modifies fs
    ensures fs.Valid() && fs.files == old(fs.files)
    ensures ok == old(CanScaffold(fs.dirs, fs.files, root))
    ensures ok ==> fs.dirs == old(fs.dirs) + SetOf(FolderPaths(root))
    ensures ok ==> fs.trace == old(fs.trace) + MadeDirs(FolderPaths(root))
    ensures !ok ==> || (fs.dirs == old(fs.dirs) && fs.trace == old(fs.trace))
                    || (fs.dirs == old(fs.dirs) + {Canon(root)} && fs.trace == old(fs.trace) + [MadeDir(Canon(root))])
    ensures !ok && !EndsWithSlash(root) ==> fs.dirs == old(fs.dirs) && fs.trace == old(fs.trace)
  {
    ghost var dirs0, files0, trace0 := fs.dirs, fs.files, fs.trace;
    assert !EndsWithSlash(root) ==> Canon(root) == root;
    ok := fs.Mkdir(root);
    if !ok {
      return;
    }
    var css := Child(root, "css");
    assert Canon(css) == css && Parent(css) == root by {
      ParentOfChild(root, "css");
      ChildCanon(root, "css");
    }
    assert EndsWithSlash(root) ==> root !in fs.dirs;
    assert css !in fs.dirs && css !in fs.files by {
      AbsentBelow(dirs0, files0, root, "css");
    }
    ok := fs.Mkdir(css);
    if !ok {
      return;
    }
    assert !EndsWithSlash(root) && fs.dirs == dirs0 + {root, css};
    assert fs.trace == trace0 + [MadeDir(root), MadeDir(css)];
    MakeInnerFolders(fs, root, dirs0, files0, trace0);
  }

  /** `createMainFiles`: three `writeFileSync` calls; the first exception stops the
      rest. `n` is the number of files written: every earlier write was possible,
      the `n`-th was not. */
  method CreateMainFiles(fs: FileSystem, root: string) returns (ok: bool, ghost n: nat)
    requires fs.Valid()
    modifies fs
    ensures fs.Valid() && fs.dirs == old(fs.dirs)
    ensures var ps := PlaceholderPaths(root);
      && n <= |ps| && ok == (n == |ps|)
      && (forall k :: 0 <= k < n ==> WritableIn(old(fs.dirs), ps[k]))
      && (n < |ps| ==> !WritableIn(old(fs.dirs), ps[n]))
      && fs.files == old(fs.files) + SetOf(ps[..n])
      && fs.trace == old(fs.trace) + WroteFiles(ps[..n])
  {
    var ps := PlaceholderPaths(root);
    ghost var files0, trace0 := fs.files, fs.trace;
    assert ps[..0] == [];
    n := 0;
    ok := WriteNext(fs, ps, 0, files0, trace0);
    if !ok {
      return;
    }
    n := 1;
    ok := WriteNext(fs, ps, 1, files0, trace0);
    if !ok {
      return;
    }
    n := 2;
    ok := WriteNext(fs, ps, 2, files0, trace0);
    if !ok {
      return;
    }
    n := 3;
    assert ps[..n] == ps;
  }

  /** The `n`-th write of `createMainFiles`, after the first `n` succeeded. */
  method WriteNext(fs: FileSystem, ps: seq<string>, n: nat, ghost files0: set<string>, ghost trace0: seq<Event>) returns (ok: bool)
    requires fs.Valid() && n < |ps|
    requires fs.files == files0 + SetOf(ps[..n]) && fs.trace == trace0 + WroteFiles(ps[..n])
    modifies fs
    ensures fs.Valid() && fs.dirs == old(fs.dirs)
    ensures ok == WritableIn(old(fs.dirs), ps[n])
    ensures ok ==> fs.files == files0 + SetOf(ps[..n + 1]) && fs.trace == trace0 + WroteFiles(ps[..n + 1])
    ensures !ok ==> fs.files == old(fs.files) && fs.trace == old(fs.trace)
  {
    ok := fs.WriteFile(ps[n]);
    if ok {
      assert ps[..n + 1] == ps[..n] + [ps[n]];
      SetOfAppend(ps[..n], ps[n]);
      WroteFilesAppend(ps[..n], ps[n]);
      AppendAssoc(trace0, WroteFiles(ps[..n]), [WroteFile(ps[n])]);
    }
  }

  /** `retrieveJQuery`: the write stream creates `js/jquery-3.4.1.min.js`; the
      downloaded contents are not modelled. */
  method RetrieveJQuery(fs: FileSystem, root: string) returns (ok: bool)
    requires fs.Valid()
    modifies fs
    ensures fs.Valid() && fs.dirs == old(fs.dirs)
    ensures ok == WritableIn(fs.dirs, JQueryPath(root))
    ensures ok ==> fs.files == old(fs.files) + {JQueryPath(root)} && fs.trace == old(fs.trace) + [WroteFile(JQueryPath(root))]
    ensures !ok ==> fs.files == old(fs.files) && fs.trace == old(fs.trace)
  {
    ok := fs.WriteFile(JQueryPath(root));
  }

  /** Below a fresh project folder, the placeholders and the jQuery file can be
      written once the folders exist. */
  lemma FilesWritable(dirs: set<string>, files: set<string>, root: string)
    requires ValidTree(dirs, files) && root !in dirs
    ensures var made := dirs + SetOf(FolderPaths(root));
      && (forall p :: p in PlaceholderPaths(root) ==> WritableIn(made, p))
      && WritableIn(made, JQueryPath(root))
  {
    FoldersListed(root);
    FilesAreNotFolders(root);
    var js := Child(root, "js");
    var sass := Child(root, "sass");
    AbsentBelow(dirs, files, root, "js");
    AbsentBelow(dirs, files, root, "sass");
    AbsentBelow(dirs, files, js, "main.js");
    AbsentBelow(dirs, files, sass, "main.scss");
    AbsentBelow(dirs, files, root, "index.html");
    AbsentBelow(dirs, files, js, JQueryFile);
    ParentOfChild(js, "main.js");
    ParentOfChild(sass, "main.scss");
    ParentOfChild(root, "index.html");
    ParentOfChild(js, JQueryFile);
  }

  /** After a successful scaffold the vendor step, which the generator leaves
      switched off, would find both of its folders ready. */
  lemma VendorReadyAfterScaffold(dirs: set<string>, files: set<string>, root: string, written: set<string>)
    requires ValidTree(dirs, files) && root !in dirs
    requires written <= SetOf(PlaceholderPaths(root)) + {JQueryPath(root)}
    ensures Vendor.VendorReady(dirs + SetOf(FolderPaths(root)), files + written, root)
  {
    FoldersListed(root);
    AbsentBelow(dirs, files, root, "sass");
    AbsentBelow(dirs, files, root, "js");
    AbsentBelow(dirs, files, Child(root, "sass"), "materialize");
    AbsentBelow(dirs, files, Child(root, "js"), "materialize");
    VendorFoldersNotScaffolded(root);
  }

  /** Neither `materialize` folder is among the folders or files of the scaffold. */
  lemma VendorFoldersNotScaffolded(root: string)
    ensures var sm, jm := Child(Child(root, "sass"), "materialize"), Child(Child(root, "js"), "materialize");
      && sm !in SetOf(FolderPaths(root)) && jm !in SetOf(FolderPaths(root))
      && sm !in SetOf(PlaceholderPaths(root)) + {JQueryPath(root)}
      && jm !in SetOf(PlaceholderPaths(root)) + {JQueryPath(root)}
  {
    var n := |root|;
    var sm := Child(Child(root, "sass"), "materialize");
    var jm := Child(Child(root, "js"), "materialize");
    assert |sm| == n + 17 && |jm| == n + 15;
    assert jm[n + 1] == 'j' && Child(Child(root, "sass"), "main.scss")[n + 1] == 's';
  }

  /** How the run ends once the scaffold has been attempted: the color step needs
      an array of colors the palette lookup can name. */
  datatype RunOutcome = AlreadyExists | Completed(colors: seq<NamedColor>) | ColorsFailed

  function ColorOutcome(colors: JsValue, namer: string -> Option<string>): (r: RunOutcome)
    ensures r.Completed? <==> colors.Arr? && Nameable(colors.items, namer)
    ensures r.Completed? ==> r.colors == NamedColors(colors.items, namer)
    ensures !r.AlreadyExists?
  {
    if colors.Arr? && Nameable(colors.items, namer) then Completed(NamedColors(colors.items, namer)) else ColorsFailed
  }

  /** The files a successful scaffold adds. */
  function ScaffoldFiles(root: string, withJQuery: bool): set<string>
  {
    SetOf(PlaceholderPaths(root)) + (if withJQuery then {JQueryPath(root)} else {})
  }

  /** The events of a successful scaffold, in order. */
  function ScaffoldEvents(root: string, withJQuery: bool): seq<Event>
  {
    MadeDirs(FolderPaths(root)) + WroteFiles(PlaceholderPaths(root))
    + (if withJQuery then [WroteFile(JQueryPath(root))] else [])
  }

  /** The lines the color step prints. */
  function OutcomeEvents(outcome: RunOutcome): seq<Event>
  {
    if outcome.Completed? then ColorEvents(outcome.colors) else []
  }

  /** Below a fresh project folder, the jQuery file is among the files after the
      scaffold exactly when it was asked for. */
  lemma JQueryOnlyWhenAsked(dirs: set<string>, files: set<string>, root: string, withJQuery: bool)
    requires ValidTree(dirs, files) && root !in dirs
    ensures JQueryPath(root) in files + ScaffoldFiles(root, withJQuery) <==> withJQuery
  {
    var js := Child(root, "js");
    AbsentBelow(dirs, files, root, "js");
    AbsentBelow(dirs, files, js, JQueryFile);
    var n := |root|;
    assert |JQueryPath(root)| == n + 23;
    assert |PlaceholderPaths(root)[0]| == n + 11 && |PlaceholderPaths(root)[1]| == n + 15 && |PlaceholderPaths(root)[2]| == n + 11;
  }

  /** The file-system steps of the generator, in their order: folders,
      placeholder files, and the jQuery file when asked for. Below a fresh
      project folder every one of them succeeds. */
  method BuildTree(fs: FileSystem, root: string, withJQuery: bool)
    requires fs.Valid()
    modifies fs
    ensures fs.Valid()
    ensures old(CanScaffold(fs.dirs, fs.files, root)) ==>
      && fs.dirs == old(fs.dirs) + SetOf(FolderPaths(root))
      && fs.files == old(fs.files) + ScaffoldFiles(root, withJQuery)
      && fs.trace == old(fs.trace) + ScaffoldEvents(root, withJQuery)
  {
    ghost var dirs0, files0, trace0 := fs.dirs, fs.files, fs.trace;
    ghost var clean := CanScaffold(dirs0, files0, root);
    ghost var folders, placeholders := FolderPaths(root), PlaceholderPaths(root);
    if clean {
      FilesWritable(dirs0, files0, root);
    }
    var made := CreateFolders(fs, root);
    var written: bool;
    ghost var n: nat;
    written, n := CreateMainFiles(fs, root);
    ghost var files1, trace1 := fs.files, fs.trace;
    if clean {
      assert n == 3 && placeholders[..n] == placeholders;
      assert trace1 == trace0 + MadeDirs(folders) + WroteFiles(placeholders);
    }
    if withJQuery {
      var fetched := RetrieveJQuery(fs, root);
    }
    if clean {
      ghost var fetchedEvents := if withJQuery then [WroteFile(JQueryPath(root))] else [];
      assert fs.trace == trace1 + fetchedEvents;
      AppendAssoc(trace0, MadeDirs(folders), WroteFiles(placeholders));
      AppendAssoc(trace0, MadeDirs(folders) + WroteFiles(placeholders), fetchedEvents);
      assert fs.files == files1 + (if withJQuery then {JQueryPath(root)} else {});
    }
  }

  /** `await convertColors(options)` and the loop that prints one line per pair.
      A value that is not an array, or a color the palette lookup cannot name,
      throws before anything is printed. */
  method AnnounceColors(fs: FileSystem, colors: JsValue, namer: string -> Option<string>) returns (outcome: RunOutcome)
    modifies fs
    ensures outcome == ColorOutcome(colors, namer)
    ensures fs.dirs == old(fs.dirs) && fs.files == old(fs.files)
    ensures fs.trace == old(fs.trace) + OutcomeEvents(outcome)
  {
    if !colors.Arr? {
      return ColorsFailed;
    }
    var pairs := ConvertColors(colors.items, namer);
    if pairs.None? {
      return ColorsFailed;
    }
    LogColors(fs, pairs.value);
    outcome := Completed(pairs.value);
  }

  /** `skiwaMaterializeBoilerplate`: when the project folder exists, only the error
      line is printed. Otherwise the folders, the placeholder files and (when
      asked for) the jQuery file are created, then the colors are named and
      announced. `createFolders`, `createMainFiles` and `retrieveJQuery` are not
      awaited, so one of them that throws does not stop the later ones; the color
      step is awaited, and when it throws no color line is printed. */
  method SkiwaMaterializeBoilerplate(fs: FileSystem, o: Options, namer: string -> Option<string>) returns (outcome: RunOutcome)
    requires fs.Valid()
    modifies fs
    ensures fs.Valid()
    ensures old(fs.Exists(Root(o))) ==>
      && outcome == AlreadyExists
      && fs.dirs == old(fs.dirs) && fs.files == old(fs.files)
      && fs.trace == old(fs.trace) + [Logged(TargetExists(ToStr(o.name)))]
    ensures !old(fs.Exists(Root(o))) ==> outcome == ColorOutcome(o.colors, namer)
    ensures old(CanScaffold(fs.dirs, fs.files, Root(o))) ==>
      && fs.dirs == old(fs.dirs) + SetOf(FolderPaths(Root(o)))
      && fs.files == old(fs.files) + ScaffoldFiles(Root(o), Truthy(o.jquery))
      && fs.trace == old(fs.trace) + ScaffoldEvents(Root(o), Truthy(o.jquery)) + OutcomeEvents(ColorOutcome(o.colors, namer))
  {
    var root := Root(o);
    if fs.Exists(root) {
      fs.Log(TargetExists(ToStr(o.name)));
      outcome := AlreadyExists;
    } else {
      BuildTree(fs, root, Truthy(o.jquery));
      ghost var built := fs.trace;
      outcome := AnnounceColors(fs, o.colors, namer);
      assert fs.trace == built + OutcomeEvents(outcome);
    }
  }
}
