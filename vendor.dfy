/** `retrieveMaterializeFiles` of src/main.js: the five vendor folders, then the
    loop that copies the JavaScript and Sass entries of the Materialize source
    archive into them. Downloading and unzipping are replaced by the list of
    entry paths the archive holds, in archive order; entry contents are not
    modelled. */
module Vendor {
  import opened Strings
  import opened Js
  import opened NodeFs

  /** The readable build of the library, which the copy skips. */
  const ExcludedEntry := "materialize-src/js/bin/materialize.js"

  /** The filter: JavaScript or Sass entries, except the excluded build. */
  predicate Kept(entry: string)
  {
    (Contains(entry, "/js/") || Contains(entry, "/sass/")) && entry != ExcludedEntry
  }

  /** An entry is kept exactly when `/js/` or `/sass/` occurs in it at some
      position and it is not the excluded build. */
  lemma KeptMeans(entry: string)
    ensures Kept(entry) <==>
      && (exists k :: 0 <= k <= |entry| && ("/js/" <= entry[k..] || "/sass/" <= entry[k..]))
      && entry != ExcludedEntry
  {
    ContainsAt(entry, "/js/");
    ContainsAt(entry, "/sass/");
  }

  /** `path.splice(1, 0, 'materialize')`; on an empty array the index is clamped to 0. */
  function InsertVendor(segs: seq<string>): (r: seq<string>)
    ensures |r| == |segs| + 1
  {
    if segs == [] then ["materialize"] else [segs[0], "materialize"] + segs[1..]
  }

  /** Where a kept entry goes, relative to the project folder: its path split on
      `/`, without the first folder, with `materialize` inserted after the next
      one, joined again. Other entries go nowhere. */
  function Rewrite(entry: string): (r: Option<string>)
    ensures r.Some? <==> Kept(entry)
  {
    if Kept(entry) then Some(Join(InsertVendor(Split(entry, '/')[1..]), '/')) else None
  }

  /** The rewritten path has the archive path's segments minus the first, with
      `materialize` as the new second one. */
  lemma RewriteSegments(entry: string)
    requires Kept(entry)
    ensures var segs := Split(entry, '/');
      && |segs| >= 2
      && Split(Rewrite(entry).value, '/') == [segs[1], "materialize"] + segs[2..]
  {
    KeptHasSlash(entry);
    SplitHasTwoPieces(entry, '/');
    var segs := Split(entry, '/');
    InsertedPiecesFree(segs);
    SplitJoin(InsertVendor(segs[1..]), '/');
  }

  /** A kept entry lies below some folder. */
  lemma KeptHasSlash(entry: string)
    requires Kept(entry)
    ensures '/' in entry
  {
    if Contains(entry, "/js/") {
      ContainsChars(entry, "/js/", '/');
    } else {
      ContainsChars(entry, "/sass/", '/');
    }
  }

  /** Inserting `materialize` into pieces free of `/` keeps them free of `/`. */
  lemma InsertedPiecesFree(segs: seq<string>)
    requires |segs| >= 2 && forall k :: 0 <= k < |segs| ==> '/' !in segs[k]
    ensures var ins := InsertVendor(segs[1..]);
      && ins == [segs[1], "materialize"] + segs[2..]
      && forall k :: 0 <= k < |ins| ==> '/' !in ins[k]
  {
    var ins := InsertVendor(segs[1..]);
    assert ins == [segs[1], "materialize"] + segs[2..];
    forall k | 0 <= k < |ins|
      ensures '/' !in ins[k]
    {
      if k >= 2 {
        assert ins[k] == segs[k];
      }
    }
  }

  /** An entry `w/dir/rest` of a `js` or `sass` folder passes the filter. */
  lemma VendorKept(w: string, dir: string, rest: string)
    requires dir == "js" || dir == "sass"
    requires Child(Child(w, dir), rest) != ExcludedEntry
    ensures Kept(Child(Child(w, dir), rest))
  {
    var sub := "/" + dir + "/";
    if dir == "js" {
      assert sub == "/js/";
    } else {
      assert sub == "/sass/";
    }
    assert sub <= sub + rest;
    assert Child(Child(w, dir), rest) == w + (sub + rest);
    ContainsAfter(w, sub + rest, sub);
  }

  /** Two leading segments free of `/` split off one by one. */
  lemma SplitTwoSegments(w: string, dir: string, rest: string)
    requires '/' !in w && '/' !in dir
    ensures Split(Child(Child(w, dir), rest), '/') == [w, dir] + Split(rest, '/')
  {
    var tail := dir + ['/'] + rest;
    assert Child(Child(w, dir), rest) == w + ['/'] + tail;
    SplitSegment(w, tail);
    SplitSegment(dir, rest);
    assert [w] + ([dir] + Split(rest, '/')) == [w, dir] + Split(rest, '/');
  }

  /** A first segment without a separator splits off as one piece. */
  lemma SplitSegment(w: string, tail: string)
    requires '/' !in w
    ensures Split(w + ['/'] + tail, '/') == [w] + Split(tail, '/')
  {
    SplitAppend(w, tail, '/');
    SplitFree(w, '/');
  }

  /** Joining `[dir, "materialize"] + pieces` spells the vendor path. */
  lemma JoinVendor(dir: string, rest: string)
    ensures Join(InsertVendor([dir] + Split(rest, '/')), '/') == Child(dir, Child("materialize", rest))
  {
    var pieces := Split(rest, '/');
    var tail := ["materialize"] + pieces;
    assert InsertVendor([dir] + pieces) == [dir] + tail by {
      assert ([dir] + pieces)[1..] == pieces;
    }
    JoinMaterialize(rest);
    JoinCons(dir, tail, '/');
  }

  /** Joining `materialize` in front of the pieces of `rest` gives `materialize/rest`. */
  lemma JoinMaterialize(rest: string)
    ensures Join(["materialize"] + Split(rest, '/'), '/') == Child("materialize", rest)
  {
    JoinCons("materialize", Split(rest, '/'), '/');
    JoinSplit(rest, '/');
  }

  /** An entry `w/dir/rest` of a `js` or `sass` folder lands in
      `dir/materialize/rest`. */
  lemma VendorLayout(w: string, dir: string, rest: string)
    requires '/' !in w && '/' !in dir && (dir == "js" || dir == "sass")
    requires Child(Child(w, dir), rest) != ExcludedEntry
    ensures Rewrite(Child(Child(w, dir), rest)) == Some(Child(dir, Child("materialize", rest)))
  {
    VendorKept(w, dir, rest);
    SplitTwoSegments(w, dir, rest);
    assert ([w, dir] + Split(rest, '/'))[1..] == [dir] + Split(rest, '/');
    JoinVendor(dir, rest);
  }

  /** The unminified build is the one JavaScript entry that is never copied. */
  lemma ExcludedNeverCopied()
    ensures Contains(ExcludedEntry, "/js/")
    ensures Rewrite(ExcludedEntry) == None
  {
    ContainsAfter("materialize-src", "/js/bin/materialize.js", "/js/");
    assert ExcludedEntry == "materialize-src" + "/js/bin/materialize.js";
  }

  // ---------------------------------------------------------------------------
  // The copy loop over the archive entries

  /** What the loop has done so far: the files there are now, the events it
      produced, and whether it is still running (`false` once a write threw). */
  datatype CopyState = CopyState(files: set<string>, events: seq<Event>, ok: bool)

  /** One entry: a kept entry whose destination does not exist yet is written and
      announced; a write that throws stops the loop. */
  function CopyStep(dirs: set<string>, root: string, st: CopyState, entry: string): CopyState
  {
    if !st.ok then st
    else match Rewrite(entry)
      case None => st
      case Some(rel) =>
        var dest := Child(root, rel);
        if ExistsIn(dirs, st.files, dest) then st
        else if WritableIn(dirs, dest) then
          CopyState(st.files + {dest}, st.events + [WroteFile(dest), Logged(EntryCopied(rel))], true)
        else CopyState(st.files, st.events, false)
  }

  /** The loop over `entries`, in order, from `st`. */
  function CopyAll(dirs: set<string>, root: string, st: CopyState, entries: seq<string>): CopyState
    decreases |entries|
  {
    if entries == [] then st
    else CopyStep(dirs, root, CopyAll(dirs, root, st, entries[..|entries| - 1]), entries[|entries| - 1])
  }

  /** The destination of a kept entry. */
  function Dest(root: string, entry: string): string
    requires Kept(entry)
  {
    Child(root, Rewrite(entry).value)
  }

  /** Once a write has thrown, the remaining entries change nothing. */
  lemma {:induction false} CopyStopped(dirs: set<string>, root: string, st: CopyState, entries: seq<string>, i: nat)
    requires i <= |entries| && !CopyAll(dirs, root, st, entries[..i]).ok
    ensures CopyAll(dirs, root, st, entries) == CopyAll(dirs, root, st, entries[..i])
    decreases |entries|
  {
    if |entries| > i {
      var init := entries[..|entries| - 1];
      assert init[..i] == entries[..i];
      CopyStopped(dirs, root, st, init, i);
    } else {
      assert entries[..i] == entries;
    }
  }

  /** The loop only adds files, and never writes a path that existed when it started. */
  lemma {:induction false} CopyNoOverwrite(dirs: set<string>, root: string, st: CopyState, entries: seq<string>)
    ensures var r := CopyAll(dirs, root, st, entries);
      && st.files <= r.files
      && st.events <= r.events
      && forall p :: WroteFile(p) in r.events[|st.events|..] ==> p !in st.files && p !in dirs
    decreases |entries|
  {
    if entries != [] {
      var init := entries[..|entries| - 1];
      CopyNoOverwrite(dirs, root, st, init);
      var m := CopyAll(dirs, root, st, init);
      var r := CopyAll(dirs, root, st, entries);
      StepNoOverwrite(dirs, root, m, entries[|entries| - 1]);
      assert r.events[|st.events|..] == m.events[|st.events|..] + r.events[|m.events|..];
    }
  }

  /** One step of the loop only adds files and writes nothing that already exists. */
  lemma StepNoOverwrite(dirs: set<string>, root: string, st: CopyState, entry: string)
    ensures var r := CopyStep(dirs, root, st, entry);
      && st.files <= r.files
      && st.events <= r.events
      && forall p :: WroteFile(p) in r.events[|st.events|..] ==> p !in st.files && p !in dirs
  {
    var r := CopyStep(dirs, root, st, entry);
    if r.events != st.events {
      var rel := Rewrite(entry).value;
      assert r.events[|st.events|..] == [WroteFile(Child(root, rel)), Logged(EntryCopied(rel))];
    }
  }

  /** Events that come in pairs: a file written, then the line naming its path
      relative to the project folder. */
  predicate LoggedPairs(root: string, evs: seq<Event>)
    decreases |evs|
  {
    if evs == [] then true
    else
      && |evs| >= 2 && evs[1].Logged? && evs[1].message.EntryCopied?
      && evs[0] == WroteFile(Child(root, evs[1].message.path))
      && LoggedPairs(root, evs[2..])
  }

  lemma {:induction false} LoggedPairsAppend(root: string, evs: seq<Event>, rel: string)
    requires LoggedPairs(root, evs)
    ensures LoggedPairs(root, evs + [WroteFile(Child(root, rel)), Logged(EntryCopied(rel))])
    decreases |evs|
  {
    var pair := [WroteFile(Child(root, rel)), Logged(EntryCopied(rel))];
    if evs == [] {
      assert ([] + pair)[2..] == [];
    } else {
      LoggedPairsAppend(root, evs[2..], rel);
      assert (evs + pair)[2..] == evs[2..] + pair;
    }
  }

  /** Each file the loop writes is followed by exactly one line, which names it. */
  lemma {:induction false} CopyLogsEachWrite(dirs: set<string>, root: string, st: CopyState, entries: seq<string>)
    ensures var r := CopyAll(dirs, root, st, entries);
      st.events <= r.events && LoggedPairs(root, r.events[|st.events|..])
    decreases |entries|
  {
    CopyNoOverwrite(dirs, root, st, entries);
    if entries == [] {
      assert st.events[|st.events|..] == [];
    } else {
      var init := entries[..|entries| - 1];
      CopyLogsEachWrite(dirs, root, st, init);
      var m := CopyAll(dirs, root, st, init);
      var r := CopyAll(dirs, root, st, entries);
      if r.events != m.events {
        var rel := Rewrite(entries[|entries| - 1]).value;
        var pair := [WroteFile(Child(root, rel)), Logged(EntryCopied(rel))];
        assert r.events == m.events + pair;
        assert r.events[|st.events|..] == m.events[|st.events|..] + pair;
        LoggedPairsAppend(root, m.events[|st.events|..], rel);
      }
    }
  }

  /** After a run that did not throw, the destination of every kept entry exists. */
  lemma {:induction false} CopyCovers(dirs: set<string>, root: string, st: CopyState, entries: seq<string>)
    requires CopyAll(dirs, root, st, entries).ok
    ensures forall e :: e in entries && Kept(e) ==> ExistsIn(dirs, CopyAll(dirs, root, st, entries).files, Dest(root, e))
    decreases |entries|
  {
    if entries != [] {
      var init := entries[..|entries| - 1];
      var last := entries[|entries| - 1];
      var m := CopyAll(dirs, root, st, init);
      var r := CopyAll(dirs, root, st, entries);
      StepCovers(dirs, root, m, last);
      CopyCovers(dirs, root, st, init);
      forall e | e in entries && Kept(e)
        ensures ExistsIn(dirs, r.files, Dest(root, e))
      {
        if e != last {
          InInit(entries, e);
          ExistsGrows(dirs, m.files, r.files, Dest(root, e));
        }
      }
    }
  }

  /** A step that does not throw only adds files, and leaves its own entry's
      destination in place when the entry is kept. */
  lemma StepCovers(dirs: set<string>, root: string, st: CopyState, entry: string)
    requires CopyStep(dirs, root, st, entry).ok
    ensures st.ok && st.files <= CopyStep(dirs, root, st, entry).files
    ensures Kept(entry) ==> ExistsIn(dirs, CopyStep(dirs, root, st, entry).files, Dest(root, entry))
  {
  }

  /** An element of a list other than its last one is in the list without its last one. */
  lemma InInit<T>(s: seq<T>, x: T)
    requires x in s && x != s[|s| - 1]
    ensures x in s[..|s| - 1]
  {
    var k :| 0 <= k < |s| && s[k] == x;
    assert s[..|s| - 1][k] == x;
  }

  lemma ExistsGrows(dirs: set<string>, small: set<string>, big: set<string>, p: string)
    requires small <= big && ExistsIn(dirs, small, p)
    ensures ExistsIn(dirs, big, p)
  {
  }

  /** When every kept destination already exists, the loop does nothing. */
  lemma {:induction false} CopyIdle(dirs: set<string>, root: string, st: CopyState, entries: seq<string>)
    requires st.ok
    requires forall e :: e in entries && Kept(e) ==> ExistsIn(dirs, st.files, Dest(root, e))
    ensures CopyAll(dirs, root, st, entries) == st
    decreases |entries|
  {
    if entries != [] {
      var init := entries[..|entries| - 1];
      assert forall e :: e in init ==> e in entries;
      CopyIdle(dirs, root, st, init);
    }
  }

  /** Running the copy a second time over the same archive writes nothing and
      prints nothing, whether or not the first run threw: every entry before the
      one that threw is in place, and that one throws again. */
  lemma CopyIdempotent(dirs: set<string>, root: string, files: set<string>, entries: seq<string>)
    ensures var done := CopyAll(dirs, root, CopyState(files, [], true), entries).files;
      var again := CopyAll(dirs, root, CopyState(done, [], true), entries);
      again.files == done && again.events == []
  {
    var st := CopyState(files, [], true);
    if CopyAll(dirs, root, st, entries).ok {
      var done := CopyAll(dirs, root, st, entries).files;
      CopyCovers(dirs, root, st, entries);
      CopyIdle(dirs, root, CopyState(done, [], true), entries);
    } else {
      var i := FirstThrow(dirs, root, st, entries);
      AgainAfterThrow(dirs, root, st, entries, i);
    }
  }

  /** The second run when the first threw at entry `i`: the entries before `i`
      find their files in place, and entry `i` throws again. */
  lemma AgainAfterThrow(dirs: set<string>, root: string, st: CopyState, entries: seq<string>, i: nat)
    requires st.ok && i < |entries|
    requires CopyAll(dirs, root, st, entries[..i]).ok && !CopyAll(dirs, root, st, entries[..i + 1]).ok
    ensures var done := CopyAll(dirs, root, st, entries).files;
      var again := CopyAll(dirs, root, CopyState(done, [], true), entries);
      again.files == done && again.events == []
  {
    var before := entries[..i];
    var fi := CopyAll(dirs, root, st, before);
    var st2 := CopyState(fi.files, [], true);
    SnocAll(dirs, root, st, entries, i);
    StepThrowsAgain(dirs, root, fi, st2, entries[i]);
    CopyStopped(dirs, root, st, entries, i + 1);
    CopyCovers(dirs, root, st, before);
    CopyIdle(dirs, root, st2, before);
    SnocAll(dirs, root, st2, entries, i);
    CopyStopped(dirs, root, st2, entries, i + 1);
  }

  /** The run over the first `i + 1` entries is the run over the first `i`, then entry `i`. */
  lemma SnocAll(dirs: set<string>, root: string, st: CopyState, entries: seq<string>, i: nat)
    requires i < |entries|
    ensures CopyAll(dirs, root, st, entries[..i + 1]) == CopyStep(dirs, root, CopyAll(dirs, root, st, entries[..i]), entries[i])
  {
    assert entries[..i + 1][..i] == entries[..i];
  }

  /** A step that throws throws again from any running state with the same files,
      and neither time does it write or print anything. */
  lemma StepThrowsAgain(dirs: set<string>, root: string, a: CopyState, b: CopyState, entry: string)
    requires a.ok && b.ok && a.files == b.files && !CopyStep(dirs, root, a, entry).ok
    ensures CopyStep(dirs, root, a, entry) == CopyState(a.files, a.events, false)
    ensures CopyStep(dirs, root, b, entry) == CopyState(b.files, b.events, false)
  {
  }

  /** A run that starts running and ends thrown has a first entry whose write threw. */
  lemma FirstThrow(dirs: set<string>, root: string, st: CopyState, entries: seq<string>) returns (i: nat)
    requires st.ok && !CopyAll(dirs, root, st, entries).ok
    ensures i < |entries|
    ensures CopyAll(dirs, root, st, entries[..i]).ok && !CopyAll(dirs, root, st, entries[..i + 1]).ok
  {
    var oks := seq(|entries| + 1, k requires 0 <= k <= |entries| => CopyAll(dirs, root, st, entries[..k]).ok);
    assert entries[..0] == [] && entries[..|entries|] == entries;
    i := FirstFalse(oks);
  }

  /** A list of flags that starts `true` and ends `false` switches somewhere. */
  lemma {:induction false} FirstFalse(b: seq<bool>) returns (i: nat)
    requires |b| >= 1 && b[0] && !b[|b| - 1]
    ensures i + 1 < |b| && b[i] && !b[i + 1]
    decreases |b|
  {
    if b[|b| - 2] {
      i := |b| - 2;
    } else {
      i := FirstFalse(b[..|b| - 1]);
    }
  }

  /** Every file the copy adds is the destination of a kept entry. */
  lemma {:induction false} CopyWritesOnlyKept(dirs: set<string>, root: string, st: CopyState, entries: seq<string>)
    ensures forall p :: p in CopyAll(dirs, root, st, entries).files && p !in st.files ==>
      exists e :: e in entries && Kept(e) && p == Dest(root, e)
    decreases |entries|
  {
    if entries != [] {
      var init := entries[..|entries| - 1];
      var last := entries[|entries| - 1];
      CopyWritesOnlyKept(dirs, root, st, init);
      var m := CopyAll(dirs, root, st, init);
      var r := CopyAll(dirs, root, st, entries);
      forall p | p in r.files && p !in st.files
        ensures exists e :: e in entries && Kept(e) && p == Dest(root, e)
      {
        if p in m.files {
          var e :| e in init && Kept(e) && p == Dest(root, e);
          assert e in entries;
        } else {
          assert Kept(last) && p == Dest(root, last);
        }
      }
    }
  }

  /** The body of the `forEach` callback for one entry, from a state `st` that
      matches the file system (its events are the end of the trace) and has not
      thrown. */
  method CopyEntry(fs: FileSystem, root: string, entry: string, ghost st: CopyState, ghost t0: seq<Event>) returns (ok: bool)
    requires fs.Valid() && st.ok && fs.files == st.files && fs.trace == t0 + st.events
    modifies fs
    ensures fs.Valid() && fs.dirs == old(fs.dirs)
    ensures var r := CopyStep(old(fs.dirs), root, st, entry);
      fs.files == r.files && fs.trace == t0 + r.events && ok == r.ok
  {
    ok := true;
    var path := Split(entry, '/');
    path := path[1..];
    if Kept(entry) {
      path := InsertVendor(path);
      var rel := Join(path, '/');
      var dest := Child(root, rel);
      assert rel == Rewrite(entry).value;
      if !fs.Exists(dest) {
        ok := fs.WriteFile(dest);
        if ok {
          fs.Log(EntryCopied(rel));
          AppendAssoc(t0 + st.events, [WroteFile(dest)], [Logged(EntryCopied(rel))]);
          AppendAssoc(t0, st.events, [WroteFile(dest), Logged(EntryCopied(rel))]);
        }
      }
    }
  }

  /** The `d.files.forEach` loop: for each entry, split its path and drop the first
      folder; for a kept entry insert `materialize`, join, and write the file
      unless it exists, announcing it. */
  method CopyEntries(fs: FileSystem, root: string, entries: seq<string>) returns (ok: bool)
    requires fs.Valid()
    modifies fs
    ensures fs.Valid() && fs.dirs == old(fs.dirs)
    ensures var r := CopyAll(old(fs.dirs), root, CopyState(old(fs.files), [], true), entries);
      && fs.files == r.files
      && fs.trace == old(fs.trace) + r.events
      && ok == r.ok
  {
    ghost var init := CopyState(fs.files, [], true);
    ok := true;
    var i := 0;
    while i < |entries| && ok
      invariant 0 <= i <= |entries|
      invariant fs.Valid() && fs.dirs == old(fs.dirs)
      invariant var r := CopyAll(fs.dirs, root, init, entries[..i]);
        fs.files == r.files && fs.trace == old(fs.trace) + r.events && ok == r.ok
    {
      ghost var before := CopyAll(fs.dirs, root, init, entries[..i]);
      ok := CopyEntry(fs, root, entries[i], before, old(fs.trace));
      assert entries[..i + 1][..i] == entries[..i];
      i := i + 1;
    }
    if i < |entries| {
      CopyStopped(fs.dirs, root, init, entries, i);
    } else {
      assert entries[..i] == entries;
    }
  }

  // ---------------------------------------------------------------------------
  // The vendor folders

  /** The folders made before the copy, in the order they are made. */
  function VendorDirs(root: string): seq<string>
  {
    var sm := Child(Child(root, "sass"), "materialize");
    var jm := Child(Child(root, "js"), "materialize");
    [sm, Child(sm, "components"), Child(Child(sm, "components"), "forms"), jm, Child(jm, "bin")]
  }

  /** The five folders can be made: `sass` and `js` exist and neither has a
      `materialize` entry yet. */
  predicate VendorReady(dirs: set<string>, files: set<string>, root: string)
  {
    var vs := VendorDirs(root);
    && Child(root, "sass") in dirs && vs[0] !in dirs && vs[0] !in files
    && Child(root, "js") in dirs && vs[3] !in dirs && vs[3] !in files
  }

  /** The three `sass` folders: the first call throws unless `sass/materialize`
      is absent and `sass` exists; the other two then cannot throw. */
  method MakeSassVendorDirs(fs: FileSystem, root: string) returns (ok: bool)
    requires fs.Valid()
    modifies fs
    ensures fs.Valid() && fs.files == old(fs.files)
    ensures var vs := VendorDirs(root);
      ok == (vs[0] !in old(fs.dirs) && vs[0] !in old(fs.files) && Child(root, "sass") in old(fs.dirs))
    ensures var vs := VendorDirs(root);
      ok ==> fs.dirs == old(fs.dirs) + {vs[0], vs[1], vs[2]}
             && fs.trace == old(fs.trace) + [MadeDir(vs[0]), MadeDir(vs[1]), MadeDir(vs[2])]
    ensures !ok ==> fs.dirs == old(fs.dirs) && fs.trace == old(fs.trace)
  {
    ghost var dirs0, files0 := fs.dirs, fs.files;
    VendorDirsParents(root);
    var sm := Child(Child(root, "sass"), "materialize");
    ok := fs.Mkdir(sm);
    if !ok {
      return;
    }
    AbsentBelow(dirs0, files0, sm, "components");
    MkdirFresh(fs, sm, "components");
    AbsentBelow(dirs0, files0, Child(sm, "components"), "forms");
    MkdirFresh(fs, Child(sm, "components"), "forms");
  }

  /** The two `js` folders: the first call throws unless `js/materialize` is
      absent and `js` exists; the second then cannot throw. */
  method MakeJsVendorDirs(fs: FileSystem, root: string) returns (ok: bool)
    requires fs.Valid()
    modifies fs
    ensures fs.Valid() && fs.files == old(fs.files)
    ensures var vs := VendorDirs(root);
      ok == (vs[3] !in old(fs.dirs) && vs[3] !in old(fs.files) && Child(root, "js") in old(fs.dirs))
    ensures var vs := VendorDirs(root);
      ok ==> fs.dirs == old(fs.dirs) + {vs[3], vs[4]}
             && fs.trace == old(fs.trace) + [MadeDir(vs[3]), MadeDir(vs[4])]
    ensures !ok ==> fs.dirs == old(fs.dirs) && fs.trace == old(fs.trace)
  {
    ghost var dirs0, files0 := fs.dirs, fs.files;
    VendorDirsParents(root);
    var jm := Child(Child(root, "js"), "materialize");
    ok := fs.Mkdir(jm);
    if !ok {
      return;
    }
    AbsentBelow(dirs0, files0, jm, "bin");
    MkdirFresh(fs, jm, "bin");
  }

  /** The five `mkdirSync` calls of `retrieveMaterializeFiles`; the first exception
      stops the rest. They all succeed exactly when `VendorReady` holds. */
  method MakeVendorDirs(fs: FileSystem, root: string) returns (ok: bool)
    requires fs.Valid()
    modifies fs
    ensures fs.Valid() && fs.files == old(fs.files)
    ensures ok == old(VendorReady(fs.dirs, fs.files, root))
    ensures ok ==> fs.dirs == old(fs.dirs) + SetOf(VendorDirs(root))
    ensures ok ==> fs.trace == old(fs.trace) + MadeDirs(VendorDirs(root))
    ensures !ok ==> old(fs.dirs) <= fs.dirs <= old(fs.dirs) + SetOf(VendorDirs(root))
  {
    ghost var dirs0, trace0 := fs.dirs, fs.trace;
    ghost var vs := VendorDirs(root);
    VendorDirsApart(root);
    VendorDirsListed(root);
    ok := MakeSassVendorDirs(fs, root);
    if !ok {
      return;
    }
    ok := MakeJsVendorDirs(fs, root);
    if !ok {
      return;
    }
    FiveInOrder(dirs0, trace0, vs[0], vs[1], vs[2], vs[3], vs[4]);
  }

  /** `retrieveMaterializeFiles` once the archive is open: the five folders, then
      the copy loop. Any exception stops the rest. */
  method RetrieveMaterializeFiles(fs: FileSystem, root: string, entries: seq<string>) returns (ok: bool)
    requires fs.Valid()
    modifies fs
    ensures fs.Valid()
    ensures old(VendorReady(fs.dirs, fs.files, root)) ==>
      && fs.dirs == old(fs.dirs) + SetOf(VendorDirs(root))
      && var r := CopyAll(fs.dirs, root, CopyState(old(fs.files), [], true), entries);
      && fs.files == r.files
      && fs.trace == old(fs.trace) + MadeDirs(VendorDirs(root)) + r.events
      && ok == r.ok
    ensures !old(VendorReady(fs.dirs, fs.files, root)) ==>
      && !ok && fs.files == old(fs.files)
      && old(fs.dirs) <= fs.dirs <= old(fs.dirs) + SetOf(VendorDirs(root))
  {
    ok := MakeVendorDirs(fs, root);
    if !ok {
      return;
    }
    ok := CopyEntries(fs, root, entries);
  }

  /** Making three, then two folders adds the five of them, in order. */
  lemma FiveInOrder(d: set<string>, t: seq<Event>, a: string, b: string, c: string, e: string, f: string)
    ensures d + {a, b, c} + {e, f} == d + {a, b, c, e, f}
    ensures t + [MadeDir(a), MadeDir(b), MadeDir(c)] + [MadeDir(e), MadeDir(f)]
         == t + [MadeDir(a), MadeDir(b), MadeDir(c), MadeDir(e), MadeDir(f)]
  {
    AppendAssoc(t, [MadeDir(a), MadeDir(b), MadeDir(c)], [MadeDir(e), MadeDir(f)]);
  }

  /** The vendor folders as a set and as the events of making them in order. */
  lemma VendorDirsListed(root: string)
    ensures var vs := VendorDirs(root);
      && SetOf(vs) == {vs[0], vs[1], vs[2], vs[3], vs[4]}
      && MadeDirs(vs) == [MadeDir(vs[0]), MadeDir(vs[1]), MadeDir(vs[2]), MadeDir(vs[3]), MadeDir(vs[4])]
  {
  }

  /** Where the two `materialize` folders hang. */
  lemma VendorDirsParents(root: string)
    ensures var vs := VendorDirs(root);
      && Canon(vs[0]) == vs[0] && Parent(vs[0]) == Child(root, "sass")
      && Canon(vs[3]) == vs[3] && Parent(vs[3]) == Child(root, "js")
  {
    ParentOfChild(Child(root, "sass"), "materialize");
    ParentOfChild(Child(root, "js"), "materialize");
  }

  /** The `js` folders are different paths from the `sass` ones. */
  lemma VendorDirsApart(root: string)
    ensures var vs := VendorDirs(root);
      && vs[3] != vs[0] && vs[3] != vs[1] && vs[3] != vs[2]
      && vs[4] != vs[0] && vs[4] != vs[1] && vs[4] != vs[2]
      && Child(root, "js") != vs[0] && Child(root, "js") != vs[1] && Child(root, "js") != vs[2]
  {
    var vs := VendorDirs(root);
    var n := |root| + 1;
    assert vs[0][n] == 's' && vs[1][n] == 's' && vs[2][n] == 's';
    assert vs[3][n] == 'j' && vs[4][n] == 'j' && Child(root, "js")[n] == 'j';
  }
}
