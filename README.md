# skiwa-materialize-boilerplate, modelled in Dafny

The package is a command-line generator for a static website that uses the
Materialize CSS framework. `src/cli.js` reads the command-line flags into an
options object and asks, through `inquirer`, for every option left falsy, unless
`--yes` is given. Then `skiwaMaterializeBoilerplate` in `src/main.js` builds the
project. It refuses a project folder that already exists. Otherwise it makes the
folder tree and the three placeholder files, writes `js/jquery-3.4.1.min.js`
when jQuery was asked for, and names each configured color with the closest
"Name That Color" entry. It then prints one line per color. The step that would
copy the Materialize sources out of the release archive, `retrieveMaterializeFiles`,
is switched off in the generator; it is modelled on its own.

The model is split into modules:

- `Strings` (strings.dfy): `split`, `join`, `includes`, the `/\s+/g` replacement
  and `toLowerCase` on `seq<char>`, with their round-trip lemmas.
- `Js` (js.dfy): the JavaScript values the options hold, truthiness, `||` and
  `String(...)`.
- `Options` (options.dfy): the options object and its twelve prompted fields.
- `NodeFs` (nodefs.dfy): a `FileSystem` class standing for Node's `fs` module and
  the console. It holds a set of directories, a set of files, and the trace of
  every folder made, file written and line printed, in order. `mkdirSync` and
  `writeFileSync` succeed or throw by the rules of a real tree, applied to the
  literal path strings. Only trailing slashes are stripped; `//` inside a path is
  not collapsed (see "## Left out"). A thrown call is an `ok == false` result.
  `writeFileSync(path)` is called with no data. The model assumes a Node.js
  release before 14, where that call succeeds and writes the text `undefined`.
- `Colors` (colors.dfy): `convertColors` and the color announcements.
- `Vendor` (vendor.dfy): `retrieveMaterializeFiles`. It covers the five vendor
  folders, the entry filter, the path rewrite and the copy loop. The loop is
  specified by a function over the archive's entry list, and its lemmas cover
  no overwrite, one log line per write, coverage and idempotence.
- `Scaffold` (scaffold.dfy): `createFolders`, `createMainFiles`, `retrieveJQuery`
  and `skiwaMaterializeBoilerplate`.
- `Cli` (cli.dfy): `parseArgumentsIntoOptions`, `promptForMissingOptions` and
  `cli`.

Points where the code behaves in ways worth knowing:

- Three steps of `skiwaMaterializeBoilerplate`, `createFolders`,
  `createMainFiles` and `retrieveJQuery`, are `async` functions that are not
  awaited. One of them that throws rejects only its own promise, so the later
  steps still run. Within one step, the first exception stops that step's
  remaining calls. The color step, `convertColors`, is awaited (src/main.js:35):
  when it throws, the generator's own promise rejects and no color line is
  printed (src/main.js:36-38).
- The color step always runs, also for an empty color list.
- No stylesheet, HTML document, `.htaccess`, `robots.txt` or sitemap is
  generated; the code has only comments where these would go.
- The archive step is commented out (src/main.js:22).
- The parser defaults `colors` and `sections` to `[]`, which is truthy. So the
  two list questions are never asked of options that come from the parser
  (`Cli.ParsedNeverAsksLists`).
- The direction question's default is `presets.dir`, which the presets object
  does not define. The default is therefore `undefined` (`Cli.PresetDir`).

## Model

| member | source | states |
|---|---|---|
| `Strings.Split` | src/main.js:90 | `split` always yields at least one piece, and no piece contains the separator |
| `Strings.JoinSplit` | src/main.js:90-98 | joining the pieces of a split with the same separator gives the string back |
| `Strings.SplitJoin` | src/main.js:90-98 | splitting a join of separator-free pieces gives the pieces back |
| `Strings.ContainsAt` | src/main.js:94 | `includes` holds exactly when the searched text occurs at some position of the path |
| `Strings.CollapseSpaces` | src/main.js:134 | the result of replacing every whitespace run by `-` holds no whitespace and is no longer than the input |
| `Strings.CollapseKeeps` | src/main.js:134 | text without whitespace passes through the replacement unchanged |
| `Strings.CollapseRun` | src/main.js:134 | a whole run of whitespace becomes exactly one `-` |
| `Js.FalsyValues` | src/cli.js:86-191 | the falsy values are exactly `undefined`, `null`, `false` and `""`; every array, even `[]`, is truthy |
| `Js.Or` | src/cli.js:196-207 | the JavaScript "or" of `a` and `b` is truthy exactly when one operand is; it is `a` when `a` is truthy and `b` otherwise |
| `NodeFs.ExistsIn` | src/main.js:101 | `existsSync` holds exactly when the path without trailing slashes is a directory, or the path has no trailing slash and is a file |
| `NodeFs.FileSystem.Exists` | src/main.js:13 | the same rule on the current tree |
| `NodeFs.FileSystem.Log` | src/main.js:37-41 | `console.log` appends exactly one line to the trace and changes no folder or file |
| `NodeFs.FileSystem.Mkdir` | src/main.js:52-58 | `mkdirSync` succeeds exactly when nothing is at the path and its parent is a directory; then it adds the directory and logs it, otherwise nothing changes; the tree stays consistent |
| `NodeFs.FileSystem.WriteFile` | src/main.js:65-67 | `writeFileSync` succeeds exactly when the path is not a directory and its parent is one; then it adds the file and logs it, otherwise nothing changes |
| `Colors.Slug` | src/main.js:134 | a color name's slug has no whitespace, no upper-case ASCII letter, and is no longer than the name |
| `Colors.SlugIdempotent` | src/main.js:134 | a slug is its own slug |
| `Colors.SlugJoinsWords` | src/main.js:134 | two words around a whitespace run become the lower-cased words joined by one `-` |
| `Colors.NamedColors` | src/main.js:130-140 | one pair per color, in order, holding the color unchanged and the slug of its palette name |
| `Colors.NamedColorsConsistent` | src/main.js:130-140 | equal colors get equal names, and every name is already a slug |
| `Colors.ConvertColors` | src/main.js:130-140 | the loop returns a list exactly when every color can be named, and then it is `NamedColors` |
| `Colors.LogColors` | src/main.js:36-38 | one console line per pair, in order, and no change to the tree |
| `Vendor.Rewrite` | src/main.js:89-98 | an entry gets a destination exactly when it is a JavaScript or Sass entry other than the excluded build |
| `Vendor.KeptMeans` | src/main.js:94 | an entry is kept exactly when `/js/` or `/sass/` occurs in it and it is not the excluded build |
| `Vendor.RewriteSegments` | src/main.js:89-98 | the destination's segments are the entry's segments without the first, with `materialize` as the new second one |
| `Vendor.VendorKept` | src/main.js:94 | every entry below a `js` or `sass` folder, except the excluded build, passes the filter |
| `Vendor.VendorLayout` | src/main.js:89-98 | entry `w/dir/rest` of a `js` or `sass` folder lands at `dir/materialize/rest` |
| `Vendor.ExcludedNeverCopied` | src/main.js:94 | the unminified build lies in a `js` folder yet is never given a destination |
| `Vendor.CopyStopped` | src/main.js:87-106 | once a write has thrown, the remaining entries change nothing |
| `Vendor.CopyNoOverwrite` | src/main.js:100-104 | the copy only adds files and never writes a path that was a file or directory when it started |
| `Vendor.CopyLogsEachWrite` | src/main.js:100-104 | the copy's events are pairs: a file written, then the line naming that file's path |
| `Vendor.CopyCovers` | src/main.js:87-106 | after a copy that did not throw, every kept entry's destination exists |
| `Vendor.CopyIdle` | src/main.js:100-104 | when every kept destination already exists, the copy does nothing |
| `Vendor.CopyWritesOnlyKept` | src/main.js:94-104 | every file the copy adds is the destination of a kept entry of the archive |
| `Vendor.CopyIdempotent` | src/main.js:87-106 | a second copy over the same archive writes and prints nothing, whether or not the first one threw |
| `Vendor.CopyEntry` | src/main.js:87-106 | the callback for one entry changes the tree and trace exactly as one step of the copy function |
| `Vendor.CopyEntries` | src/main.js:87-106 | the `forEach` loop leaves the files, the trace and the outcome that the copy function gives for the entry list |
| `Vendor.MakeVendorDirs` | src/main.js:79-84 | the five vendor folders are all made, in order, exactly when `sass` and `js` exist without a `materialize` entry; otherwise only some of them are made |
| `Vendor.RetrieveMaterializeFiles` | src/main.js:73-108 | when the vendor folders can be made: the five folders, then the copy of the entry list; otherwise nothing is copied |
| `Scaffold.RootInWorkingDir` | src/main.js:13 | the project folder `'./' + options.name`, built by `Scaffold.Root` with `Js.ToStr` standing for the `String(...)` conversion of `+`, is a folder of the working directory when the name has no `/` |
| `Scaffold.FoldersParentFirst` | src/main.js:51-59 | every folder is made after its parent |
| `Scaffold.FilesAreNotFolders` | src/main.js:51-68 | no placeholder and not the jQuery file is among the folders |
| `Scaffold.CreateFolders` | src/main.js:51-59 | the seven folders are made, in order, exactly when the project folder can be created; otherwise at most the project folder is made |
| `Scaffold.CreateMainFiles` | src/main.js:64-68 | the placeholders are written in order until the first write that cannot succeed; the files and trace hold exactly those written |
| `Scaffold.RetrieveJQuery` | src/main.js:113-125 | the jQuery file is created exactly when it can be written, and nothing else changes |
| `Scaffold.FilesWritable` | src/main.js:51-68 | once the folders exist below a fresh project folder, every placeholder and the jQuery file can be written |
| `Scaffold.VendorReadyAfterScaffold` | src/main.js:73-84 | after the scaffold, the vendor step would find both of its folders ready |
| `Scaffold.ColorOutcome` | src/main.js:35-38 | the color step completes exactly when the colors are an array the palette can name, with the `NamedColors` pairs |
| `Scaffold.JQueryOnlyWhenAsked` | src/main.js:25-27 | below a fresh project folder, the jQuery file is among the files after the scaffold exactly when it was asked for |
| `Scaffold.BuildTree` | src/main.js:13-27 | below a fresh project folder: all folders, the placeholders, and the jQuery file when asked for, with all events in order |
| `Scaffold.AnnounceColors` | src/main.js:35-38 | the outcome is `ColorOutcome`, with one printed line per named color and no change to the tree |
| `Scaffold.SkiwaMaterializeBoilerplate` | src/main.js:8-46 | an existing target prints only the error; a creatable one gets the full tree, the files and the color lines, in order |
| `Cli.ParseArgumentsIntoOptions` | src/cli.js:39-41 | `skipPrompts` is whether `--yes` was given, and `name` is the first positional argument or `undefined` |
| `Cli.ParsedFields` | src/cli.js:39-54 | each scalar option is the given flag or `null`; each list is the given list or `[]` |
| `Cli.ParsedShape` | src/cli.js:39-54 | after parsing, a scalar is truthy or `null`, and both lists are arrays, hence truthy |
| `Cli.PresetsTruthy` | src/cli.js:59-73 | every prompted field of the `presets` object is truthy |
| `Cli.PresetsAskNothing` | src/cli.js:78-84 | the object returned when prompts are skipped is one the prompts would ask nothing about |
| `Cli.QuestionFor` | src/cli.js:86-191 | each field's question is named after it; only the direction question is a list, with choices `ltr` and `rtl` |
| `Cli.QuestionDefaultsArePresets` | src/cli.js:86-190 | each scalar question other than direction's has its field's preset as default |
| `Cli.DirectionDefaultUnset` | src/cli.js:122-130 | the direction question's default is `undefined` while its preset is `ltr` |
| `Cli.QuestionsCharacterised` | src/cli.js:75-191 | a question is asked for a field exactly when that option is falsy, in the fixed field order, and each is the source's question for the field |
| `Cli.BuildQuestions` | src/cli.js:75-191 | the twelve checks build the list that `Questions` specifies |
| `Cli.Merge` | src/cli.js:193-208 | the merge throws exactly when a missing list's answer is not a string, naming `colors` before `sections`; otherwise it keeps `skipPrompts` and `name` |
| `Cli.MergeFields` | src/cli.js:193-208 | a provided option keeps its value, a missing scalar takes its answer, and a missing list takes its answer split on spaces |
| `Cli.PromptForMissingOptions` | src/cli.js:57-209 | with `skipPrompts` truthy: no questions, and the presets with the given name; otherwise the characterised questions, then the merge of the answers |
| `Cli.ParsedNeverAsksLists` | src/cli.js:141-155 | options that come from the parser never lead to a `colors` or `sections` question |
| `Cli.Run` | src/cli.js:211-215 | in `cli`, the list questions are never asked; `--yes` gives the presets; otherwise the questions are those built for the parsed options, and merging the answers succeeds and gives the options passed on; the generator then has the effect `Scaffold.SkiwaMaterializeBoilerplate` states, on those options |

## Left out

- Downloading and unzipping the Materialize archive is not modelled. The archive is the list of entry paths it holds, in archive order.
- Fetching jQuery over HTTP is not modelled. The step is the creation of its file; the stream's `.on('finish')` line "Jquery ajouté" is not in the trace.
- File contents are not modelled. Only which paths are folders and which are files is.
- The `arg` tokenizer is not modelled. Its result is the `Cli.Args` record.
- The `inquirer` prompt is a function parameter from the question list to the answers.
- The color-namer package is a function parameter. It answers `None` where the package throws.
- Console colors and text styling (chalk) are not modelled; messages are `NodeFs.Message` values.
- The "Options skipped" line of `promptForMissingOptions` is not in the trace, as that method does not take the file system.
- Timing is not modelled: the unawaited steps run in their source order, and a rejected promise of one step does not stop the next. Unhandled rejections and stream error events are not modelled.
- Path handling is literal string handling. Only trailing slashes are normalised; `..`, `.` segments and doubled slashes are not.
- Node.js 14 and later are not modelled. There, `writeFileSync(path)` without data throws, so every placeholder and archive write would fail.
- `Strings.ToLower` maps only the ASCII letters; other case mappings of `toLowerCase` are left out.
- Colors.Slug: does not lower-case letters outside ASCII, because full Unicode case mapping is not modelled.
- Scaffold.SkiwaMaterializeBoilerplate: does not state the resulting tree when the project folder is absent but cannot be created (for example its parent is missing); only that the color outcome is still computed.
- Cli.Run: inherits the gap of `Scaffold.SkiwaMaterializeBoilerplate`, stating no tree when the project folder is absent but cannot be created.
- Scaffold.BuildTree: states the new tree only below a project folder that can be created, not the partial results of failing steps.
- Scaffold.CreateFolders: for a name ending in `/` (say `foo/`) the model makes only the project folder and then reports failure. The source builds the whole tree there, because the operating system reads `./foo//css` as `./foo/css`; the model does not collapse `//`.
- Vendor.MakeVendorDirs: when a vendor folder cannot be made, bounds the new folders but does not say which were made.
- Vendor.RetrieveMaterializeFiles: when a vendor folder cannot be made, bounds the new folders but does not say which were made.
- Generating the stylesheets, `index.html`, `.htaccess`, `robots.txt` and the sitemap is not modelled, because the code does not do it.
