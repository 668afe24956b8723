/** src/cli.js: the flags parsed by the `arg` package become the options record,
    with defaults for what is absent; unless the user skips the prompts, one
    question is asked per falsy option, in a fixed order, and the answers fill
    exactly those options. The `arg` tokenizer and the `inquirer` prompt are
    inputs: the first as the record it returns, the second as a function from
    the question list to the answers object. */
module Cli {
  import opened Strings
  import opened Js
  import opened Options
  import opened NodeFs
  import Scaffold

  // ---------------------------------------------------------------------------
  // parseArgumentsIntoOptions

  /** What `arg` returns for the declared flags: the positional arguments, a
      boolean flag as present or absent, a string flag's value, the values of a
      repeatable string flag. */
  datatype Args = Args(
    positional: seq<string>,
    yes: bool,
    title: Option<string>,
    description: Option<string>,
    url: Option<string>,
    lang: Option<string>,
    direction: Option<string>,
    opengraph: bool,
    colors: Option<seq<string>>,
    sections: Option<seq<string>>,
    jquery: bool,
    htaccess: bool,
    robots: bool,
    sitemap: bool)

  /** A boolean flag: `true` when given, `undefined` when not. */
  function FlagValue(present: bool): JsValue
  {
    if present then Bool(true) else Undefined
  }

  function TextValue(v: Option<string>): JsValue
  {
    if v.Some? then Str(v.value) else Undefined
  }

  function ListValue(v: Option<seq<string>>): JsValue
  {
    if v.Some? then Arr(v.value) else Undefined
  }

  /** `args['--<field>']`. */
  function Flag(a: Args, f: Field): JsValue
  {
    match f
    case Title => TextValue(a.title)
    case Description => TextValue(a.description)
    case Url => TextValue(a.url)
    case Lang => TextValue(a.lang)
    case Direction => TextValue(a.direction)
    case Opengraph => FlagValue(a.opengraph)
    case Colors => ListValue(a.colors)
    case Sections => ListValue(a.sections)
    case Jquery => FlagValue(a.jquery)
    case Htaccess => FlagValue(a.htaccess)
    case Robots => FlagValue(a.robots)
    case Sitemap => FlagValue(a.sitemap)
  }

  /** The fields that hold one value, as opposed to the two lists. */
  predicate IsScalar(f: Field)
  {
    f != Colors && f != Sections
  }

  /** `parseArgumentsIntoOptions`: every flag `|| null`, the lists `|| []`,
      `--yes || false`, and the first positional argument as the name. */
  function ParseArgumentsIntoOptions(a: Args): (o: Options)
    ensures o.skipPrompts == Bool(a.yes)
    ensures o.name == if |a.positional| > 0 then Str(a.positional[0]) else Undefined
  {
    Options(
      Or(FlagValue(a.yes), Bool(false)),
      if |a.positional| > 0 then Str(a.positional[0]) else Undefined,
      Or(Flag(a, Title), Null),
      Or(Flag(a, Description), Null),
      Or(Flag(a, Url), Null),
      Or(Flag(a, Lang), Null),
      Or(Flag(a, Direction), Null),
      Or(Flag(a, Opengraph), Null),
      Or(Flag(a, Colors), Arr([])),
      Or(Flag(a, Sections), Arr([])),
      Or(Flag(a, Jquery), Null),
      Or(Flag(a, Htaccess), Null),
      Or(Flag(a, Robots), Null),
      Or(Flag(a, Sitemap), Null))
  }

  /** Each scalar option is the flag the user gave, or `null` when the flag is
      absent; each list is the list the user gave, or `[]`. */
  lemma ParsedFields(a: Args)
    ensures var o := ParseArgumentsIntoOptions(a);
      forall f :: IsScalar(f) ==> Get(o, f) == if Truthy(Flag(a, f)) then Flag(a, f) else Null
    ensures var o := ParseArgumentsIntoOptions(a);
      forall f :: !IsScalar(f) ==> Get(o, f) == if Flag(a, f).Arr? then Flag(a, f) else Arr([])
  {
    var o := ParseArgumentsIntoOptions(a);
    forall f
      ensures IsScalar(f) ==> Get(o, f) == if Truthy(Flag(a, f)) then Flag(a, f) else Null
      ensures !IsScalar(f) ==> Get(o, f) == if Flag(a, f).Arr? then Flag(a, f) else Arr([])
    {
      match f
      case Title =>
      case Description =>
      case Url =>
      case Lang =>
      case Direction =>
      case Opengraph =>
      case Colors =>
      case Sections =>
      case Jquery =>
      case Htaccess =>
      case Robots =>
      case Sitemap =>
    }
  }

  /** After parsing, a scalar option is either a value the user gave or `null`,
      and the two lists are always arrays, so they are always truthy. */
  lemma ParsedShape(a: Args)
    ensures var o := ParseArgumentsIntoOptions(a);
      && (forall f :: IsScalar(f) ==> Truthy(Get(o, f)) || Get(o, f) == Null)
      && (forall f :: !IsScalar(f) ==> Get(o, f).Arr? && Truthy(Get(o, f)))
  {
    ParsedFields(a);
  }

  // ---------------------------------------------------------------------------
  // promptForMissingOptions: the questions

  datatype Kind = Input | List | Confirm

  /** An `inquirer` question; `default` is `undefined` where the source gives none. */
  datatype Question = Question(kind: Kind, name: Field, message: string, choices: seq<string>, default: JsValue)

  /** The `presets` object. It has no `dir` entry, so the direction question's
      `default: presets.dir` is `undefined`. */
  function Presets(): Options
  {
    Options(
      Undefined, Null,
      Str("New Materialize website"),
      Str("Generated with @skiwa-materialize-boilerplate"),
      Str("www.example.com"),
      Str("en"),
      Str("ltr"),
      Bool(true),
      Arr([]),
      Arr(["first", "second", "third"]),
      Bool(true), Bool(true), Bool(true), Bool(true))
  }

  /** Every prompted field has a truthy preset. */
  lemma PresetsTruthy()
    ensures forall f :: Truthy(Get(Presets(), f))
  {
    forall f
      ensures Truthy(Get(Presets(), f))
    {
      match f
      case Title =>
      case Description =>
      case Url =>
      case Lang =>
      case Direction =>
      case Opengraph =>
      case Colors =>
      case Sections =>
      case Jquery =>
      case Htaccess =>
      case Robots =>
      case Sitemap =>
    }
  }

  /** `presets.dir`. */
  const PresetDir := Undefined

  /** The question the source pushes for a field. */
  function QuestionFor(f: Field): (q: Question)
    ensures q.name == f
    ensures q.kind == List <==> f == Direction
    ensures q.kind == List ==> q.choices == ["ltr", "rtl"]
    ensures q.kind != List ==> q.choices == []
  {
    var p := Presets();
    match f
    case Title => Question(Input, Title, "What's the website's title ?", [], p.title)
    case Description => Question(Input, Description, "What is the website's description  ?", [], p.description)
    case Url => Question(Input, Url, "What URL does it have ?", [], p.url)
    case Lang => Question(Input, Lang, "What is the main language ?", [], p.lang)
    case Direction => Question(List, Direction, "What's the reading direction ?", ["ltr", "rtl"], PresetDir)
    case Opengraph => Question(Confirm, Opengraph, "Does the website needs OpenGraph tags ?", [], p.opengraph)
    case Colors => Question(Input, Colors, "What are the main custom colors ? (Separate with space)", [], Undefined)
    case Sections => Question(Input, Sections, "What area the main sections ? (Separate with space)", [], Undefined)
    case Jquery => Question(Confirm, Jquery, "Does the website needs JQuery ?", [], p.jquery)
    case Htaccess => Question(Confirm, Htaccess, "Do you want to generate an .htaccess file ?", [], p.htaccess)
    case Robots => Question(Confirm, Robots, "Do you want to generate a robots.txt file ?", [], p.robots)
    case Sitemap => Question(Confirm, Sitemap, "Do you want to generate a sitemap file ?", [], p.sitemap)
  }

  /** The direction question's default is `undefined` while the preset is `ltr`. */
  lemma DirectionDefaultUnset()
    ensures QuestionFor(Direction).default == Undefined && Get(Presets(), Direction) == Str("ltr")
  {
  }

  /** Every other question's default is the preset of its field. */
  lemma QuestionDefaultsArePresets()
    ensures forall f :: IsScalar(f) && f != Direction ==> QuestionFor(f).default == Get(Presets(), f)
  {
    forall f | IsScalar(f) && f != Direction
      ensures QuestionFor(f).default == Get(Presets(), f)
    {
      match f
      case Title =>
      case Description =>
      case Url =>
      case Lang =>
      case Opengraph =>
      case Jquery =>
      case Htaccess =>
      case Robots =>
      case Sitemap =>
    }
  }

  /** One `if (!options.<f>) questions.push(...)`. */
  function Ask(qs: seq<Question>, o: Options, f: Field): seq<Question>
  {
    if !Truthy(Get(o, f)) then qs + [QuestionFor(f)] else qs
  }

  /** The fields the questions fill, in order. */
  function Names(qs: seq<Question>): (r: seq<Field>)
    ensures |r| == |qs| && forall i :: 0 <= i < |qs| ==> r[i] == qs[i].name
  {
    seq(|qs|, i requires 0 <= i < |qs| => qs[i].name)
  }

  /** The order in which the fields are checked. */
  const FieldOrder: seq<Field> :=
    [Title, Description, Url, Lang, Direction, Opengraph, Colors, Sections, Jquery, Htaccess, Robots, Sitemap]

  lemma FieldOrderRanks()
    ensures |FieldOrder| == 12
    ensures forall k :: 0 <= k < 12 ==> Rank(FieldOrder[k]) == k
  {
  }

  /** The question list after the checks of the first `k` fields. */
  function AskedFirst(o: Options, k: nat): seq<Question>
    requires k <= |FieldOrder|
  {
    if k == 0 then [] else Ask(AskedFirst(o, k - 1), o, FieldOrder[k - 1])
  }

  /** The question list `promptForMissingOptions` builds. */
  function Questions(o: Options): seq<Question>
  {
    AskedFirst(o, |FieldOrder|)
  }

  /** A list that, for the fields of rank below `k`, holds the question of each
      falsy one, once, in field order, and nothing else. */
  ghost predicate AskedUpTo(qs: seq<Question>, o: Options, k: nat)
  {
    && (forall i :: 0 <= i < |qs| ==> qs[i] == QuestionFor(qs[i].name))
    && (forall i :: 0 <= i < |qs| ==> !Truthy(Get(o, qs[i].name)) && Rank(qs[i].name) < k)
    && (forall f :: Rank(f) < k && !Truthy(Get(o, f)) ==> f in Names(qs))
    && (forall i, j :: 0 <= i < j < |qs| ==> Rank(qs[i].name) < Rank(qs[j].name))
  }

  /** Each check extends the list by the next field in order. */
  lemma AskStep(qs: seq<Question>, o: Options, f: Field)
    requires AskedUpTo(qs, o, Rank(f))
    ensures AskedUpTo(Ask(qs, o, f), o, Rank(f) + 1)
  {
    if Truthy(Get(o, f)) {
      SkipStep(qs, o, f);
    } else {
      PushStep(qs, o, f, QuestionFor(f));
    }
  }

  /** A truthy option asks nothing, and the list already covers its rank. */
  lemma SkipStep(qs: seq<Question>, o: Options, f: Field)
    requires AskedUpTo(qs, o, Rank(f)) && Truthy(Get(o, f))
    ensures AskedUpTo(qs, o, Rank(f) + 1)
  {
    forall g | Rank(g) < Rank(f) + 1 && !Truthy(Get(o, g))
      ensures g in Names(qs)
    {
      RankInjective(f, g);
    }
  }

  /** A falsy option appends its question, of the highest rank so far. */
  lemma PushStep(qs: seq<Question>, o: Options, f: Field, q: Question)
    requires AskedUpTo(qs, o, Rank(f)) && !Truthy(Get(o, f))
    requires q == QuestionFor(f)
    ensures AskedUpTo(qs + [q], o, Rank(f) + 1)
  {
    var r := qs + [q];
    var n := |qs|;
    assert q.name == f;
    assert forall i :: 0 <= i < n ==> r[i] == qs[i];
    assert r[n] == q;
    forall i | 0 <= i < |r|
      ensures r[i] == QuestionFor(r[i].name)
      ensures !Truthy(Get(o, r[i].name)) && Rank(r[i].name) < Rank(f) + 1
    {
      if i < n {
        assert r[i] == qs[i];
      }
    }
    forall i, j | 0 <= i < j < |r|
      ensures Rank(r[i].name) < Rank(r[j].name)
    {
      if j < n {
        assert r[i] == qs[i] && r[j] == qs[j];
      } else {
        assert r[i] == qs[i];
      }
    }
    assert Names(r) == Names(qs) + [f];
    forall g | Rank(g) < Rank(f) + 1 && !Truthy(Get(o, g))
      ensures g in Names(r)
    {
      if Rank(g) == Rank(f) {
        RankInjective(f, g);
      } else {
        assert g in Names(qs);
      }
    }
  }

  lemma {:induction false} AskedFirstUpTo(o: Options, k: nat)
    requires k <= |FieldOrder|
    ensures AskedUpTo(AskedFirst(o, k), o, k)
  {
    if k > 0 {
      AskedFirstUpTo(o, k - 1);
      FieldOrderRanks();
      AskStep(AskedFirst(o, k - 1), o, FieldOrder[k - 1]);
    }
  }

  /** A question is built for a field exactly when that option is falsy; the
      questions follow the fixed field order, and each is the one the source
      writes for its field. */
  lemma QuestionsCharacterised(o: Options)
    ensures var qs := Questions(o);
      && (forall i :: 0 <= i < |qs| ==> qs[i] == QuestionFor(qs[i].name))
      && (forall f :: f in Names(qs) <==> !Truthy(Get(o, f)))
      && (forall i, j :: 0 <= i < j < |qs| ==> Rank(qs[i].name) < Rank(qs[j].name))
  {
    AskedFirstUpTo(o, |FieldOrder|);
    var qs := Questions(o);
    forall f | f in Names(qs)
      ensures !Truthy(Get(o, f))
    {
      var i :| 0 <= i < |qs| && Names(qs)[i] == f;
    }
  }

  /** One check: `if (!options.<f>) questions.push(<the question for f>)`. */
  method PushIfMissing(qs: seq<Question>, o: Options, f: Field) returns (r: seq<Question>)
    ensures r == Ask(qs, o, f)
  {
    r := qs;
    if !Truthy(Get(o, f)) {
      r := r + [QuestionFor(f)];
    }
  }

  /** The twelve checks of `promptForMissingOptions`, in source order
      (`FieldOrder[k]` is the field of the k-th check). */
  method BuildQuestions(o: Options) returns (qs: seq<Question>)
    ensures qs == Questions(o)
  {
    qs := [];
    qs := PushIfMissing(qs, o, FieldOrder[0]);
    assert qs == AskedFirst(o, 1);
    qs := PushIfMissing(qs, o, FieldOrder[1]);
    assert qs == AskedFirst(o, 2);
    qs := PushIfMissing(qs, o, FieldOrder[2]);
    assert qs == AskedFirst(o, 3);
    qs := PushIfMissing(qs, o, FieldOrder[3]);
    assert qs == AskedFirst(o, 4);
    qs := PushIfMissing(qs, o, FieldOrder[4]);
    assert qs == AskedFirst(o, 5);
    qs := PushIfMissing(qs, o, FieldOrder[5]);
    assert qs == AskedFirst(o, 6);
    qs := PushIfMissing(qs, o, FieldOrder[6]);
    assert qs == AskedFirst(o, 7);
    qs := PushIfMissing(qs, o, FieldOrder[7]);
    assert qs == AskedFirst(o, 8);
    qs := PushIfMissing(qs, o, FieldOrder[8]);
    assert qs == AskedFirst(o, 9);
    qs := PushIfMissing(qs, o, FieldOrder[9]);
    assert qs == AskedFirst(o, 10);
    qs := PushIfMissing(qs, o, FieldOrder[10]);
    assert qs == AskedFirst(o, 11);
    qs := PushIfMissing(qs, o, FieldOrder[11]);
    assert qs == AskedFirst(o, 12);
  }

  // ---------------------------------------------------------------------------
  // promptForMissingOptions: the merge

  /** The answers object: a field that was not asked has no entry. */
  type Answers = map<Field, JsValue>

  /** `answers.<f>`. */
  function Answer(a: Answers, f: Field): JsValue
  {
    if f in a then a[f] else Undefined
  }

  /** `answers.<f>.split(" ")`: only a string has a `split` method; on any other
      value the call throws. */
  function SplitAnswer(v: JsValue): Option<JsValue>
  {
    if v.Str? then Some(Arr(Split(v.s, ' '))) else None
  }

  /** `options.<f> || answers.<f>.split(" ") || []` for the two lists; the
      trailing `|| []` never applies, since an array is truthy. */
  function MergeList(given: JsValue, answer: JsValue): Option<JsValue>
  {
    if Truthy(given) then Some(given) else SplitAnswer(answer)
  }

  /** The object `promptForMissingOptions` returns after the prompt: the provided
      options, with every scalar replaced by `options.<f> || answers.<f>` and the
      lists by `MergeList`. The result's entries are evaluated in order, so a
      `colors` answer that cannot be split throws before `sections` is looked at. */
  function Merge(o: Options, a: Answers): (r: Result<Options, Field>)
    ensures r.Ok? <==> MergeList(o.colors, Answer(a, Colors)).Some? && MergeList(o.sections, Answer(a, Sections)).Some?
    ensures r.Err? ==> r.error == if MergeList(o.colors, Answer(a, Colors)).None? then Colors else Sections
    ensures r.Ok? ==> r.value.skipPrompts == o.skipPrompts && r.value.name == o.name
  {
    var colors := MergeList(o.colors, Answer(a, Colors));
    var sections := MergeList(o.sections, Answer(a, Sections));
    if colors.None? then Err(Colors)
    else if sections.None? then Err(Sections)
    else Ok(o.(
      title := Or(o.title, Answer(a, Title)),
      description := Or(o.description, Answer(a, Description)),
      url := Or(o.url, Answer(a, Url)),
      lang := Or(o.lang, Answer(a, Lang)),
      direction := Or(o.direction, Answer(a, Direction)),
      opengraph := Or(o.opengraph, Answer(a, Opengraph)),
      colors := colors.value,
      sections := sections.value,
      jquery := Or(o.jquery, Answer(a, Jquery)),
      htaccess := Or(o.htaccess, Answer(a, Htaccess)),
      robots := Or(o.robots, Answer(a, Robots)),
      sitemap := Or(o.sitemap, Answer(a, Sitemap))))
  }

  /** After a merge that does not throw, a provided option keeps its value, a
      missing scalar takes the answer, and a missing list takes the answer split
      on spaces. */
  lemma MergeFields(o: Options, a: Answers)
    requires Merge(o, a).Ok?
    ensures var m := Merge(o, a).value;
      forall f :: Truthy(Get(o, f)) ==> Get(m, f) == Get(o, f)
    ensures var m := Merge(o, a).value;
      forall f :: IsScalar(f) && !Truthy(Get(o, f)) ==> Get(m, f) == Answer(a, f)
    ensures var m := Merge(o, a).value;
      forall f :: !IsScalar(f) && !Truthy(Get(o, f)) ==> Answer(a, f).Str? && Get(m, f) == Arr(Split(Answer(a, f).s, ' '))
  {
    var m := Merge(o, a).value;
    forall f
      ensures Truthy(Get(o, f)) ==> Get(m, f) == Get(o, f)
      ensures IsScalar(f) && !Truthy(Get(o, f)) ==> Get(m, f) == Answer(a, f)
      ensures !IsScalar(f) && !Truthy(Get(o, f)) ==> Answer(a, f).Str? && Get(m, f) == Arr(Split(Answer(a, f).s, ' '))
    {
      match f
      case Title =>
      case Description =>
      case Url =>
      case Lang =>
      case Direction =>
      case Opengraph =>
      case Colors =>
      case Sections =>
      case Jquery =>
      case Htaccess =>
      case Robots =>
      case Sitemap =>
    }
  }

  /** `promptForMissingOptions`: with `skipPrompts` truthy the presets are returned
      with the provided name and nothing is asked; otherwise the missing options
      are asked and merged. A merge that throws is `Err`. */
  method PromptForMissingOptions(o: Options, prompt: seq<Question> -> Answers) returns (qs: seq<Question>, r: Result<Options, Field>)
    ensures Truthy(o.skipPrompts) ==> qs == [] && r == Ok(Presets().(name := o.name))
    ensures !Truthy(o.skipPrompts) ==> qs == Questions(o) && r == Merge(o, prompt(qs))
  {
    if Truthy(o.skipPrompts) {
      return [], Ok(Presets().(name := o.name));
    }
    qs := BuildQuestions(o);
    var answers := prompt(qs);
    r := Merge(o, answers);
  }

  /** The object returned when the prompts are skipped is one the prompts would
      ask nothing about. */
  lemma PresetsAskNothing(name: JsValue)
    ensures Questions(Presets().(name := name)) == []
  {
    var o := Presets().(name := name);
    var qs := Questions(o);
    assert |qs| > 0 ==> qs[0].name in Names(qs);
    PresetsTruthy();
    forall f
      ensures Truthy(Get(o, f))
    {
      assert Truthy(Get(Presets(), f));
      match f
      case Title =>
      case Description =>
      case Url =>
      case Lang =>
      case Direction =>
      case Opengraph =>
      case Colors =>
      case Sections =>
      case Jquery =>
      case Htaccess =>
      case Robots =>
      case Sitemap =>
    }
    QuestionsCharacterised(o);
  }

  /** Options that come from the parser never lead to a `colors` or `sections`
      question: their `[]` default is truthy. */
  lemma ParsedNeverAsksLists(a: Args)
    ensures var qs := Questions(ParseArgumentsIntoOptions(a));
      forall i :: 0 <= i < |qs| ==> qs[i].name != Colors && qs[i].name != Sections
  {
    var o := ParseArgumentsIntoOptions(a);
    ParsedShape(a);
    QuestionsCharacterised(o);
    var qs := Questions(o);
    assert forall i :: 0 <= i < |qs| ==> qs[i].name in Names(qs);
  }

  /** `cli`: parse, prompt, generate. Since the parsed lists are always truthy,
      the merge always succeeds and the generator always runs, on the options
      the prompt step returns. */
  method Run(fs: FileSystem, a: Args, prompt: seq<Question> -> Answers, namer: string -> Option<string>)
    returns (qs: seq<Question>, options: Options, outcome: Scaffold.RunOutcome)
    requires fs.Valid()
    modifies fs
    ensures fs.Valid()
    ensures forall i :: 0 <= i < |qs| ==> qs[i].name != Colors && qs[i].name != Sections
    ensures a.yes ==> qs == [] && options == Presets().(name := ParseArgumentsIntoOptions(a).name)
    ensures !a.yes ==> qs == Questions(ParseArgumentsIntoOptions(a))
    ensures !a.yes ==> Merge(ParseArgumentsIntoOptions(a), prompt(qs)) == Ok(options)
    ensures old(fs.Exists(Scaffold.Root(options))) ==>
      && outcome == Scaffold.AlreadyExists
      && fs.dirs == old(fs.dirs) && fs.files == old(fs.files)
      && fs.trace == old(fs.trace) + [Logged(TargetExists(ToStr(options.name)))]
    ensures !old(fs.Exists(Scaffold.Root(options))) ==> outcome == Scaffold.ColorOutcome(options.colors, namer)
    ensures old(Scaffold.CanScaffold(fs.dirs, fs.files, Scaffold.Root(options))) ==>
      && fs.dirs == old(fs.dirs) + SetOf(Scaffold.FolderPaths(Scaffold.Root(options)))
      && fs.files == old(fs.files) + Scaffold.ScaffoldFiles(Scaffold.Root(options), Truthy(options.jquery))
      && fs.trace == old(fs.trace) + Scaffold.ScaffoldEvents(Scaffold.Root(options), Truthy(options.jquery))
         + Scaffold.OutcomeEvents(Scaffold.ColorOutcome(options.colors, namer))
  {
    var parsed := ParseArgumentsIntoOptions(a);
    ParsedNeverAsksLists(a);
    var r;
    qs, r := PromptForMissingOptions(parsed, prompt);
    options := r.value;
    outcome := Scaffold.SkiwaMaterializeBoilerplate(fs, options, namer);
  }
}
