/** `convertColors` of src/main.js: every color the user gave is paired with a
    name, the closest "Name That Color" entry turned into a lower-case slug. The
    palette lookup of the color-namer package is a function parameter; it
    answers `None` where the package throws (a string it cannot parse as a
    color). */
module Colors {
  import opened Strings
  import opened Js
  import opened NodeFs

  /** `{ name, value }`. */
  datatype NamedColor = NamedColor(name: string, value: string)

  /** `name.replace(/\s+/g, '-').toLowerCase()`. */
  function Slug(name: string): (r: string)
    ensures NoSpaces(r)
    ensures forall k :: 0 <= k < |r| ==> !IsUpper(r[k])
    ensures |r| <= |name|
  {
    ToLower(CollapseSpaces(name))
  }

  /** A slug is its own slug. */
  lemma {:induction false} SlugIdempotent(name: string)
    ensures Slug(Slug(name)) == Slug(name)
  {
    var s := Slug(name);
    CollapseKeeps(s, []);
    assert s + [] == s;
    assert ToLower(s) == s;
  }

  /** Two space-free words around a run of whitespace become the two words,
      lower-cased, joined by one `-`. */
  lemma {:induction false} SlugJoinsWords(a: string, w: string, b: string)
    requires NoSpaces(a) && NoSpaces(b)
    requires |w| > 0 && forall k :: 0 <= k < |w| ==> IsSpace(w[k])
    ensures Slug(a + w + b) == ToLower(a) + "-" + ToLower(b)
  {
    CollapseKeeps(a, w + b);
    CollapseRun(w, b);
    CollapseKeeps(b, []);
    assert b + [] == b;
    assert a + w + b == a + (w + b);
    var c := a + "-" + b;
    assert CollapseSpaces(a + w + b) == c;
    assert ToLower(c) == ToLower(a) + "-" + ToLower(b);
  }

  /** Every color can be named. */
  predicate Nameable(colors: seq<string>, namer: string -> Option<string>)
  {
    forall k :: 0 <= k < |colors| ==> namer(colors[k]).Some?
  }

  /** The pairs `convertColors` returns: one per color, in the same order, each
      holding the color unchanged and the slug of its name. */
  function NamedColors(colors: seq<string>, namer: string -> Option<string>): (r: seq<NamedColor>)
    requires Nameable(colors, namer)
    ensures |r| == |colors|
    ensures forall k :: 0 <= k < |r| ==> r[k].value == colors[k]
    ensures forall k :: 0 <= k < |r| ==> r[k].name == Slug(namer(colors[k]).value)
  {
    seq(|colors|, k requires 0 <= k < |colors| => NamedColor(Slug(namer(colors[k]).value), colors[k]))
  }

  /** The same color always gets the same name, and every name is a slug. */
  lemma NamedColorsConsistent(colors: seq<string>, namer: string -> Option<string>)
    requires Nameable(colors, namer)
    ensures var r := NamedColors(colors, namer);
      forall i, j :: 0 <= i < |r| && 0 <= j < |r| && colors[i] == colors[j] ==> r[i].name == r[j].name
    ensures var r := NamedColors(colors, namer);
      forall k :: 0 <= k < |r| ==> Slug(r[k].name) == r[k].name
  {
    var r := NamedColors(colors, namer);
    forall k | 0 <= k < |r|
      ensures Slug(r[k].name) == r[k].name
    {
      SlugIdempotent(namer(colors[k]).value);
    }
  }

  /** `convertColors`: the `forEach` loop that pushes one pair per color. The first
      color the palette lookup cannot name throws, and no list is returned. */
  method ConvertColors(colors: seq<string>, namer: string -> Option<string>) returns (r: Option<seq<NamedColor>>)
    ensures r.Some? <==> Nameable(colors, namer)
    ensures r.Some? ==> r.value == NamedColors(colors, namer)
  {
    var pairs: seq<NamedColor> := [];
    var i := 0;
    while i < |colors|
      invariant 0 <= i <= |colors|
      invariant |pairs| == i
      invariant forall k :: 0 <= k < i ==> namer(colors[k]).Some?
      invariant forall k :: 0 <= k < i ==> pairs[k] == NamedColor(Slug(namer(colors[k]).value), colors[k])
    {
      var found := namer(colors[i]);
      if found.None? {
        return None;
      }
      pairs := pairs + [NamedColor(Slug(found.value), colors[i])];
      i := i + 1;
    }
    r := Some(pairs);
  }

  /** The console lines that announce the colors, one per pair, in order. */
  function ColorEvents(pairs: seq<NamedColor>): (r: seq<Event>)
    ensures |r| == |pairs|
    ensures forall k :: 0 <= k < |r| ==> r[k] == Logged(ColorAdded(pairs[k].name, pairs[k].value))
  {
    seq(|pairs|, k requires 0 <= k < |pairs| => Logged(ColorAdded(pairs[k].name, pairs[k].value)))
  }

  /** `colorPairs.forEach(color => console.log(...))`. */
  method LogColors(fs: FileSystem, pairs: seq<NamedColor>)
    modifies fs
    ensures fs.dirs == old(fs.dirs) && fs.files == old(fs.files)
    ensures fs.trace == old(fs.trace) + ColorEvents(pairs)
  {
    var i := 0;
    while i < |pairs|
      invariant 0 <= i <= |pairs|
      invariant fs.dirs == old(fs.dirs) && fs.files == old(fs.files)
      invariant fs.trace == old(fs.trace) + ColorEvents(pairs[..i])
    {
      fs.Log(ColorAdded(pairs[i].name, pairs[i].value));
      assert ColorEvents(pairs[..i + 1]) == ColorEvents(pairs[..i]) + [Logged(ColorAdded(pairs[i].name, pairs[i].value))];
      i := i + 1;
    }
    assert pairs[..i] == pairs;
  }
}
