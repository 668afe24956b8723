/** The options object built by the command-line layer and read by the
    generator, and the twelve fields the prompts can fill. */
module Options {
  import opened Js

  /** The fields the prompts ask about, listed in the order they are asked. */
  datatype Field =
    | Title | Description | Url | Lang | Direction | Opengraph
    | Colors | Sections | Jquery | Htaccess | Robots | Sitemap

  /** The position of a field in the prompt order. */
  function Rank(f: Field): (r: nat)
    ensures r < 12
  {
    match f
    case Title => 0
    case Description => 1
    case Url => 2
    case Lang => 3
    case Direction => 4
    case Opengraph => 5
    case Colors => 6
    case Sections => 7
    case Jquery => 8
    case Htaccess => 9
    case Robots => 10
    case Sitemap => 11
  }

  /** Distinct fields sit at distinct positions. */
  lemma RankInjective(f: Field, g: Field)
    ensures Rank(f) == Rank(g) <==> f == g
  {
  }

  /** The options object: `skipPrompts`, `name`, and one entry per field. */
  datatype Options = Options(
    skipPrompts: JsValue,
    name: JsValue,
    title: JsValue,
    description: JsValue,
    url: JsValue,
    lang: JsValue,
    direction: JsValue,
    opengraph: JsValue,
    colors: JsValue,
    sections: JsValue,
    jquery: JsValue,
    htaccess: JsValue,
    robots: JsValue,
    sitemap: JsValue)

  /** `options[f]`. */
  function Get(o: Options, f: Field): JsValue
  {
    match f
    case Title => o.title
    case Description => o.description
    case Url => o.url
    case Lang => o.lang
    case Direction => o.direction
    case Opengraph => o.opengraph
    case Colors => o.colors
    case Sections => o.sections
    case Jquery => o.jquery
    case Htaccess => o.htaccess
    case Robots => o.robots
    case Sitemap => o.sitemap
  }
}
