/**
  The rendering rules of lib/stringify.js as functions: one function per method of
  `Stringifier`, each reading the normalised configuration. `Type` and `Render`
  together are the recursive `type` dispatch.
 */
module Stringify {
  import opened Wrappers
  import opened TypeTree
  import opened Strings

  /** The options object passed to the constructor. `links` is the lookup table; a
      `Map` table and a plain-object table are both given as the map of the entries
      a lookup can find (for an object, its own properties). `htmlSafe` and
      `ignoreModifiers` (the `_ignoreModifiers` option) are `false` when absent. Link
      targets are strings; a target is truthy when it is not empty. */
  datatype Options = Options(
    links: Option<map<string, string>>,
    linkClass: Option<string>,
    cssClass: Option<string>,
    htmlSafe: bool,
    ignoreModifiers: bool)

  /** The configuration after the constructor has run: `linkClass` is the class
      that links carry, or `""` when they carry none. */
  datatype Config = Config(
    links: Option<map<string, string>>,
    linkClass: string,
    htmlSafe: bool,
    ignoreModifiers: bool)

  /** JavaScript truthiness of an optional string. */
  predicate Truthy(s: Option<string>) {
    s.Some? && s.value != ""
  }

  /** The constructor's normalisation: absent options behave as `{}`, and the link
      class is `linkClass` when that is truthy, else the deprecated `cssClass`, else
      no class at all. */
  function Normalize(options: Option<Options>): (cfg: Config)
    ensures options.None? ==> cfg == Config(None, "", false, false)
    ensures options.Some? ==>
      && cfg.links == options.value.links
      && cfg.htmlSafe == options.value.htmlSafe
      && cfg.ignoreModifiers == options.value.ignoreModifiers
    ensures options.Some? && Truthy(options.value.linkClass) ==>
      cfg.linkClass == options.value.linkClass.value
    ensures options.Some? && !Truthy(options.value.linkClass) && Truthy(options.value.cssClass) ==>
      cfg.linkClass == options.value.cssClass.value
    ensures cfg.linkClass == "" <==>
      options.None? || (!Truthy(options.value.linkClass) && !Truthy(options.value.cssClass))
  {
    match options
    case None => Config(None, "", false, false)
    case Some(o) =>
      var linkClass :=
        if Truthy(o.linkClass) then o.linkClass.value
        else if Truthy(o.cssClass) then o.cssClass.value
        else "";
      Config(o.links, linkClass, o.htmlSafe, o.ignoreModifiers)
  }

  /** `combineNameAndType`: the colon appears only when both sides are non-empty. */
  function CombineNameAndType(nameString: string, typeString: string): (r: string)
    ensures nameString == "" ==> r == typeString
    ensures typeString == "" ==> r == nameString
    ensures nameString != "" && typeString != "" ==> r == nameString + ":" + typeString
    ensures |r| == |nameString| + |typeString| + (if nameString != "" && typeString != "" then 1 else 0)
  {
    var separator := if nameString != "" && typeString != "" then ":" else "";
    nameString + separator + typeString
  }

  /** `nullable`: three-valued, so the three states give three different strings. */
  function Nullable(nullable: Option<bool>): (r: string)
    ensures r == "?" <==> nullable == Some(true)
    ensures r == "!" <==> nullable == Some(false)
    ensures r == "" <==> nullable.None?
  {
    match nullable
    case Some(true) => "?"
    case Some(false) => "!"
    case None => ""
  }

  /** `optional`: `=` exactly when the flag is `true`. */
  function Optional(optional: Option<bool>): (r: string)
    ensures r == "=" <==> optional == Some(true)
    ensures r == "" <==> optional != Some(true)
  {
    if optional == Some(true) then "=" else ""
  }

  /** The repeatable prefix of `_addModifiers`: `...` exactly when the flag is truthy. */
  function Repeatable(repeatable: Option<bool>): (r: string)
    ensures r == "..." <==> repeatable == Some(true)
    ensures r == "" <==> repeatable != Some(true)
  {
    if repeatable == Some(true) then "..." else ""
  }

  /** `_addModifiers`: the body is passed through `combineNameAndType` with an empty
      name, which leaves it as it is, so the result is the repeatable prefix, the
      nullable symbol, the body and the optional suffix, in that order. */
  function AddModifiers(n: Node, typeString: string): (r: string)
    ensures r == Repeatable(n.repeatable) + Nullable(n.nullable) + typeString + Optional(n.optional)
  {
    var combined := Nullable(n.nullable) + CombineNameAndType("", typeString);
    Repeatable(n.repeatable) + combined + Optional(n.optional)
  }

  /** `_getHrefForString`: an exact-key lookup in the table; `""` when there is no
      table or no entry. */
  function GetHrefForString(cfg: Config, nameString: string): (href: string)
    ensures href != "" ==>
      cfg.links.Some? && nameString in cfg.links.value && cfg.links.value[nameString] == href
    ensures cfg.links.Some? && nameString in cfg.links.value ==> href == cfg.links.value[nameString]
    ensures cfg.links.None? || nameString !in cfg.links.value ==> href == ""
  {
    match cfg.links
    case None => ""
    case Some(table) => if nameString in table then table[nameString] else ""
  }

  /** The class attribute of a link: present exactly when a link class is configured. */
  function ClassAttribute(cfg: Config): (r: string)
    ensures r == "" <==> cfg.linkClass == ""
    ensures cfg.linkClass != "" ==> r == " class=\"" + cfg.linkClass + "\""
  {
    if cfg.linkClass != "" then " class=\"" + cfg.linkClass + "\"" else ""
  }

  /** `_addLinks`: the name is wrapped in an anchor exactly when the lookup yields a
      truthy target; otherwise it is returned unchanged. */
  function AddLinks(cfg: Config, nameString: string): (r: string)
    ensures r == nameString <==> GetHrefForString(cfg, nameString) == ""
    ensures GetHrefForString(cfg, nameString) != "" ==>
      r == "<a href=\"" + GetHrefForString(cfg, nameString) + "\"" + ClassAttribute(cfg) + ">"
           + nameString + "</a>"
  {
    var href := GetHrefForString(cfg, nameString);
    if href != "" then
      var link := "<a href=\"" + href + "\"" + ClassAttribute(cfg) + ">" + nameString + "</a>";
      assert |link| > |nameString|;
      link
    else nameString
  }

  /** What `this.type(type.type)` yields in `_formatNameAndType`. The tag is a string,
      which has none of a node's properties: the call takes the default branch with
      no name and no literal, renders no payload of its own and no modifiers, so all
      that is left is the link lookup of the empty name. */
  function TagPayload(cfg: Config): (r: string)
    ensures r == "" <==> GetHrefForString(cfg, "") == ""
  {
    var s := CombineNameAndType(AddLinks(cfg, ""), "");
    if cfg.ignoreModifiers then s else AddModifiers(Bare(), s)
  }

  /** The name a leaf renders: its own name when that is truthy, else the literal. */
  function ResolvedName(n: Node, literal: string): string {
    if Truthy(n.name) then n.name.value else literal
  }

  /** `_formatNameAndType`: the resolved name, link-decorated, joined with the payload
      of a node that has a tag. When neither the name nor the empty string is a link
      key, a leaf renders as its resolved name. */
  function FormatNameAndType(cfg: Config, n: Node, literal: string): (r: string)
    ensures n.tag.None? || GetHrefForString(cfg, "") == "" ==>
      r == AddLinks(cfg, ResolvedName(n, literal))
    ensures ((n.tag.None? || GetHrefForString(cfg, "") == "")
             && GetHrefForString(cfg, ResolvedName(n, literal)) == "") ==>
      r == ResolvedName(n, literal)
  {
    var nameString := ResolvedName(n, literal);
    var typeString := if n.tag.Some? then TagPayload(cfg) else "";
    CombineNameAndType(AddLinks(cfg, nameString), typeString)
  }

  /** `type`: an absent node renders as the empty string. */
  function Type(cfg: Config, t: Option<Node>): string
    decreases t, 0
  {
    match t
    case None => ""
    case Some(n) => Render(cfg, n)
  }

  /** `type` on a present node: the variant body, then the modifiers unless they are
      switched off. */
  function Render(cfg: Config, n: Node): string
    decreases n, 3
  {
    var body := Body(cfg, n);
    if cfg.ignoreModifiers then body else AddModifiers(n, body)
  }

  /** The switch of `type`. */
  function Body(cfg: Config, n: Node): string
    decreases n, 2
  {
    match n.tag
    case Some(AllLiteral) => FormatNameAndType(cfg, n, "*")
    case Some(FunctionType) => Signature(cfg, n)
    case Some(NullLiteral) => FormatNameAndType(cfg, n, "null")
    case Some(RecordType) => Record(cfg, n)
    case Some(TypeApplication) => Type(cfg, n.expression) + Applications(cfg, n.applications)
    case Some(UndefinedLiteral) => FormatNameAndType(cfg, n, "undefined")
    case Some(TypeUnion) => Elements(cfg, n.elements)
    case Some(UnknownLiteral) => FormatNameAndType(cfg, n, "?")
    case _ => FormatNameAndType(cfg, n, "")
  }

  /** `this.type` mapped over an array: one rendering per node, in order. */
  function RenderAll(cfg: Config, ns: seq<Node>): (r: seq<string>)
    ensures |r| == |ns|
    ensures forall i :: 0 <= i < |ns| ==> r[i] == Render(cfg, ns[i])
    decreases ns
  {
    if |ns| == 0 then [] else [Render(cfg, ns[0])] + RenderAll(cfg, ns[1..])
  }

  /** The opening bracket of a type application; the closing one is always `>`. */
  function OpenBracket(cfg: Config): string {
    if cfg.htmlSafe then "&lt;" else "<"
  }

  /** `applications`. */
  function Applications(cfg: Config, l: NodeList): string
    decreases l
  {
    match l
    case Absent => ""
    case Present(apps) => OpenBracket(cfg) + Join(RenderAll(cfg, apps), ", ") + ">"
  }

  /** `elements`. */
  function Elements(cfg: Config, l: NodeList): string
    decreases l
  {
    match l
    case Absent => ""
    case Present(es) => "(" + Join(RenderAll(cfg, es), "|") + ")"
  }

  /** `key`. */
  function Key(cfg: Config, t: Option<Node>): string
    decreases t, 1
  {
    Type(cfg, t)
  }

  /** `new`. */
  function New(cfg: Config, t: Option<Node>): string
    decreases t
  {
    match t
    case None => ""
    case Some(n) => "new:" + Render(cfg, n)
  }

  /** `this`. */
  function This(cfg: Config, t: Option<Node>): string
    decreases t
  {
    match t
    case None => ""
    case Some(n) => "this:" + Render(cfg, n)
  }

  /** `params`: absent and empty arrays both give the empty string. */
  function Params(cfg: Config, l: NodeList): string
    decreases l
  {
    match l
    case Absent => ""
    case Present(ps) => if |ps| == 0 then "" else Join(RenderAll(cfg, ps), ", ")
  }

  /** `result`. */
  function Result(cfg: Config, t: Option<Node>): string
    decreases t
  {
    match t
    case None => ""
    case Some(n) => ": " + Render(cfg, n)
  }

  /** What follows the key of a field: `: value` when there is a value. */
  function ValueSuffix(cfg: Config, value: Option<Node>): string
    decreases value
  {
    match value
    case None => ""
    case Some(v) => ": " + Render(cfg, v)
  }

  /** One iteration of `_recordFields`: the key, then the value suffix. */
  function RenderField(cfg: Config, f: Field): string
    decreases f
  {
    Key(cfg, f.key) + ValueSuffix(cfg, f.value)
  }

  /** `_recordFields` over an array of fields: one string per field, in order. */
  function RenderFields(cfg: Config, fs: seq<Field>): (r: seq<string>)
    ensures |r| == |fs|
    ensures forall i :: 0 <= i < |fs| ==> r[i] == RenderField(cfg, fs[i])
    decreases fs
  {
    if |fs| == 0 then [] else [RenderField(cfg, fs[0])] + RenderFields(cfg, fs[1..])
  }

  /** `_recordFields`: no strings for absent fields. */
  function RecordFields(cfg: Config, l: FieldList): seq<string>
    decreases l
  {
    match l
    case NoFields => []
    case FieldsOf(fs) => RenderFields(cfg, fs)
  }

  /** `_record`. */
  function Record(cfg: Config, n: Node): string
    decreases n, 1
  {
    "{" + Join(RecordFields(cfg, n.fields), ", ") + "}"
  }

  /** The three strings the signature loop computes, in the loop's order. */
  function SignatureProps(cfg: Config, n: Node): seq<string>
    decreases n, 0
  {
    [New(cfg, n.funcNew), This(cfg, n.funcThis), Params(cfg, n.params)]
  }

  /** `_signature`: the non-empty role strings, comma-separated, in parentheses after
      `function`, then the result. */
  function Signature(cfg: Config, n: Node): string
    decreases n, 1
  {
    "function(" + Join(NonEmpty(SignatureProps(cfg, n)), ", ") + ")" + Result(cfg, n.result)
  }
}
