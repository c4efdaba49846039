/**
  What the rendering rules guarantee, stated over all trees and configurations:
  leaf fallbacks, the order of the modifiers and their suppression at every depth,
  the order of union members, record fields and type arguments, and the fixed order
  of the roles in a function signature.
 */
module StringifyProperties {
  import opened Wrappers
  import opened TypeTree
  import opened Strings
  import opened Stringify

  /** The literal a node falls back to when it has no truthy name. */
  function LeafLiteral(tag: Option<Tag>): string {
    match tag
    case Some(AllLiteral) => "*"
    case Some(NullLiteral) => "null"
    case Some(UndefinedLiteral) => "undefined"
    case Some(UnknownLiteral) => "?"
    case _ => ""
  }

  /** Tags whose rendering goes through the name rule: the four literals, every tag
      the switch does not list, and a missing tag. */
  predicate IsLeafTag(tag: Option<Tag>) {
    tag !in {Some(FunctionType), Some(RecordType), Some(TypeApplication), Some(TypeUnion)}
  }

  /** The modifiers the configuration adds around a body. */
  function Decorate(cfg: Config, n: Node, body: string): string {
    if cfg.ignoreModifiers then body else AddModifiers(n, body)
  }

  /** A leaf renders its name, or its literal when the name is absent or empty, and
      an unknown or missing tag never fails: it renders as a name too. */
  lemma LeafRendering(cfg: Config, n: Node)
    requires IsLeafTag(n.tag)
    requires n.tag.None? || GetHrefForString(cfg, "") == ""
    requires GetHrefForString(cfg, ResolvedName(n, LeafLiteral(n.tag))) == ""
    ensures Truthy(n.name) ==> Body(cfg, n) == n.name.value
    ensures !Truthy(n.name) ==> Body(cfg, n) == LeafLiteral(n.tag)
    ensures Render(cfg, n) == Decorate(cfg, n, Body(cfg, n))
  {
  }

  /** With modifiers honoured, every node renders as the repeatable prefix, the
      nullable symbol, the body and the optional suffix, in that order. */
  lemma ModifierLayout(cfg: Config, n: Node)
    requires !cfg.ignoreModifiers
    ensures Render(cfg, n)
         == Repeatable(n.repeatable) + Nullable(n.nullable) + Body(cfg, n) + Optional(n.optional)
  {
  }

  /** A repeatable, nullable, optional name `x` renders as `...?x=` (and with a
      non-null flag as `...!x=`), whatever the configuration, as long as it honours
      modifiers and has no link for `x` or for the empty string. */
  lemma {:induction false} ModifierOrderExample(cfg: Config, nullable: bool)
    requires !cfg.ignoreModifiers
    requires GetHrefForString(cfg, "") == "" && GetHrefForString(cfg, "x") == ""
    ensures Render(cfg, Name("x").(repeatable := Some(true), nullable := Some(nullable), optional := Some(true)))
         == if nullable then "...?x=" else "...!x="
  {
    var n := Name("x").(repeatable := Some(true), nullable := Some(nullable), optional := Some(true));
    LeafRendering(cfg, n);
  }

  /** The same node without any modifier flag, at any depth. */
  function StripFlags(n: Node): (r: Node)
    decreases n
  {
    n.(expression := StripOpt(n.expression),
       applications := StripList(n.applications),
       elements := StripList(n.elements),
       fields := StripFieldList(n.fields),
       funcNew := StripOpt(n.funcNew),
       funcThis := StripOpt(n.funcThis),
       params := StripList(n.params),
       result := StripOpt(n.result),
       nullable := None, optional := None, repeatable := None)
  }

  function StripOpt(t: Option<Node>): Option<Node>
    decreases t
  {
    match t
    case None => None
    case Some(n) => Some(StripFlags(n))
  }

  function StripList(l: NodeList): NodeList
    decreases l
  {
    match l
    case Absent => Absent
    case Present(ns) => Present(StripAll(ns))
  }

  function StripAll(ns: seq<Node>): seq<Node>
    decreases ns
  {
    if |ns| == 0 then [] else [StripFlags(ns[0])] + StripAll(ns[1..])
  }

  function StripFieldList(l: FieldList): FieldList
    decreases l
  {
    match l
    case NoFields => NoFields
    case FieldsOf(fs) => FieldsOf(StripFields(fs))
  }

  function StripFields(fs: seq<Field>): seq<Field>
    decreases fs
  {
    if |fs| == 0 then [] else [StripField(fs[0])] + StripFields(fs[1..])
  }

  function StripField(f: Field): Field
    decreases f
  {
    Field(StripOpt(f.key), StripOpt(f.value))
  }

  /** The same configuration with modifiers honoured. */
  function Honouring(cfg: Config): Config {
    cfg.(ignoreModifiers := false)
  }

  /** With `_ignoreModifiers` set, no modifier appears at any depth: the rendering is
      exactly that of the flag-free tree under a configuration that honours
      modifiers. */
  lemma {:induction false} IgnoreModifiersAtAnyDepth(cfg: Config, n: Node)
    requires cfg.ignoreModifiers
    ensures Render(cfg, n) == Render(Honouring(cfg), StripFlags(n))
    decreases n, 2
  {
    IgnoreModifiersBody(cfg, n);
  }

  lemma {:induction false} IgnoreModifiersBody(cfg: Config, n: Node)
    requires cfg.ignoreModifiers
    ensures Body(cfg, n) == Body(Honouring(cfg), StripFlags(n))
    decreases n, 1
  {
    var h, s := Honouring(cfg), StripFlags(n);
    assert s.tag == n.tag;
    match n.tag
    case Some(FunctionType) =>
      IgnoreModifiersSignature(cfg, n);
    case Some(RecordType) =>
      assert Body(cfg, n) == Record(cfg, n) && Body(h, s) == Record(h, s);
      IgnoreModifiersRecord(cfg, n);
    case Some(TypeApplication) =>
      assert Body(cfg, n) == Type(cfg, n.expression) + Applications(cfg, n.applications);
      assert Body(h, s) == Type(h, s.expression) + Applications(h, s.applications);
      IgnoreModifiersOpt(cfg, n.expression);
      IgnoreModifiersList(cfg, n.applications);
    case Some(TypeUnion) =>
      assert Body(cfg, n) == Elements(cfg, n.elements) && Body(h, s) == Elements(h, s.elements);
      IgnoreModifiersList(cfg, n.elements);
    case _ =>
      IgnoreModifiersName(cfg, n, LeafLiteral(n.tag));
  }

  /** The name rule reads neither the modifier flags nor the modifier option. */
  lemma IgnoreModifiersName(cfg: Config, n: Node, literal: string)
    requires cfg.ignoreModifiers
    ensures FormatNameAndType(cfg, n, literal) == FormatNameAndType(Honouring(cfg), StripFlags(n), literal)
  {
    var h, s := Honouring(cfg), StripFlags(n);
    assert TagPayload(cfg) == TagPayload(h);
    assert ResolvedName(n, literal) == ResolvedName(s, literal);
    assert AddLinks(cfg, ResolvedName(n, literal)) == AddLinks(h, ResolvedName(n, literal));
  }

  lemma {:induction false} IgnoreModifiersRecord(cfg: Config, n: Node)
    requires cfg.ignoreModifiers
    ensures Record(cfg, n) == Record(Honouring(cfg), StripFlags(n))
    decreases n, 0
  {
    var h, s := Honouring(cfg), StripFlags(n);
    assert s.fields == StripFieldList(n.fields);
    if n.fields.FieldsOf? {
      IgnoreModifiersFields(cfg, n.fields.items);
    }
    assert RecordFields(cfg, n.fields) == RecordFields(h, s.fields);
  }

  lemma {:induction false} IgnoreModifiersSignature(cfg: Config, n: Node)
    requires cfg.ignoreModifiers
    ensures Signature(cfg, n) == Signature(Honouring(cfg), StripFlags(n))
    decreases n, 0
  {
    var h, s := Honouring(cfg), StripFlags(n);
    IgnoreModifiersOpt(cfg, n.funcNew);
    IgnoreModifiersOpt(cfg, n.funcThis);
    IgnoreModifiersOpt(cfg, n.result);
    IgnoreModifiersList(cfg, n.params);
    assert SignatureProps(cfg, n) == SignatureProps(h, s);
  }

  lemma {:induction false} IgnoreModifiersOpt(cfg: Config, t: Option<Node>)
    requires cfg.ignoreModifiers
    ensures Type(cfg, t) == Type(Honouring(cfg), StripOpt(t))
    ensures StripOpt(t).Some? == t.Some?
    decreases t
  {
    match t
    case None =>
    case Some(n) => IgnoreModifiersAtAnyDepth(cfg, n);
  }

  lemma {:induction false} IgnoreModifiersList(cfg: Config, l: NodeList)
    requires cfg.ignoreModifiers
    ensures Elements(cfg, l) == Elements(Honouring(cfg), StripList(l))
    ensures Applications(cfg, l) == Applications(Honouring(cfg), StripList(l))
    ensures Params(cfg, l) == Params(Honouring(cfg), StripList(l))
    decreases l
  {
    match l
    case Absent =>
    case Present(ns) => IgnoreModifiersAll(cfg, ns);
  }

  lemma {:induction false} IgnoreModifiersAll(cfg: Config, ns: seq<Node>)
    requires cfg.ignoreModifiers
    ensures RenderAll(cfg, ns) == RenderAll(Honouring(cfg), StripAll(ns))
    decreases ns
  {
    if |ns| > 0 {
      IgnoreModifiersAtAnyDepth(cfg, ns[0]);
      IgnoreModifiersAll(cfg, ns[1..]);
    }
  }

  lemma {:induction false} IgnoreModifiersFields(cfg: Config, fs: seq<Field>)
    requires cfg.ignoreModifiers
    ensures RenderFields(cfg, fs) == RenderFields(Honouring(cfg), StripFields(fs))
    decreases fs
  {
    if |fs| > 0 {
      IgnoreModifiersField(cfg, fs[0]);
      IgnoreModifiersFields(cfg, fs[1..]);
    }
  }

  lemma {:induction false} IgnoreModifiersField(cfg: Config, f: Field)
    requires cfg.ignoreModifiers
    ensures RenderField(cfg, f) == RenderField(Honouring(cfg), StripField(f))
    decreases f
  {
    IgnoreModifiersOpt(cfg, f.key);
    IgnoreModifiersOpt(cfg, f.value);
  }

  /** A union renders `""` without `elements`, `()` with an empty array, and
      otherwise each member's rendering in the original order, between the members
      before it and those after it, separated by `|`, in parentheses. */
  lemma UnionMembersInOrder(cfg: Config, n: Node, i: nat)
    requires n.tag == Some(TypeUnion)
    ensures n.elements.Absent? ==> Body(cfg, n) == ""
    ensures n.elements == Present([]) ==> Body(cfg, n) == "()"
    ensures n.elements.Present? && i < |n.elements.items| ==>
      var parts := RenderAll(cfg, n.elements.items);
      Body(cfg, n)
      == "(" + (Before(parts[..i], "|") + Render(cfg, n.elements.items[i]) + After(parts[i + 1..], "|")) + ")"
  {
    assert Body(cfg, n) == Elements(cfg, n.elements);
    if n.elements.Present? {
      var parts := RenderAll(cfg, n.elements.items);
      assert Elements(cfg, n.elements) == "(" + Join(parts, "|") + ")";
      if i < |parts| {
        JoinAround(parts, "|", i);
      }
    }
  }

  /** A record renders `{}` without fields; otherwise each field, in order, separated
      by `, `, in braces. */
  lemma RecordFieldsInOrder(cfg: Config, n: Node, i: nat)
    requires n.tag == Some(RecordType)
    ensures n.fields.NoFields? || n.fields == FieldsOf([]) ==> Body(cfg, n) == "{}"
    ensures n.fields.FieldsOf? && i < |n.fields.items| ==>
      var parts := RenderFields(cfg, n.fields.items);
      Body(cfg, n)
      == "{" + (Before(parts[..i], ", ") + RenderField(cfg, n.fields.items[i]) + After(parts[i + 1..], ", ")) + "}"
  {
    assert Body(cfg, n) == Record(cfg, n);
    var parts := RecordFields(cfg, n.fields);
    assert Record(cfg, n) == "{" + Join(parts, ", ") + "}";
    if n.fields.FieldsOf? && i < |n.fields.items| {
      JoinAround(parts, ", ", i);
    }
  }

  /** A field is its rendered key, followed by `: ` and its rendered value only when
      it has a value. */
  lemma FieldRendering(cfg: Config, f: Field)
    ensures f.value.None? ==> RenderField(cfg, f) == Type(cfg, f.key)
    ensures f.value.Some? ==> RenderField(cfg, f) == Type(cfg, f.key) + ": " + Render(cfg, f.value.value)
  {
    var k := Type(cfg, f.key);
    assert RenderField(cfg, f) == k + ValueSuffix(cfg, f.value);
    match f.value
    case None =>
      assert k + "" == k;
    case Some(v) =>
      var r := Render(cfg, v);
      assert ValueSuffix(cfg, f.value) == ": " + r;
      assert k + (": " + r) == k + ": " + r;
  }

  /** A type application renders its base; then, when `applications` is present
      (even empty), the opening bracket (`&lt;` in HTML-safe mode, `<` otherwise),
      the arguments in order separated by `, `, and always a literal `>`. */
  lemma ApplicationArgumentsInOrder(cfg: Config, n: Node, i: nat)
    requires n.tag == Some(TypeApplication)
    ensures n.applications.Absent? ==> Body(cfg, n) == Type(cfg, n.expression)
    ensures n.applications == Present([]) ==>
      Body(cfg, n) == Type(cfg, n.expression) + (if cfg.htmlSafe then "&lt;>" else "<>")
    ensures n.applications.Present? ==> |Body(cfg, n)| > 0 && Body(cfg, n)[|Body(cfg, n)| - 1] == '>'
    ensures n.applications.Present? && i < |n.applications.items| ==>
      var parts := RenderAll(cfg, n.applications.items);
      Body(cfg, n)
      == Type(cfg, n.expression)
         + (OpenBracket(cfg)
            + (Before(parts[..i], ", ") + Render(cfg, n.applications.items[i]) + After(parts[i + 1..], ", "))
            + ">")
  {
    assert Body(cfg, n) == Type(cfg, n.expression) + Applications(cfg, n.applications);
    ApplicationSuffix(cfg, n.applications, i);
    var base := Type(cfg, n.expression);
    var tail := Applications(cfg, n.applications);
    if n.applications.Present? {
      assert (base + tail)[|base + tail| - 1] == tail[|tail| - 1];
    }
  }

  /** The suffix after an application's base: nothing without `applications`;
      otherwise the bracket, the arguments in order separated by `, `, and `>`. */
  lemma ApplicationSuffix(cfg: Config, l: NodeList, i: nat)
    ensures l.Absent? ==> Applications(cfg, l) == ""
    ensures l == Present([]) ==> Applications(cfg, l) == (if cfg.htmlSafe then "&lt;>" else "<>")
    ensures l.Present? ==> |Applications(cfg, l)| > 0 && Applications(cfg, l)[|Applications(cfg, l)| - 1] == '>'
    ensures l.Present? && i < |l.items| ==>
      var parts := RenderAll(cfg, l.items);
      Applications(cfg, l)
      == OpenBracket(cfg) + (Before(parts[..i], ", ") + Render(cfg, l.items[i]) + After(parts[i + 1..], ", ")) + ">"
  {
    if l.Present? {
      var parts := RenderAll(cfg, l.items);
      var inner := Join(parts, ", ");
      var tail := OpenBracket(cfg) + inner + ">";
      assert Applications(cfg, l) == tail;
      assert tail[|tail| - 1] == '>';
      if l.items == [] {
        assert inner == "";
      }
      if i < |parts| {
        JoinAround(parts, ", ", i);
      }
    }
  }

  /** The entries inside a signature's parentheses, stated without the loop: the
      `new:` role when present, the `this:` role when present, the parameters when
      they render to something, in that order. */
  function Roles(cfg: Config, n: Node): seq<string> {
    (if n.funcNew.Some? then ["new:" + Render(cfg, n.funcNew.value)] else [])
    + (if n.funcThis.Some? then ["this:" + Render(cfg, n.funcThis.value)] else [])
    + (var p := Params(cfg, n.params); if p != "" then [p] else [])
  }

  /** The signature loop keeps exactly the roles above, so an absent role leaves no
      placeholder and no stray separator; `: R` follows the parentheses exactly when
      there is a result. */
  lemma {:induction false} SignatureRoles(cfg: Config, n: Node)
    ensures Signature(cfg, n) == "function(" + Join(Roles(cfg, n), ", ") + ")" + Result(cfg, n.result)
    ensures n.result.None? ==> Result(cfg, n.result) == ""
    ensures n.result.Some? ==> Result(cfg, n.result) == ": " + Render(cfg, n.result.value)
  {
    var a, b, c := New(cfg, n.funcNew), This(cfg, n.funcThis), Params(cfg, n.params);
    assert SignatureProps(cfg, n) == [a, b, c];
    NonEmptyOfThree(a, b, c);
    var ra := if n.funcNew.Some? then ["new:" + Render(cfg, n.funcNew.value)] else [];
    var rb := if n.funcThis.Some? then ["this:" + Render(cfg, n.funcThis.value)] else [];
    var rc := if c != "" then [c] else [];
    assert (if a != "" then [a] else []) == ra by {
      if n.funcNew.Some? { assert |a| >= 4; }
    }
    assert (if b != "" then [b] else []) == rb by {
      if n.funcThis.Some? { assert |b| >= 5; }
    }
    assert Roles(cfg, n) == ra + rb + rc;
  }

  /** Regrouping the text of a signature with only a `this` role and a result. */
  lemma AssembleThisOnly(x: string, y: string)
    ensures "function(" + Join(["this:" + x], ", ") + ")" + (": " + y) == "function(this:" + x + "): " + y
  {
    JoinOfOne("this:" + x, ", ");
    assert "function(" + ("this:" + x) == "function(this:" + x;
    assert "function(this:" + x + ")" + (": " + y) == "function(this:" + x + "): " + y;
  }

  /** Regrouping the text of a signature with all three roles. */
  lemma AssembleAllRoles(a: string, b: string, p: string, rest: string)
    ensures "function(" + Join(["new:" + a, "this:" + b, p], ", ") + ")" + rest
         == "function(new:" + a + ", this:" + b + ", " + p + ")" + rest
  {
    JoinOfThree("new:" + a, "this:" + b, p, ", ");
    assert "function(" + ("new:" + a) == "function(new:" + a;
    assert "function(new:" + a + ", " + ("this:" + b) == "function(new:" + a + ", this:" + b;
  }

  /** A function with only a `this` role and a result: `function(this:B): R`. */
  lemma {:induction false} SignatureThisOnly(cfg: Config, n: Node)
    requires n.funcNew.None? && n.funcThis.Some? && n.result.Some?
    requires n.params.Absent? || n.params == Present([])
    ensures Signature(cfg, n)
         == "function(this:" + Render(cfg, n.funcThis.value) + "): " + Render(cfg, n.result.value)
  {
    SignatureRoles(cfg, n);
    var b, r := Render(cfg, n.funcThis.value), Render(cfg, n.result.value);
    assert Params(cfg, n.params) == "";
    assert Roles(cfg, n) == ["this:" + b];
    AssembleThisOnly(b, r);
  }

  /** All three roles: `function(new:A, this:B, P): R`. */
  lemma {:induction false} SignatureAllRoles(cfg: Config, n: Node)
    requires n.funcNew.Some? && n.funcThis.Some? && Params(cfg, n.params) != ""
    ensures Signature(cfg, n)
         == "function(new:" + Render(cfg, n.funcNew.value) + ", this:" + Render(cfg, n.funcThis.value)
            + ", " + Params(cfg, n.params) + ")" + Result(cfg, n.result)
  {
    SignatureRoles(cfg, n);
    var a, b, p := Render(cfg, n.funcNew.value), Render(cfg, n.funcThis.value), Params(cfg, n.params);
    assert Roles(cfg, n) == ["new:" + a] + ["this:" + b] + [p];
    assert ["new:" + a] + ["this:" + b] + [p] == ["new:" + a, "this:" + b, p];
    AssembleAllRoles(a, b, p, Result(cfg, n.result));
  }

  /** The parameter list is empty exactly when there are no parameters, or there is
      a single parameter and it renders to nothing: two or more parameters always
      leave at least their separator. */
  lemma ParamsEmpty(cfg: Config, l: NodeList)
    ensures Params(cfg, l) == "" <==>
      l.Absent? || |l.items| == 0 || (|l.items| == 1 && Render(cfg, l.items[0]) == "")
  {
    if l.Present? && |l.items| > 0 {
      JoinEmpty(RenderAll(cfg, l.items), ", ");
    }
  }

  /** Every parameter's rendering appears in the parameter string, in the original
      order, between the parameters before and after it, separated by `, `. */
  lemma ParamsInOrder(cfg: Config, ps: seq<Node>, i: nat)
    requires i < |ps|
    ensures var parts := RenderAll(cfg, ps);
      Params(cfg, Present(ps)) == Before(parts[..i], ", ") + Render(cfg, ps[i]) + After(parts[i + 1..], ", ")
  {
    JoinAround(RenderAll(cfg, ps), ", ", i);
  }

  /** The payload quirk: a leaf's `type` property is its tag, whose rendering is the
      link lookup of the empty name. So a tagged leaf never shows a `:type` part
      unless the link table maps the empty string, in which case the empty anchor
      follows a colon (also after an empty name, which is then itself that anchor). */
  lemma {:induction false} PayloadQuirk(cfg: Config, n: Node, literal: string)
    requires n.tag.Some?
    ensures GetHrefForString(cfg, "") == "" ==>
      FormatNameAndType(cfg, n, literal) == AddLinks(cfg, ResolvedName(n, literal))
    ensures GetHrefForString(cfg, "") != "" ==>
      FormatNameAndType(cfg, n, literal) == AddLinks(cfg, ResolvedName(n, literal)) + ":" + TagPayload(cfg)
  {
  }

  /** The tag value, seen as an object, has no properties: rendering such an object is
      exactly the payload. */
  lemma TagPayloadIsRenderingOfBare(cfg: Config)
    ensures Render(cfg, Bare()) == TagPayload(cfg)
  {
  }
}
