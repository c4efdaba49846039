/**
  Renderings of concrete shapes of tree: function signatures, a record, type
  applications, links, empty arrays and the empty-string link key. Names are kept as
  parameters, so each lemma covers every choice of names (`string`, `boolean`,
  `goog.ui.Menu`, ...), and configurations are described by what they contain.
 */
module StringifyScenarios {
  import opened Wrappers
  import opened TypeTree
  import opened Strings
  import opened Stringify
  import opened StringifyProperties

  /** A configuration without a link table that honours modifiers, such as that of
      `new Stringifier()` with no options. */
  predicate Plain(cfg: Config) {
    cfg.links.None? && !cfg.ignoreModifiers
  }

  /** The configuration of `new Stringifier()` and that of `{htmlSafe: true}`. */
  lemma DefaultsArePlain()
    ensures Plain(Normalize(None)) && !Normalize(None).htmlSafe
    ensures Plain(Normalize(Some(Options(None, None, None, true, false))))
    ensures Normalize(Some(Options(None, None, None, true, false))).htmlSafe
  {
  }

  /** A function type with the given roles and no name. */
  function Func(funcNew: Option<Node>, funcThis: Option<Node>, params: NodeList, result: Option<Node>): Node {
    Bare().(tag := Some(FunctionType), funcNew := funcNew, funcThis := funcThis, params := params, result := result)
  }

  /** `Base<args>` as a type application. */
  function Apply(base: string, args: seq<Node>): Node {
    Bare().(tag := Some(TypeApplication), expression := Some(Name(base)), applications := Present(args))
  }

  /** A node without modifier flags renders as its body. */
  lemma PlainRender(cfg: Config, n: Node)
    requires n.nullable.None? && n.optional.None? && n.repeatable.None?
    ensures Render(cfg, n) == Body(cfg, n)
  {
    if !cfg.ignoreModifiers {
      ModifierLayout(cfg, n);
      assert "" + "" + Body(cfg, n) + "" == Body(cfg, n);
    }
  }

  /** A name renders as its link-decorated self when the empty string is not a link
      key. */
  lemma NameRender(cfg: Config, name: string)
    requires name != "" && GetHrefForString(cfg, "") == ""
    ensures Render(cfg, Name(name)) == AddLinks(cfg, name)
  {
    PlainRender(cfg, Name(name));
    assert ResolvedName(Name(name), "") == name;
  }

  /** Without a link table, a name renders as itself. */
  lemma NameWithoutLinks(cfg: Config, name: string)
    requires name != "" && cfg.links.None?
    ensures Render(cfg, Name(name)) == name
  {
    NameRender(cfg, name);
  }

  /** Two parameters and nothing else, as in `function(string, boolean)`. */
  lemma {:induction false} TwoParameters(cfg: Config, a: string, b: string)
    requires Plain(cfg) && a != "" && b != ""
    ensures Render(cfg, Func(None, None, Present([Name(a), Name(b)]), None))
         == "function(" + a + ", " + b + ")"
  {
    var ps := [Name(a), Name(b)];
    var n := Func(None, None, Present(ps), None);
    NameWithoutLinks(cfg, a);
    NameWithoutLinks(cfg, b);
    var parts := RenderAll(cfg, ps);
    assert parts == [a, b];
    assert parts[1..] == [b];
    JoinOfOne(b, ", ");
    assert Join(parts, ", ") == a + ", " + Join([b], ", ");
    assert Params(cfg, n.params) == Join(parts, ", ");
    PlainRender(cfg, n);
    SignatureRoles(cfg, n);
    assert Roles(cfg, n) == [a + ", " + b];
    JoinOfOne(a + ", " + b, ", ");
  }

  /** No parameters and a result, as in `function(): number`. */
  lemma {:induction false} NoParametersWithResult(cfg: Config, r: string)
    requires Plain(cfg) && r != ""
    ensures Render(cfg, Func(None, None, Absent, Some(Name(r)))) == "function(): " + r
  {
    var n := Func(None, None, Absent, Some(Name(r)));
    NameWithoutLinks(cfg, r);
    PlainRender(cfg, n);
    SignatureRoles(cfg, n);
    assert Roles(cfg, n) == [];
  }

  /** The entries of a signature with a `this` role and one parameter. */
  lemma {:induction false} ThisAndParameterRoles(cfg: Config, t: string, a: string)
    requires Plain(cfg) && t != "" && a != ""
    ensures Join(Roles(cfg, Func(None, Some(Name(t)), Present([Name(a)]), None)), ", ") == "this:" + t + ", " + a
  {
    var n := Func(None, Some(Name(t)), Present([Name(a)]), None);
    NameWithoutLinks(cfg, t);
    NameWithoutLinks(cfg, a);
    assert RenderAll(cfg, n.params.items) == [a];
    JoinOfOne(a, ", ");
    assert Params(cfg, n.params) == Join([a], ", ");
    var roles := ["this:" + t, a];
    assert Roles(cfg, n) == [] + ["this:" + t] + [a];
    assert roles[1..] == [a];
    assert Join(roles, ", ") == "this:" + t + ", " + Join([a], ", ");
  }

  /** A `this` role and one parameter, as in `function(this:goog.ui.Menu, string)`. */
  lemma {:induction false} ThisAndParameter(cfg: Config, t: string, a: string)
    requires Plain(cfg) && t != "" && a != ""
    ensures Render(cfg, Func(None, Some(Name(t)), Present([Name(a)]), None))
         == "function(" + ("this:" + t + ", " + a) + ")"
  {
    var n := Func(None, Some(Name(t)), Present([Name(a)]), None);
    ThisAndParameterRoles(cfg, t, a);
    PlainRender(cfg, n);
    SignatureRoles(cfg, n);
    assert Result(cfg, n.result) == "";
  }

  /** A one-argument application, as in `Array<Object>`: the opening bracket is
      `&lt;` in HTML-safe mode and `<` otherwise, the closing one `>` in both modes. */
  lemma {:induction false} ApplicationOfOne(cfg: Config, base: string, arg: string)
    requires base != "" && arg != "" && !cfg.ignoreModifiers
    requires GetHrefForString(cfg, "") == "" && GetHrefForString(cfg, base) == ""
    requires GetHrefForString(cfg, arg) == ""
    ensures Render(cfg, Apply(base, [Name(arg)])) == base + (OpenBracket(cfg) + arg + ">")
  {
    var n := Apply(base, [Name(arg)]);
    NameRender(cfg, base);
    NameRender(cfg, arg);
    PlainRender(cfg, n);
    assert RenderAll(cfg, [Name(arg)]) == [arg];
  }

  /** The same application with and without HTML-safe output, as in `Array<string>`
      and `Array&lt;string>`. */
  lemma HtmlSafeBracket(cfg: Config, base: string, arg: string)
    requires Plain(cfg) && base != "" && arg != ""
    ensures !cfg.htmlSafe ==> Render(cfg, Apply(base, [Name(arg)])) == base + ("<" + arg + ">")
    ensures cfg.htmlSafe ==> Render(cfg, Apply(base, [Name(arg)])) == base + ("&lt;" + arg + ">")
  {
    ApplicationOfOne(cfg, base, arg);
  }

  /** A repeatable name, as in `...string`. */
  lemma {:induction false} RepeatableName(cfg: Config, x: string)
    requires Plain(cfg) && x != ""
    ensures Render(cfg, Name(x).(repeatable := Some(true))) == "..." + x
  {
    var n := Name(x).(repeatable := Some(true));
    LeafRendering(cfg, n);
    ModifierLayout(cfg, n);
    assert Body(cfg, n) == x;
  }

  /** The renderings of three parameters: a name, a one-argument application and a
      repeatable name. */
  lemma {:induction false} ThreeParamStrings(cfg: Config, a: string, base: string, arg: string, c: string)
    requires Plain(cfg) && !cfg.htmlSafe && a != "" && base != "" && arg != "" && c != ""
    ensures RenderAll(cfg, [Name(a), Apply(base, [Name(arg)]), Name(c).(repeatable := Some(true))])
         == [a, base + ("<" + arg + ">"), "..." + c]
  {
    var ps := [Name(a), Apply(base, [Name(arg)]), Name(c).(repeatable := Some(true))];
    NameWithoutLinks(cfg, a);
    ApplicationOfOne(cfg, base, arg);
    RepeatableName(cfg, c);
    var parts := RenderAll(cfg, ps);
    assert parts[0] == a && parts[1] == base + ("<" + arg + ">") && parts[2] == "..." + c;
  }

  /** The parameter string of those three parameters. */
  lemma {:induction false} ThreeParams(cfg: Config, a: string, base: string, arg: string, c: string)
    requires Plain(cfg) && !cfg.htmlSafe && a != "" && base != "" && arg != "" && c != ""
    ensures Params(cfg, Present([Name(a), Apply(base, [Name(arg)]), Name(c).(repeatable := Some(true))]))
         == a + ", " + (base + ("<" + arg + ">")) + ", " + ("..." + c)
  {
    ThreeParamStrings(cfg, a, base, arg, c);
    JoinOfThree(a, base + ("<" + arg + ">"), "..." + c, ", ");
  }

  /** All roles, parameters of three kinds and a result, as in
      `function(new:Master, this:Everyone, string, Array<Object>, ...string): boolean`. */
  lemma {:induction false} AllRolesAndResult(cfg: Config, m: string, e: string, a: string, base: string,
                                             arg: string, c: string, r: string)
    requires Plain(cfg) && !cfg.htmlSafe
    requires m != "" && e != "" && a != "" && base != "" && arg != "" && c != "" && r != ""
    ensures Render(cfg, Func(Some(Name(m)), Some(Name(e)),
                             Present([Name(a), Apply(base, [Name(arg)]), Name(c).(repeatable := Some(true))]),
                             Some(Name(r))))
         == "function(new:" + m + ", this:" + e + ", "
            + (a + ", " + (base + ("<" + arg + ">")) + ", " + ("..." + c)) + ")" + (": " + r)
  {
    var ps := [Name(a), Apply(base, [Name(arg)]), Name(c).(repeatable := Some(true))];
    var n := Func(Some(Name(m)), Some(Name(e)), Present(ps), Some(Name(r)));
    NameWithoutLinks(cfg, m);
    NameWithoutLinks(cfg, e);
    NameWithoutLinks(cfg, r);
    ThreeParams(cfg, a, base, arg, c);
    PlainRender(cfg, n);
    SignatureAllRoles(cfg, n);
  }

  /** The strings of a bare key and a key with a value. */
  lemma {:induction false} KeyAndKeyValue(cfg: Config, a: string, b: string, t: string)
    requires Plain(cfg) && a != "" && b != "" && t != ""
    ensures RenderFields(cfg, [Field(Some(Name(a)), None), Field(Some(Name(b)), Some(Name(t)))])
         == [a, b + ": " + t]
  {
    var fs := [Field(Some(Name(a)), None), Field(Some(Name(b)), Some(Name(t)))];
    NameWithoutLinks(cfg, a);
    NameWithoutLinks(cfg, b);
    NameWithoutLinks(cfg, t);
    FieldRendering(cfg, fs[0]);
    FieldRendering(cfg, fs[1]);
    var parts := RenderFields(cfg, fs);
    assert parts[0] == a;
    assert parts[1] == b + ": " + t;
  }

  /** A record of a bare key and a key with a value, as in `{a, b: number}`, renders
      back to the text it stands for. */
  lemma {:induction false} RecordRoundTrip(cfg: Config, a: string, b: string, t: string)
    requires Plain(cfg) && a != "" && b != "" && t != ""
    ensures Render(cfg, Bare().(tag := Some(RecordType),
                                fields := FieldsOf([Field(Some(Name(a)), None),
                                                    Field(Some(Name(b)), Some(Name(t)))])))
         == "{" + (a + ", " + (b + ": " + t)) + "}"
  {
    var fs := [Field(Some(Name(a)), None), Field(Some(Name(b)), Some(Name(t)))];
    var n := Bare().(tag := Some(RecordType), fields := FieldsOf(fs));
    KeyAndKeyValue(cfg, a, b, t);
    var parts := [a, b + ": " + t];
    assert parts[1..] == [b + ": " + t];
    JoinOfOne(b + ": " + t, ", ");
    assert Join(parts, ", ") == a + ", " + (b + ": " + t);
    assert RecordFields(cfg, n.fields) == parts;
    PlainRender(cfg, n);
  }

  /** A one-entry link table without a link class: the listed name becomes an
      anchor and any other name is left as it is, as with `goog.ui.Menu` mapped to
      `MyClass.html` and `Foo`. */
  lemma {:induction false} LinkDecoration(cfg: Config, name: string, href: string, other: string)
    requires cfg.links == Some(map[name := href]) && cfg.linkClass == "" && !cfg.ignoreModifiers
    requires name != "" && href != "" && other != "" && other != name
    ensures Render(cfg, Name(name)) == "<a href=\"" + href + "\"" + "" + ">" + name + "</a>"
    ensures Render(cfg, Name(other)) == other
  {
    assert GetHrefForString(cfg, "") == "";
    assert GetHrefForString(cfg, other) == "";
    assert GetHrefForString(cfg, name) == href;
    NameRender(cfg, name);
    NameRender(cfg, other);
    assert ClassAttribute(cfg) == "";
  }

  /** With a link class (given as `linkClass`, or as the deprecated `cssClass`; see
      `Normalize`), the anchor carries it. */
  lemma {:induction false} LinkWithClass(cfg: Config, name: string, href: string)
    requires cfg.links == Some(map[name := href]) && cfg.linkClass != "" && !cfg.ignoreModifiers
    requires name != "" && href != ""
    ensures Render(cfg, Name(name))
         == "<a href=\"" + href + "\"" + (" class=\"" + cfg.linkClass + "\"") + ">" + name + "</a>"
  {
    assert GetHrefForString(cfg, "") == "";
    assert GetHrefForString(cfg, name) == href;
    NameRender(cfg, name);
  }

  /** Empty arrays are present: an empty union renders `()` and an application with
      no arguments renders `Array<>`; a union without elements renders nothing. */
  lemma {:induction false} EmptyArrays(cfg: Config, base: string)
    requires Plain(cfg) && !cfg.htmlSafe && base != ""
    ensures Render(cfg, Bare().(tag := Some(TypeUnion), elements := Present([]))) == "()"
    ensures Render(cfg, Bare().(tag := Some(TypeUnion))) == ""
    ensures Render(cfg, Apply(base, [])) == base + "<>"
  {
    NameWithoutLinks(cfg, base);
    PlainRender(cfg, Bare().(tag := Some(TypeUnion), elements := Present([])));
    PlainRender(cfg, Bare().(tag := Some(TypeUnion)));
    PlainRender(cfg, Apply(base, []));
    assert Join([], "|") == "" && Join([], ", ") == "";
  }

  /** The anchor around the empty name when the empty string is a link key and no
      class is configured. */
  lemma EmptyAnchor(cfg: Config, href: string)
    requires GetHrefForString(cfg, "") == href && href != "" && cfg.linkClass == ""
    ensures AddLinks(cfg, "") == "<a href=\"" + href + "\"></a>"
  {
    var open := "<a href=\"" + href + "\"";
    assert AddLinks(cfg, "") == open + "" + ">" + "" + "</a>";
    assert open + "" + ">" + "" + "</a>" == open + "></a>";
  }

  /** A link for the empty string shows through the payload of every tagged leaf:
      a name `x` renders as `x:<a href="h"></a>`. */
  lemma {:induction false} EmptyKeyLink(cfg: Config, x: string, href: string)
    requires cfg.links == Some(map["" := href]) && cfg.linkClass == "" && !cfg.ignoreModifiers
    requires x != "" && href != ""
    ensures Render(cfg, Name(x)) == x + ":" + ("<a href=\"" + href + "\"></a>")
  {
    assert GetHrefForString(cfg, "") == href;
    assert GetHrefForString(cfg, x) == "";
    EmptyAnchor(cfg, href);
    assert TagPayload(cfg) == "<a href=\"" + href + "\"></a>";
    PayloadQuirk(cfg, Name(x), "");
    PlainRender(cfg, Name(x));
  }
}
