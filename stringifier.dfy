/**
  The `Stringifier` class of lib/stringify.js with its methods as the source writes
  them: the indexed loops that push into a local array and join it, the fixed
  three-step loop of the signature, and the recursive dispatch. Each method is
  proved to compute the corresponding rendering rule of module Stringify.
 */
module StringifierClass {
  import opened Wrappers
  import opened TypeTree
  import opened Strings
  import S = Stringify

  class Stringifier {
    /** The normalised options (`this._options`). */
    const options: S.Config

    /** `new Stringifier(options)`. */
    constructor(opts: Option<S.Options>)
      ensures options == S.Normalize(opts)
    {
      options := S.Normalize(opts);
    }

    /** `stringify`. */
    method Stringify(t: Option<Node>) returns (s: string)
      ensures s == S.Type(options, t)
    {
      s := Type(t);
    }

    /** `type`: the empty string for an absent node. */
    method Type(t: Option<Node>) returns (s: string)
      ensures s == S.Type(options, t)
      decreases t, 0
    {
      s := "";
      if t.None? {
        return;
      }
      s := Render(t.value);
    }

    /** `type` on a present node: the switch, then the modifiers. */
    method Render(n: Node) returns (s: string)
      ensures s == S.Render(options, n)
      decreases n, 3
    {
      var typeString := "";
      match n.tag {
        case Some(AllLiteral) =>
          typeString := S.FormatNameAndType(options, n, "*");
        case Some(FunctionType) =>
          typeString := Signature(n);
        case Some(NullLiteral) =>
          typeString := S.FormatNameAndType(options, n, "null");
        case Some(RecordType) =>
          typeString := Record(n);
        case Some(TypeApplication) =>
          var base := Type(n.expression);
          var apps := Applications(n.applications);
          typeString := base + apps;
        case Some(UndefinedLiteral) =>
          typeString := S.FormatNameAndType(options, n, "undefined");
        case Some(TypeUnion) =>
          typeString := Elements(n.elements);
        case Some(UnknownLiteral) =>
          typeString := S.FormatNameAndType(options, n, "?");
        case _ =>
          typeString := S.FormatNameAndType(options, n, "");
      }
      assert typeString == S.Body(options, n);
      if !options.ignoreModifiers {
        typeString := S.AddModifiers(n, typeString);
      }
      s := typeString;
    }

    /** The renderings of `ns`, one per node in order (the `map` of `applications`
        and the push loops of `elements` and `params`). */
    method RenderEach(ns: seq<Node>, ghost l: NodeList) returns (strings: seq<string>)
      requires l == Present(ns)
      ensures strings == S.RenderAll(options, ns)
      decreases l, 0
    {
      ghost var all := S.RenderAll(options, ns);
      strings := [];
      for i := 0 to |ns|
        invariant strings == all[..i]
      {
        var x := Render(ns[i]);
        PrefixStep(all, i);
        strings := strings + [x];
      }
      assert all[..|ns|] == all;
    }

    /** `applications`. */
    method Applications(l: NodeList) returns (s: string)
      ensures s == S.Applications(options, l)
      decreases l, 1
    {
      if l.Absent? {
        return "";
      }
      var strings := RenderEach(l.items, l);
      var inner := Join(strings, ", ");
      var bracket := if options.htmlSafe then "&lt;" else "<";
      s := bracket + inner + ">";
    }

    /** `elements`. */
    method Elements(l: NodeList) returns (result: string)
      ensures result == S.Elements(options, l)
      decreases l, 1
    {
      result := "";
      if l.Absent? {
        return;
      }
      var strings := RenderEach(l.items, l);
      result := "(" + Join(strings, "|") + ")";
    }

    /** `key`. */
    method Key(t: Option<Node>) returns (s: string)
      ensures s == S.Key(options, t)
      decreases t, 1
    {
      s := Type(t);
    }

    /** `new`. */
    method New(t: Option<Node>) returns (s: string)
      ensures s == S.New(options, t)
      decreases t, 1
    {
      s := "";
      if t.Some? {
        var inner := Render(t.value);
        s := "new:" + inner;
      }
    }

    /** `this`. */
    method This(t: Option<Node>) returns (s: string)
      ensures s == S.This(options, t)
      decreases t, 1
    {
      s := "";
      if t.Some? {
        var inner := Render(t.value);
        s := "this:" + inner;
      }
    }

    /** `params`. */
    method Params(l: NodeList) returns (result: string)
      ensures result == S.Params(options, l)
      decreases l, 1
    {
      result := "";
      if l.Absent? || |l.items| == 0 {
        return;
      }
      var strings := RenderEach(l.items, l);
      result := Join(strings, ", ");
    }

    /** `result`. */
    method Result(t: Option<Node>) returns (s: string)
      ensures s == S.Result(options, t)
      decreases t, 1
    {
      s := "";
      if t.Some? {
        var inner := Render(t.value);
        s := ": " + inner;
      }
    }

    /** `_recordFields`: one `key` or `key: value` string per field, in order. */
    method RecordFields(l: FieldList) returns (result: seq<string>)
      ensures result == S.RecordFields(options, l)
      decreases l
    {
      result := [];
      if l.NoFields? {
        return;
      }
      var fields := l.items;
      ghost var all := S.RenderFields(options, fields);
      for i := 0 to |fields|
        invariant result == all[..i]
      {
        var field := fields[i];
        assert field in fields;
        var keyAndValue := Key(field.key);
        var suffix := "";
        if field.value.Some? {
          var value := Render(field.value.value);
          suffix := ": " + value;
        }
        assert suffix == S.ValueSuffix(options, field.value);
        keyAndValue := keyAndValue + suffix;
        assert keyAndValue == S.RenderField(options, field) == all[i];
        PrefixStep(all, i);
        result := result + [keyAndValue];
      }
      assert all[..|fields|] == all;
    }

    /** `_record`. */
    method Record(n: Node) returns (s: string)
      ensures s == S.Record(options, n)
      decreases n, 1
    {
      var fields := RecordFields(n.fields);
      s := "{" + Join(fields, ", ") + "}";
    }

    /** `_signature`: the `new`, `this` and `params` strings, in that order, each
        kept only when it is not empty. */
    method Signature(n: Node) returns (signature: string)
      ensures signature == S.Signature(options, n)
      decreases n, 1
    {
      ghost var props := S.SignatureProps(options, n);
      var params: seq<string> := [];
      for i := 0 to 3
        invariant params == NonEmpty(props[..i])
      {
        var param;
        if i == 0 {
          param := New(n.funcNew);
        } else if i == 1 {
          param := This(n.funcThis);
        } else {
          param := Params(n.params);
        }
        assert param == props[i];
        assert props[..i + 1] == props[..i] + [param];
        NonEmptyAppend(props[..i], [param]);
        NonEmptySingle(param);
        if |param| > 0 {
          params := params + [param];
        }
      }
      assert props[..3] == props;
      signature := "function(" + Join(params, ", ") + ")";
      var result := Result(n.result);
      signature := signature + result;
    }
  }
}
