# Catharsis type stringifier in Dafny

This project models the stringifier of catharsis, which lives in `lib/stringify.js`.
The stringifier turns a parsed Closure Compiler / JSDoc type expression back into
text:

- unions become `(A|B)`;
- records become `{a, b: T}`;
- type applications become `Array<T>`, or `Array&lt;T>` in HTML-safe mode;
- function types become `function(new:A, this:B, p, q): R`;
- literals become `*`, `null`, `undefined` and `?`;
- names may become `<a href>` links taken from a lookup table;
- the modifiers `...`, `?`, `!` and `=` are added unless switched off.

The model has seven modules.

- `Wrappers` (`wrappers.dfy`) holds `Option`.
- `TypeTree` (`type_tree.dfy`) holds the tree.
  - A node is one record in which every property may be absent.
  - Tags are a closed enumeration with an `Other` arm for tags the switch does not list.
  - Array properties are `Absent` or `Present(items)`, so an empty array stays distinct from a missing one.
  - `nullable`, `optional` and `repeatable` are `Option<bool>`, which keeps the three-valued flags.
- `Strings` (`strings.dfy`) holds `Array.prototype.join` and the non-empty filter of the signature loop, with their laws.
- `Stringify` (`stringify.dfy`) has a function for every method of `Stringifier` except the unused `name`, plus helpers for their parts.
  - It reads the configuration that the constructor normalises.
  - `Type`, `Render` and `Body` are the recursive `type` dispatch, and they terminate on every tree.
- `StringifierClass` (`stringifier.dfy`) is the `Stringifier` class itself.
  - Its methods are written as the source writes them: the indexed loops that push into local arrays, the three-step signature loop and the recursive dispatch.
  - Each method is proved to compute the function of `Stringify` that specifies it.
- `StringifyProperties` (`properties.dfy`) and `StringifyScenarios` (`scenarios.dfy`) hold what the rules guarantee, over all trees and configurations and for concrete shapes of tree.

Three behaviours of the code are worth naming:

- A union whose `elements` array is present but empty renders `()`, not `""`. An empty array is truthy, and only a missing array gives `""`.
- In HTML-safe mode only the opening angle bracket of a type application is escaped (`&lt;`). The closing one is always a literal `>`.
- A leaf's `type` property is its tag. So the payload `this.type(type.type)` in `_formatNameAndType` renders a string with no properties, not a sub-tree.
  - That payload is the link lookup of the empty name, `TagPayload`.
  - It is empty unless the link table maps `""` to a non-empty target.
  - So when `type` holds a tag string, a named parameter cannot render as `foo:goog.ui.Menu`. `TwoParameters`, `ThisAndParameter` and `AllRolesAndResult` are therefore stated with unnamed parameters.

## Model

| member | source | states |
|---|---|---|
| `Stringify.Normalize` | lib/stringify.js:27-30 | Missing options behave as `{}`. The link class is `linkClass` when truthy, else `cssClass` when truthy, else none, and it is empty exactly when neither is truthy. The other options are kept as given. |
| `StringifierClass.Stringifier.constructor` | lib/stringify.js:27-30 | The object's options are the normalised configuration of the options passed in. |
| `Stringify.CombineNameAndType` | lib/stringify.js:5-9 | An empty side leaves the other side unchanged. Two non-empty sides are joined by one `:`. The length is the sum of both lengths plus one exactly when the colon appears. |
| `Stringify.Nullable` | lib/stringify.js:76-85 | `?` exactly for `true`, `!` exactly for `false`, and nothing exactly when the flag is absent: the three states give three different strings. |
| `Stringify.Optional` | lib/stringify.js:92-98 | `=` exactly when the flag is `true`, otherwise nothing. |
| `Stringify.Repeatable` | lib/stringify.js:233-237 | `...` exactly when the flag is truthy, otherwise nothing. |
| `Stringify.AddModifiers` | lib/stringify.js:229-243 | The result is the repeatable prefix, then the nullable symbol, then the unchanged body, then the optional suffix. Passing the body through `combineNameAndType` with an empty name changes nothing. |
| `Stringify.GetHrefForString` | lib/stringify.js:274-290 | A non-empty target comes only from an exact-key entry of the table. An entry's value is returned exactly. No table, or no entry for the key, gives the empty string. |
| `Stringify.ClassAttribute` | lib/stringify.js:252-257 | The ` class="…"` attribute is empty exactly when no link class is configured. When one is, it is ` class="` + the class + `"`. |
| `Stringify.AddLinks` | lib/stringify.js:249-263 | The name is returned unchanged exactly when the lookup gives no truthy target. Otherwise it is `<a href="h"` plus the class attribute, then `>name</a>`. |
| `Stringify.TagPayload` | lib/stringify.js:267 | The payload of a tagged leaf is empty exactly when the empty string has no link target. |
| `Stringify.FormatNameAndType` | lib/stringify.js:265-272 | Suppose the node has no tag, or the empty string has no link. Then the result is the link-decorated resolved name, and it is the bare resolved name when that name has no link either. |
| `Stringify.RenderAll` | lib/stringify.js:40-41 | Mapping `type` over an array gives one rendering per node, at the same position. |
| `Stringify.RenderFields` | lib/stringify.js:210-217 | One string per field, at the same position, each the field's rendering. |
| `Strings.NonEmpty` | lib/stringify.js:305-311 | The filter of the signature loop. It keeps no empty string and is never longer than its input. It keeps everything when every entry is non-empty and nothing when every entry is empty. |
| `Strings.NonEmptyAppend` | lib/stringify.js:305-311 | Filtering the concatenation of two arrays gives the concatenation of the filtered arrays, so the loop's step-by-step pushes build the filter of the whole array. |
| `Strings.JoinAround` | lib/stringify.js:59 | In a joined array, every part stands between the joined parts before it and after it, with exactly one separator on each side that has neighbours. Joining preserves order and adds nothing else. |
| `Strings.JoinConcat` | lib/stringify.js:313 | Joining two non-empty arrays one after the other puts exactly one separator between their joined strings. |
| `Strings.JoinLength` | lib/stringify.js:112 | A joined string is as long as its parts plus one separator between each pair of neighbours. |
| `Strings.JoinEmpty` | lib/stringify.js:112 | With a non-empty separator, a joined string is empty exactly when there are no parts or a single empty part. |
| `StringifyProperties.LeafRendering` | lib/stringify.js:148-175 | Holds for the four literal tags, any tag the switch does not list, and a missing tag, when no link applies. The body is the name when the name is truthy, else the tag's literal (`*`, `null`, `undefined`, `?` or empty), and the rendering adds only the modifiers. |
| `StringifyProperties.ModifierLayout` | lib/stringify.js:177-180 | With modifiers honoured, every node renders as the repeatable prefix, the nullable symbol, its body and the optional suffix, in that order. |
| `StringifyProperties.ModifierOrderExample` | lib/stringify.js:229-243 | A repeatable, optional name `x` renders `...?x=` when nullable and `...!x=` when non-nullable. |
| `StringifyProperties.IgnoreModifiersAtAnyDepth` | lib/stringify.js:177-180 | With `_ignoreModifiers` set, every tree renders exactly as it would with every modifier flag removed at every depth and modifiers honoured. No modifier appears anywhere. |
| `StringifyProperties.UnionMembersInOrder` | lib/stringify.js:47-62 | A union renders `""` without `elements` and `()` with an empty array. Otherwise every member's rendering appears in parentheses, in the original order, between the members before and after it, separated by a vertical bar. |
| `StringifyProperties.RecordFieldsInOrder` | lib/stringify.js:190-194 | A record renders `{}` without fields or with an empty array. Otherwise every field's rendering appears in braces, in the original order, separated by `, `. |
| `StringifyProperties.FieldRendering` | lib/stringify.js:213-214 | A field without a value is its rendered key alone. A field with a value is the key, then `: `, then the rendered value. |
| `StringifyProperties.ApplicationArgumentsInOrder` | lib/stringify.js:36-45 | An application renders its base. When `applications` is present, the base is followed by `&lt;` (HTML-safe) or `<`, the arguments in order separated by `, `, and always a literal `>`. Without `applications` the rendering is the base alone; with an empty array, base + `<>` (`&lt;>`). |
| `StringifyProperties.SignatureRoles` | lib/stringify.js:292-317 | Inside the parentheses appear the `new:` role if present, the `this:` role if present, and the parameters if they render to something, in that order and separated by `, `, with no placeholder for a missing role. `: R` follows exactly when there is a result. |
| `StringifyProperties.SignatureThisOnly` | lib/stringify.js:133-135 | A function with only a `this` role and a result renders `function(this:B): R`. |
| `StringifyProperties.SignatureAllRoles` | lib/stringify.js:299-313 | A function with `new`, `this` and non-empty parameters renders `function(new:A, this:B, P)` followed by its result. |
| `StringifyProperties.ParamsEmpty` | lib/stringify.js:100-115 | The parameter string is empty exactly when the array is missing, is empty, or holds a single parameter that renders to `""`. Two or more parameters always leave a separator. |
| `StringifyProperties.ParamsInOrder` | lib/stringify.js:100-115 | Every parameter's rendering appears in the parameter string, in the original order, between the joined renderings before and after it, separated by `, `. |
| `StringifyProperties.PayloadQuirk` | lib/stringify.js:265-272 | For a tagged leaf, the rendering is the link-decorated name when the empty string has no link. When it has one, the rendering is that name, `:`, and the anchor of the empty name, even when the name is empty and is itself that anchor. |
| `StringifyProperties.TagPayloadIsRenderingOfBare` | lib/stringify.js:141-183 | Rendering an object with no properties, as the tag string is seen by `type`, gives exactly the payload. |
| `StringifyScenarios.TwoParameters` | lib/stringify.js:100-115 | Two unnamed parameters `a`, `b` render `function(a, b)`, for example `function(string, boolean)`. |
| `StringifyScenarios.NoParametersWithResult` | lib/stringify.js:117-119 | No parameters and a result `r` render `function(): r`, for example `function(): number`. |
| `StringifyScenarios.ThisAndParameter` | lib/stringify.js:292-317 | A `this` role `t` and a parameter `a` render `function(this:t, a)`, for example `function(this:goog.ui.Menu, string)`. |
| `StringifyScenarios.AllRolesAndResult` | lib/stringify.js:299-314 | `new`, `this`, a name, an application and a repeatable name as parameters, plus a result, render as in `function(new:Master, this:Everyone, string, Array<Object>, ...string): boolean`. |
| `StringifyScenarios.RepeatableName` | lib/stringify.js:235-237 | A repeatable name `x` renders `...x`. |
| `StringifyScenarios.HtmlSafeBracket` | lib/stringify.js:43-44 | The same one-argument application renders `Array<string>` normally and `Array&lt;string>` in HTML-safe mode. |
| `StringifyScenarios.RecordRoundTrip` | lib/stringify.js:190-220 | `{a, b: t}` renders back to `{a, b: t}`, for example `{a, b: number}`. |
| `StringifyScenarios.LinkDecoration` | lib/stringify.js:249-263 | With a one-entry table such as `goog.ui.Menu` → `MyClass.html`, the listed name renders `<a href="MyClass.html">goog.ui.Menu</a>` and any other name, such as `Foo`, renders unchanged. |
| `StringifyScenarios.LinkWithClass` | lib/stringify.js:252-259 | With a link class configured, the anchor carries ` class="c"` between the `href` and the `>`. |
| `StringifyScenarios.EmptyArrays` | lib/stringify.js:36-62 | An empty union renders `()`, a union without elements renders `""`, and an application with an empty argument array renders `Array<>`. |
| `StringifyScenarios.EmptyKeyLink` | lib/stringify.js:265-272 | When the table maps the empty string to `h`, a name `x` renders `x:<a href="h"></a>`. |
| `StringifierClass.Stringifier.Stringify` | lib/stringify.js:125-127 | `stringify` returns the rendering of its argument. |
| `StringifierClass.Stringifier.Type` | lib/stringify.js:141-146 | An absent node gives `""`, and a present node gives its rendering. |
| `StringifierClass.Stringifier.Render` | lib/stringify.js:148-182 | The switch, then the modifiers unless they are switched off, computes the rendering of the node. |
| `StringifierClass.Stringifier.RenderEach` | lib/stringify.js:55-57 | The push loop builds, in order, one rendering per node of the array. |
| `StringifierClass.Stringifier.Applications` | lib/stringify.js:36-45 | Computes the application suffix: nothing, or the bracket, the joined arguments and `>`. |
| `StringifierClass.Stringifier.Elements` | lib/stringify.js:47-62 | Computes the union body: nothing, or the members joined by vertical bars in parentheses. |
| `StringifierClass.Stringifier.Key` | lib/stringify.js:64-66 | A record key renders as a type. |
| `StringifierClass.Stringifier.New` | lib/stringify.js:72-74 | Computes `new:` and the rendering, or nothing when the role is absent. |
| `StringifierClass.Stringifier.This` | lib/stringify.js:133-135 | Computes `this:` and the rendering, or nothing when the role is absent. |
| `StringifierClass.Stringifier.Params` | lib/stringify.js:100-115 | Computes the parameters joined by `, `, or nothing for a missing or empty array. |
| `StringifierClass.Stringifier.Result` | lib/stringify.js:117-119 | Computes `: ` and the rendering, or nothing when there is no result. |
| `StringifierClass.Stringifier.RecordFields` | lib/stringify.js:200-220 | The loop builds, in order, one `key` or `key: value` string per field, and nothing without fields. |
| `StringifierClass.Stringifier.Record` | lib/stringify.js:190-194 | Computes the record's rendering: the fields joined by `, ` in braces. |
| `StringifierClass.Stringifier.Signature` | lib/stringify.js:292-317 | The three-step loop keeps exactly the non-empty role strings, in order, and the result follows the parentheses. |

## Left out

- A `type` property that holds a node object is not modelled. The code renders such a node after a colon: `{name: 'foo', type: {type: 'NameExpression', name: 'goog.ui.Menu'}}` renders `foo:goog.ui.Menu`. The model's `tag: Option<Tag>` holds only a tag, so it cannot express that tree.
- The `./types` module is not part of this model. Its tag constants are taken to be truthy and pairwise distinct. Any other tag, including one from a newer grammar, is the `Other` arm, which takes the default branch.
- The stringifier keeps the caller's options object itself (lib/stringify.js:28), writes the normalised `linkClass` into it (line 29) and reads it back in `_addLinks` (line 252). `Normalize` gives exactly the value read back. The model leaves out that the write is visible to the caller, and that a caller who changes its options after construction changes later renderings. The write is visible to every caller, including a caller of the exported function (lib/stringify.js:320). The options object it passed gains `linkClass`, so reusing that object keeps the first class even after `cssClass` changes. Only the second effect cannot be observed through the exported function, which builds a fresh stringifier for every call.
- `this[prop](type[prop])` in the signature loop is modelled as the three fixed calls to `new`, `this` and `params` that it makes.
- A `Map` table and a plain-object table are both given as the one map of entries a lookup can find. For an object these are its own properties, and inherited properties are never found.
- Other value types are not modelled. Link targets are strings, and a target is truthy exactly when it is non-empty. Names are strings, and the flags are booleans. Non-string targets and names, and truthy flags that are not `true`, are not modelled.
- Arrays whose entries are `null` or `undefined` are not modelled: every array entry is a node. Cyclic objects are not modelled either: the model covers trees.
- The unused `name` method (lib/stringify.js:68-70) is not modelled, because nothing calls it. The `module.exports` wrapper (lib/stringify.js:320) is not modelled either: it only builds a fresh stringifier and calls `stringify`, and the constructor and `Stringify` cover that.
- No HTML escaping of names or link targets is specified, because the code does none.
- The test fixture test/specs/function-type.js is not part of this model. It describes a different tree shape and an older notation, which this stringifier does not emit.
