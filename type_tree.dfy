/**
  The parsed type-expression tree that the stringifier reads (the `CatharsisType`
  objects of lib/stringify.js). A JavaScript node is an object on which any of the
  properties below may be present or absent, whatever its tag; the model keeps that
  shape: one record with every property optional.
 */
module TypeTree {
  import opened Wrappers

  /** The tags the renderer's switch distinguishes. The constants come from a module
      that is not part of this model; they are taken to be truthy and pairwise
      distinct. `Other` is any other truthy tag (a name expression, a field type, a
      tag from a newer grammar): all of them take the default branch. */
  datatype Tag =
    | AllLiteral
    | FunctionType
    | NullLiteral
    | RecordType
    | TypeApplication
    | UndefinedLiteral
    | TypeUnion
    | UnknownLiteral
    | Other

  /** An array-valued property (`applications`, `elements`, `params`): absent, or an
      array, possibly empty. An empty array is truthy in JavaScript, so `Present([])`
      is distinct from `Absent`. */
  datatype NodeList = Absent | Present(items: seq<Node>)

  /** The `fields` property of a record node. */
  datatype FieldList = NoFields | FieldsOf(items: seq<Field>)

  /** One record field: its `key` node and its optional `value` node. */
  datatype Field = Field(key: Option<Node>, value: Option<Node>)

  /** A node. `tag` is the `type` property (absent when the object has none);
      `funcNew` and `funcThis` are the `new` and `this` properties of a function type. */
  datatype Node = Node(
    tag: Option<Tag>,
    name: Option<string>,
    expression: Option<Node>,
    applications: NodeList,
    elements: NodeList,
    fields: FieldList,
    funcNew: Option<Node>,
    funcThis: Option<Node>,
    params: NodeList,
    result: Option<Node>,
    nullable: Option<bool>,
    optional: Option<bool>,
    repeatable: Option<bool>)

  /** An object with none of the properties above. */
  function Bare(): Node {
    Node(None, None, None, Absent, Absent, NoFields, None, None, Absent, None, None, None, None)
  }

  /** A node with the given tag and name and nothing else. */
  function Leaf(tag: Tag, name: string): Node {
    Bare().(tag := Some(tag), name := Some(name))
  }

  /** A name expression (a tag the switch does not list) such as `string` or `goog.ui.Menu`. */
  function Name(name: string): Node {
    Leaf(Other, name)
  }
}
