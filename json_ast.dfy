/**
 * The location-annotated syntax tree that the `json-to-ast` parser returns
 * (src/util/json-to-ast.ts). The TypeScript `type` discriminant becomes the
 * constructor of `Node`; both `children` arrays become `properties` (of an
 * Object) and `elements` (of an Array), because one Dafny destructor name
 * cannot carry two types.
 */
module JsonAst {
  import opened Wrappers

  /** A point in the source text: line, column and character offset as the parser reports them. */
  datatype JsonPosition = JsonPosition(line: int, column: int, offset: int)

  /** The span of a node: start and end positions and the optional source name. */
  datatype JsonLocation = JsonLocation(start: JsonPosition, end: JsonPosition, source: Option<string>)

  /** The scalar carried by a Literal: a string, a number, a boolean or null. */
  datatype LiteralValue =
    | StringValue(str: string)
    | NumberValue(num: real)
    | BooleanValue(boolean: bool)
    | NullValue

  /**
   * A value node. Only Object, Array and Literal are values, so a document,
   * a property's value and an array element can never be a bare Property or
   * Identifier.
   */
  datatype Node =
    | Object(properties: seq<Property>, loc: Option<JsonLocation>)
    | Array(elements: seq<Node>, loc: Option<JsonLocation>)
    | Literal(value: LiteralValue, raw: string, loc: Option<JsonLocation>)

  /** A key/value pair of an Object. */
  datatype Property = Property(key: Identifier, value: Node, loc: Option<JsonLocation>)

  /** A property key: its unescaped text and its raw source text. */
  datatype Identifier = Identifier(value: string, raw: string, loc: Option<JsonLocation>)

  /** What the parser returns for a whole text. */
  type JsonDocument = Node

  /** The `type` tag of a value node, as the link provider compares it. */
  function TypeTag(n: Node): (tag: string)
    ensures tag == "Object" <==> n.Object?
    ensures tag == "Array" <==> n.Array?
    ensures tag == "Literal" <==> n.Literal?
    ensures tag != "Property" && tag != "Identifier"
  {
    match n
    case Object(_, _) => "Object"
    case Array(_, _) => "Array"
    case Literal(_, _, _) => "Literal"
  }

  /** The outcome of the third-party parser: a tree, or an exception it threw on malformed text. */
  datatype ParseOutcome = Parsed(document: JsonDocument) | ParserThrew
}
