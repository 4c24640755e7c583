/**
 * The parsed API Blueprint document the generator consumes (the `ast` output
 * of the drafter parser), and the foreign helpers it calls.
 */
module Ast {
  import opened Wrappers

  /** A node's `name`: absent, a plain string, or an object whose `literal` is the name. */
  datatype NameRef = NoName | Text(text: string) | Reference(literal: Option<string>)

  /** A data-structure node's `meta`; the empty string stands for a missing entry. */
  datatype Meta = Meta(id: string, description: string)

  /**
   * A node's `content`: null/undefined, a scalar, the `{key, value}` object of a
   * `member` element (the key node reduced to its text), or an array of nodes.
   */
  datatype Content =
    | Null
    | Scalar(text: string)
    | Pair(key: string, value: Node)
    | Children(nodes: seq<Node>)

  datatype Node = Node(element: string, name: NameRef, meta: Meta, content: Content)

  /** One request or response of an example: its name (the status code of a response) and content. */
  datatype Payload = Payload(name: string, content: seq<Node>)

  /** One example block of an action. */
  datatype Example = Example(requests: seq<Payload>, responses: seq<Payload>)

  /** Which half of an example block is inspected. */
  datatype PayloadKind = Requests | Responses

  function Payloads(e: Example, kind: PayloadKind): seq<Payload> {
    match kind
    case Requests => e.requests
    case Responses => e.responses
  }

  /**
   * The npm `pascal-case` and `camel-case` packages and the global `parseInt`
   * (None for NaN): code outside the model, taken as given functions.
   */
  datatype Foreign = Foreign(
    pascalCase: string -> string,
    camelCase: string -> string,
    parseInt: string -> Option<int>)
}

/** What the generator reports on the console, as an appended log. */
module Report {
  datatype Warning =
      /** An example's payload type differs from the one found first (example number is 1-based). */
    | ExampleTypeMismatch(exampleNumber: nat, expected: string, actual: string)
      /** No response type was found; `Object` is used. */
    | DefaultResponseType
      /** More than one 2xx status; no annotation is added. */
    | MultipleSuccessStatuses(first: int)
      /** The only 2xx status has no Spring constant. */
    | UnknownStatusCode(code: int)
      /** A data structure without `meta.id`. */
    | MissingModelName
      /** A modifier's parameter definition without `name` or `type`. */
    | MissingParameterField
}
