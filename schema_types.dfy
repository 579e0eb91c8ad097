/**
 * What the custom recognizers of the schema generator see and produce: a
 * TypeScript syntax node (its kind and its source text) and the type objects of
 * the schema generator, identified by their class.
 */
module SchemaTypes {
  /** `ts.SyntaxKind`: only type references matter to the recognizers. */
  datatype SyntaxKind = TypeReference | OtherKind(code: nat)

  /** A syntax node: `node.kind` and `node.getText()`. */
  datatype Node = Node(kind: SyntaxKind, text: string)

  /** A `BaseType` of the schema generator, by class: the two custom ones and every other. */
  datatype BaseType = BufferType | UrlType | OtherType(id: string)

  /** `getId()`: the custom types answer with fixed ids. */
  function TypeId(t: BaseType): (r: string)
    ensures t.BufferType? ==> r == "buffer"
    ensures t.UrlType? ==> r == "url"
  {
    match t
    case BufferType => "buffer"
    case UrlType => "url"
    case OtherType(id) => id
  }

  /** The two custom types have distinct ids, so the generator never confuses them. */
  lemma CustomIdsDistinct()
    ensures TypeId(BufferType) != TypeId(UrlType)
  {
  }
}
