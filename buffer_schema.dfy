/**
 * The typed-array recognizer of src/schema/buffer.ts: a parser that claims a
 * type reference to one of six typed-array names, and a formatter that writes
 * the type it creates as a base64 string.
 */
module BufferSchema {
  import opened Js
  import opened SchemaTypes

  /** `NAMES`. */
  const Names: seq<string> := ["Uint8Array", "Int8Array", "Uint16Array", "Int16Array", "Uint32Array", "Int32Array"]

  /** `BufferParser.supportsNode`: a type reference whose text is one of the six names. */
  function SupportsNode(node: Node): (r: bool)
    ensures r <==> (node.kind == TypeReference &&
      (node.text == "Uint8Array" || node.text == "Int8Array" || node.text == "Uint16Array" ||
       node.text == "Int16Array" || node.text == "Uint32Array" || node.text == "Int32Array"))
  {
    node.kind == TypeReference && node.text in Names
  }

  /** `BufferParser.createType`: a new `BufferType`, whatever the node, the context and the reference. */
  function CreateType<C, R>(node: Node, context: C, reference: Option<R>): (r: BaseType)
    ensures r.BufferType? && TypeId(r) == "buffer"
  {
    BufferType
  }

  /** `BufferFormatter.supportsType`: `instanceof BufferType`. */
  function SupportsType(t: BaseType): (r: bool)
    ensures r <==> TypeId(t) == "buffer" && !t.OtherType?
  {
    t.BufferType?
  }

  /** `BufferFormatter.getDefinition`: a string in base64 content encoding. */
  function Definition(t: BaseType): (r: Json)
    ensures r.JObj? && |r.members| == 2
    ensures MemberValue(r.members, "type") == Defined(JStr("string"))
    ensures MemberValue(r.members, "contentEncoding") == Defined(JStr("base64"))
  {
    JObj([Member("type", JStr("string")), Member("contentEncoding", JStr("base64"))])
  }

  /** `BufferFormatter.getChildren`: a buffer has no child types. */
  function Children(t: BaseType): (r: seq<BaseType>)
    ensures |r| == 0
  {
    []
  }

  /** Names outside the list are not claimed, however close they are to it. */
  lemma OtherNamesRejected()
    ensures !SupportsNode(Node(TypeReference, "Float32Array"))
    ensures !SupportsNode(Node(TypeReference, "Float64Array"))
    ensures !SupportsNode(Node(TypeReference, "Uint8ClampedArray"))
    ensures !SupportsNode(Node(TypeReference, "Buffer"))
    ensures !SupportsNode(Node(TypeReference, "uint8array"))
  {
  }

  /** A node of another kind is never claimed, even with a listed name as its text. */
  lemma OnlyTypeReferences(node: Node)
    requires node.kind != TypeReference
    ensures !SupportsNode(node)
  {
  }

  /**
   * Parser and formatter fit together: the formatter accepts every type the
   * parser creates, and writes it as a base64 string with no children.
   */
  lemma {:induction false} CreatedTypesFormatted<C, R>(node: Node, context: C, reference: Option<R>)
    requires SupportsNode(node)
    ensures SupportsType(CreateType(node, context, reference))
    ensures Children(CreateType(node, context, reference)) == []
    ensures MemberValue(Definition(CreateType(node, context, reference)).members, "contentEncoding") == Defined(JStr("base64"))
  {
  }
}
