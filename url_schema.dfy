/**
 * The URL recognizer of src/schema/url.ts: a parser that claims a type reference
 * written exactly `URL`, and a formatter that writes the type it creates as a
 * string in `uri` format.
 */
module UrlSchema {
  import opened Js
  import opened SchemaTypes

  /** `UrlParser.supportsNode`: a type reference whose text is exactly `URL`. */
  function SupportsNode(node: Node): (r: bool)
    ensures r ==> |node.text| == 3 && node.text[0] == 'U' && node.text[1] == 'R' && node.text[2] == 'L'
    ensures node.kind == TypeReference && node.text == "URL" ==> r
    ensures r ==> node.kind == TypeReference
  {
    node.kind == TypeReference && node.text == "URL"
  }

  /** `UrlParser.createType`: a new `UrlType`, whatever the node, the context and the reference. */
  function CreateType<C, R>(node: Node, context: C, reference: Option<R>): (r: BaseType)
    ensures r.UrlType? && TypeId(r) == "url"
  {
    UrlType
  }

  /** `UrlFormatter.supportsType`: `instanceof UrlType`. */
  function SupportsType(t: BaseType): (r: bool)
    ensures r <==> TypeId(t) == "url" && !t.OtherType?
  {
    t.UrlType?
  }

  /** `UrlFormatter.getDefinition`: a string in `uri` format. */
  function Definition(t: BaseType): (r: Json)
    ensures r.JObj? && |r.members| == 2
    ensures MemberValue(r.members, "type") == Defined(JStr("string"))
    ensures MemberValue(r.members, "format") == Defined(JStr("uri"))
  {
    JObj([Member("type", JStr("string")), Member("format", JStr("uri"))])
  }

  /** `UrlFormatter.getChildren`: a URL has no child types. */
  function Children(t: BaseType): (r: seq<BaseType>)
    ensures |r| == 0
  {
    []
  }

  /** The match is on the exact text: other spellings and qualified names are not claimed. */
  lemma CaseSensitive()
    ensures !SupportsNode(Node(TypeReference, "url"))
    ensures !SupportsNode(Node(TypeReference, "Url"))
    ensures !SupportsNode(Node(TypeReference, "URL "))
    ensures !SupportsNode(Node(TypeReference, "globalThis.URL"))
  {
  }

  /** The formatter accepts every type the parser creates, and no type the buffer parser creates. */
  lemma {:induction false} CreatedTypesFormatted<C, R>(node: Node, context: C, reference: Option<R>)
    ensures SupportsType(CreateType(node, context, reference))
    ensures !SupportsType(BufferType)
    ensures MemberValue(Definition(CreateType(node, context, reference)).members, "format") == Defined(JStr("uri"))
  {
  }
}
