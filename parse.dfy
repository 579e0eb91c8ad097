/**
 * The post-processing of src/parse.ts around the foreign TypeScript parser and
 * schema generator: the metadata read from the document's front-matter comment,
 * the choice of the primary interface, and the preparation of the schema
 * generation (export map, configuration, registered recognizers, the `$ref` of a
 * record document).
 *
 * The foreign parts are parameters: `yaml` is `YAML.load` (a value, or an
 * exception), `reparse` is a new ts-morph parse of the same text, and `gen` is
 * ts-json-schema-generator's `createSchema`, a function of its configuration,
 * the program's statements and the custom recognizers it is given.
 */
module Parse {
  import opened Js
  import opened Strings
  import opened Ast
  import opened Types
  import opened SchemaTypes
  import BufferSchema
  import UrlSchema
  import Transform
  import Generate

  // ---------------------------------------------------------------------------
  // Front matter and metadata
  // ---------------------------------------------------------------------------

  /** `getStatementByKind(SyntaxKind.MultiLineCommentTrivia)`: the position of the first comment statement. */
  function FirstCommentIndex(stmts: seq<Stmt>): (r: Option<nat>)
    ensures r.Some? ==> r.value < |stmts| && stmts[r.value].CommentStmt?
    ensures r.Some? ==> forall j :: 0 <= j < r.value ==> !stmts[j].CommentStmt?
    ensures r.None? <==> forall j :: 0 <= j < |stmts| ==> !stmts[j].CommentStmt?
    decreases |stmts|
  {
    if stmts == [] then None
    else if stmts[0].CommentStmt? then Some(0)
    else match FirstCommentIndex(stmts[1..])
      case None => None
      case Some(j) => Some(j + 1)
  }

  /** `comment.getText().slice(2, -2).trim()`. */
  function FrontMatter(commentText: string): string {
    Trim(SliceInner(commentText))
  }

  /** The comment delimiters are what is sliced off: the front matter is the trimmed body. */
  lemma FrontMatterOfComment(body: string)
    ensures FrontMatter("/*" + body + "*/") == Trim(body)
  {
    var c := "/*" + body + "*/";
    if |c| > 4 {
      assert SliceInner(c) == body;
    }
  }

  /** What `YAML.load` does with the front matter: a value (`undefined` for an empty document), or an exception. */
  datatype Loaded = Loaded(value: JsValue) | LoadFailed

  /**
   * The own enumerable properties `Object.assign` copies from a source: the
   * members of an object, the indexed items of an array, the indexed characters
   * of a string, and none of `undefined`, `null`, a boolean or a number.
   */
  function OwnEntries(v: JsValue): (r: seq<Member>)
    ensures v.Defined? && v.json.JArr? ==> |r| == |v.json.items|
    ensures v.Defined? && v.json.JStr? ==> |r| == |v.json.s|
  {
    match v
    case Undefined => []
    case Defined(j) =>
      match j
      case JObj(ms) => ms
      case JArr(items) => seq(|items|, i requires 0 <= i < |items| => Member(DecimalString(i), items[i]))
      case JStr(s) => seq(|s|, i requires 0 <= i < |s| => Member(DecimalString(i), JStr([s[i]])))
      case _ => []
  }

  /** `Object.assign(target, source)`: each own property of the source is set on the target in turn. */
  function Assign(target: seq<Member>, entries: seq<Member>): (r: seq<Member>)
    decreases |entries|
  {
    if entries == [] then target
    else Assign(SetMember(target, entries[0].key, entries[0].value), entries[1..])
  }

  /** The `metadata` that `parse` builds. */
  function Metadata(stmts: seq<Stmt>, yaml: string -> Loaded): seq<Member> {
    match FirstCommentIndex(stmts)
    case None => []
    case Some(i) =>
      match yaml(FrontMatter(stmts[i].text))
      case LoadFailed => []
      case Loaded(v) => Assign([], OwnEntries(v))
  }

  predicate DistinctKeys(ms: seq<Member>) {
    forall i, j :: 0 <= i < j < |ms| ==> ms[i].key != ms[j].key
  }

  predicate KeyAbsent(ms: seq<Member>, k: string) {
    forall i :: 0 <= i < |ms| ==> ms[i].key != k
  }

  /** Setting a key the object does not have appends it. */
  lemma {:induction false} SetAbsentAppends(ms: seq<Member>, k: string, v: Json)
    requires KeyAbsent(ms, k)
    ensures SetMember(ms, k, v) == ms + [Member(k, v)]
    decreases |ms|
  {
    if ms != [] {
      SetAbsentAppends(ms[1..], k, v);
      assert [ms[0]] + (ms[1..] + [Member(k, v)]) == ms + [Member(k, v)];
    }
  }

  /** After the first property is appended, the others still have distinct keys that the target lacks. */
  lemma TailStaysFresh(target: seq<Member>, entries: seq<Member>)
    requires entries != [] && DistinctKeys(entries)
    requires forall i :: 0 <= i < |entries| ==> KeyAbsent(target, entries[i].key)
    ensures DistinctKeys(entries[1..])
    ensures forall i :: 0 <= i < |entries| - 1 ==> KeyAbsent(target + [entries[0]], entries[1..][i].key)
  {
    var rest := entries[1..];
    forall i | 0 <= i < |rest|
      ensures KeyAbsent(target + [entries[0]], rest[i].key)
    {
      assert rest[i] == entries[i + 1];
      assert KeyAbsent(target, entries[i + 1].key);
    }
    forall i, j | 0 <= i < j < |rest|
      ensures rest[i].key != rest[j].key
    {
      assert rest[i] == entries[i + 1] && rest[j] == entries[j + 1];
    }
  }

  /** Assigning properties with distinct keys, none of which the target has, appends them in order. */
  lemma {:induction false} AssignFresh(target: seq<Member>, entries: seq<Member>)
    requires DistinctKeys(entries)
    requires forall i :: 0 <= i < |entries| ==> KeyAbsent(target, entries[i].key)
    ensures Assign(target, entries) == target + entries
    decreases |entries|
  {
    if entries != [] {
      var e := entries[0];
      var t := target + [e];
      assert KeyAbsent(target, e.key);
      SetAbsentAppends(target, e.key, e.value);
      assert Assign(target, entries) == Assign(t, entries[1..]);
      TailStaysFresh(target, entries);
      AssignFresh(t, entries[1..]);
      MoveFirst(target, entries);
    }
  }

  lemma MoveFirst<T>(a: seq<T>, b: seq<T>)
    requires b != []
    ensures a + [b[0]] + b[1..] == a + b
  {
    assert b == [b[0]] + b[1..];
  }

  /** A mapping front matter (YAML mapping keys are distinct) becomes the metadata as it is. */
  lemma MetadataOfMapping(stmts: seq<Stmt>, yaml: string -> Loaded, ms: seq<Member>)
    requires FirstCommentIndex(stmts).Some?
    requires yaml(FrontMatter(stmts[FirstCommentIndex(stmts).value].text)) == Loaded(Defined(JObj(ms)))
    requires DistinctKeys(ms)
    ensures Metadata(stmts, yaml) == ms
  {
    AssignFresh([], ms);
  }

  /**
   * A plain-string front matter is spread into the metadata character by
   * character, under the keys "0", "1", ...: `Object.assign` copies a string's
   * indexed characters.
   */
  lemma MetadataOfString(stmts: seq<Stmt>, yaml: string -> Loaded, s: string)
    requires FirstCommentIndex(stmts).Some?
    requires yaml(FrontMatter(stmts[FirstCommentIndex(stmts).value].text)) == Loaded(Defined(JStr(s)))
    ensures |Metadata(stmts, yaml)| == |s|
    ensures forall i :: 0 <= i < |s| ==> Metadata(stmts, yaml)[i] == Member(DecimalString(i), JStr([s[i]]))
  {
    StringEntriesDistinct(s);
    AssignFresh([], OwnEntries(Defined(JStr(s))));
  }

  /** The keys "0", "1", ... of a string's characters are distinct. */
  lemma StringEntriesDistinct(s: string)
    ensures DistinctKeys(OwnEntries(Defined(JStr(s))))
  {
    var es := OwnEntries(Defined(JStr(s)));
    forall i, j | 0 <= i < j < |es|
      ensures es[i].key != es[j].key
    {
      if es[i].key == es[j].key {
        DecimalStringInjective(i, j);
      }
    }
  }

  /** A load failure, or a value with no own enumerable properties: `undefined`, `null`, a boolean, a number. */
  predicate CopiesNothing(l: Loaded) {
    l.LoadFailed? || l.value.Undefined? || l.value.json.JNull? || l.value.json.JBool? || l.value.json.JNum?
  }

  /** No comment, or a front matter that fails to load or is a scalar: the metadata stays empty. */
  lemma MetadataEmpty(stmts: seq<Stmt>, yaml: string -> Loaded)
    requires FirstCommentIndex(stmts).None? || CopiesNothing(yaml(FrontMatter(stmts[FirstCommentIndex(stmts).value].text)))
    ensures Metadata(stmts, yaml) == []
  {
  }

  /** Only the first comment is read: statements after it do not change the metadata. */
  lemma {:induction false} MetadataFromFirstComment(a: seq<Stmt>, c: string, b: seq<Stmt>, yaml: string -> Loaded)
    requires forall j :: 0 <= j < |a| ==> !a[j].CommentStmt?
    ensures Metadata(a + [CommentStmt(c)] + b, yaml) ==
      match yaml(FrontMatter(c)) case LoadFailed => [] case Loaded(v) => Assign([], OwnEntries(v))
  {
    var s := a + [CommentStmt(c)] + b;
    assert s[|a|] == CommentStmt(c);
    assert FirstCommentIndex(s) == Some(|a|);
  }

  // ---------------------------------------------------------------------------
  // The primary interface
  // ---------------------------------------------------------------------------

  /** The position of the last interface with the `default` keyword. */
  function LastDefaultIndex(ifaces: seq<Iface>): (r: Option<nat>)
    ensures r.Some? ==> r.value < |ifaces| && ifaces[r.value].isDefault
    ensures r.Some? ==> forall j :: r.value < j < |ifaces| ==> !ifaces[j].isDefault
    ensures r.None? <==> forall j :: 0 <= j < |ifaces| ==> !ifaces[j].isDefault
    decreases |ifaces|
  {
    if ifaces == [] then None
    else if ifaces[|ifaces| - 1].isDefault then Some(|ifaces| - 1)
    else LastDefaultIndex(ifaces[..|ifaces| - 1])
  }

  /** `primaryInterfaceName`: the name of the last default interface; undefined when there is none. */
  function PrimaryName(ifaces: seq<Iface>): Option<string> {
    match LastDefaultIndex(ifaces)
    case None => None
    case Some(k) => Some(ifaces[k].name)
  }

  /** The `parse` result, given the foreign parser's statements for `text`. */
  function Parsed(text: string, ast: SourceFile, yaml: string -> Loaded): ParsedDts
    reads ast
  {
    ParsedDts(Metadata(ast.statements, yaml), PrimaryName(Interfaces(ast.statements)), text, ast)
  }

  /**
   * `parse`: the metadata, then a loop over the interfaces in document order in
   * which every default interface overwrites the name found so far.
   */
  method ParseDocument(text: string, ast: SourceFile, yaml: string -> Loaded) returns (dts: ParsedDts)
    ensures dts == Parsed(text, ast, yaml)
  {
    var metadata: seq<Member> := [];
    var comment := FirstCommentIndex(ast.statements);
    if comment.Some? {
      var frontmatter := FrontMatter(ast.statements[comment.value].text);
      var loaded := yaml(frontmatter);
      if loaded.Loaded? {
        metadata := Assign(metadata, OwnEntries(loaded.value));
      }
    }
    assert metadata == Metadata(ast.statements, yaml);
    var primary: Option<string> := None;
    var interfaces := Interfaces(ast.statements);
    for i := 0 to |interfaces|
      invariant primary == PrimaryName(interfaces[..i])
    {
      assert interfaces[..i + 1][..i] == interfaces[..i];
      if interfaces[i].isDefault {
        primary := Some(interfaces[i].name);
      }
    }
    assert interfaces[..|interfaces|] == interfaces;
    dts := ParsedDts(metadata, primary, text, ast);
  }

  /** The primary name is present exactly when some interface is default, and it names the last one. */
  lemma PrimaryNameIsLastDefault(ifaces: seq<Iface>)
    ensures PrimaryName(ifaces).Some? <==> exists k :: 0 <= k < |ifaces| && ifaces[k].isDefault
    ensures PrimaryName(ifaces).Some? ==>
      exists k :: 0 <= k < |ifaces| && ifaces[k].isDefault && ifaces[k].name == PrimaryName(ifaces).value &&
        forall j :: k < j < |ifaces| ==> !ifaces[j].isDefault
  {
    if PrimaryName(ifaces).Some? {
      var k := LastDefaultIndex(ifaces).value;
      assert ifaces[k].isDefault && ifaces[k].name == PrimaryName(ifaces).value;
    }
  }

  /** A default interface placed after the others decides the primary name, whatever came before. */
  lemma {:induction false} LaterDefaultWins(a: seq<Iface>, i: Iface, b: seq<Iface>)
    requires i.isDefault
    requires forall j :: 0 <= j < |b| ==> !b[j].isDefault
    ensures PrimaryName(a + [i] + b) == Some(i.name)
    decreases |b|
  {
    var s := a + [i] + b;
    if b == [] {
      assert s[|s| - 1] == i;
    } else {
      assert s[|s| - 1] == b[|b| - 1];
      assert s[..|s| - 1] == a + [i] + b[..|b| - 1];
      LaterDefaultWins(a, i, b[..|b| - 1]);
    }
  }

  /**
   * With two default interfaces, `parse` names the second while `generate`
   * builds the client from the first (`find`): the two disagree.
   */
  lemma TwoDefaultsDisagree()
    ensures var ifaces := [Iface("A", true, true, [], []), Iface("B", true, true, [], [])];
      PrimaryName(ifaces) == Some("B") && Generate.FirstDefault(ifaces).Some? && Generate.FirstDefault(ifaces).value.name == "A"
  {
    var ifaces := [Iface("A", true, true, [], []), Iface("B", true, true, [], [])];
    assert ifaces[1..] == [Iface("B", true, true, [], [])];
    assert ifaces[..1] == [Iface("A", true, true, [], [])];
  }

  // ---------------------------------------------------------------------------
  // Schema generation
  // ---------------------------------------------------------------------------

  /** The custom node parsers and type formatters that can be given to the schema generator. */
  datatype CustomParser = BufferParser | UrlParser
  datatype CustomFormatter = BufferFormatter | UrlFormatter

  function Claims(p: CustomParser, node: Node): bool {
    match p
    case BufferParser => BufferSchema.SupportsNode(node)
    case UrlParser => UrlSchema.SupportsNode(node)
  }

  /** The `createParser` and `createFormatter` callbacks register the buffer recognizer only. */
  const Parsers: seq<CustomParser> := [BufferParser]
  const Formatters: seq<CustomFormatter> := [BufferFormatter]

  /** A type reference to `URL` is claimed by no registered parser, though the URL recognizer would claim it. */
  lemma UrlNotRegistered()
    ensures forall p :: p in Parsers ==> !Claims(p, Node(TypeReference, "URL"))
    ensures Claims(UrlParser, Node(TypeReference, "URL")) && UrlParser !in Parsers
    ensures forall n :: n in BufferSchema.Names ==> exists p :: p in Parsers && Claims(p, Node(TypeReference, n))
  {
    forall n | n in BufferSchema.Names
      ensures exists p :: p in Parsers && Claims(p, Node(TypeReference, n))
    {
      assert BufferParser in Parsers && Claims(BufferParser, Node(TypeReference, n));
    }
  }

  /** The generator's configuration: `type` (the root type) and `additionalProperties`. */
  datatype SchemaConfig = SchemaConfig(rootType: Option<string>, additionalProperties: bool)

  /** ts-json-schema-generator: configuration, program statements, custom recognizers to the schema object's members. */
  type SchemaGenerator = (SchemaConfig, seq<Stmt>, seq<CustomParser>, seq<CustomFormatter>) -> seq<Member>

  datatype SchemaOutput = SchemaOutput(schema: seq<Member>, exportMap: ExportMapValue)

  /**
   * The program the generator reads and the export map: for an `api` document
   * the API shape transformer runs on a new parse of the text and fills a new
   * export map; otherwise the document as parsed, with the empty export map.
   */
  function Program(metadata: seq<Member>, text: string, stmts: seq<Stmt>, reparse: string -> seq<Stmt>): Result<Transform.State> {
    if MemberValue(metadata, "type") == Defined(JStr("api")) then
      var reparsed := reparse(text);
      Transform.Transformed(Transform.Visits(Interfaces(reparsed)), Transform.State(reparsed, EmptyExportMap))
    else Ok(Transform.State(stmts, EmptyExportMap))
  }

  /** The root `$ref` of a record document: set when the type is `adb-record` and the primary name is a non-empty string. */
  predicate SetsRootRef(metadata: seq<Member>, primary: Option<string>) {
    MemberValue(metadata, "type") == Defined(JStr("adb-record")) && primary.Some? && primary.value != ""
  }

  /** `generateInterfaceSchemas`. */
  function InterfaceSchemas(metadata: seq<Member>, primary: Option<string>, text: string, stmts: seq<Stmt>,
                            reparse: string -> seq<Stmt>, gen: SchemaGenerator): Result<SchemaOutput>
  {
    var program :- Program(metadata, text, stmts, reparse);
    var schema := gen(SchemaConfig(primary, true), program.stmts, Parsers, Formatters);
    if SetsRootRef(metadata, primary) then
      Ok(SchemaOutput(SetMember(schema, "$ref", JStr("#/definitions/" + primary.value)), program.em))
    else Ok(SchemaOutput(schema, program.em))
  }

  /**
   * `generateInterfaceSchemas` on a parsed document. The document's own tree is
   * not touched (the method modifies nothing that existed before it).
   */
  method GenerateInterfaceSchemas(dts: ParsedDts, reparse: string -> seq<Stmt>, gen: SchemaGenerator)
    returns (r: Result<SchemaOutput>)
    ensures r == InterfaceSchemas(dts.metadata, dts.primaryInterfaceName, dts.text, dts.ast.statements, reparse, gen)
  {
    var program := dts.ast.statements;
    var exportMap := new ExportMap();
    if MemberValue(dts.metadata, "type") == Defined(JStr("api")) {
      var newAst := new SourceFile(reparse(dts.text));
      var o := Transform.TransformAst(newAst, exportMap);
      if o.Fail? {
        return Err(o.error);
      }
      program := newAst.statements;
    }
    var config := SchemaConfig(dts.primaryInterfaceName, true);
    var schema := gen(config, program, Parsers, Formatters);
    if MemberValue(dts.metadata, "type") == Defined(JStr("adb-record")) && dts.primaryInterfaceName.Some? && dts.primaryInterfaceName.value != "" {
      schema := SetMember(schema, "$ref", JStr("#/definitions/" + dts.primaryInterfaceName.value));
    }
    r := Ok(SchemaOutput(schema, exportMap.Value()));
  }

  /** Outside `api` documents nothing can fail and the export map is `{methods: {}, events: {}}`. */
  lemma ExportMapOnlyForApi(metadata: seq<Member>, primary: Option<string>, text: string, stmts: seq<Stmt>,
                            reparse: string -> seq<Stmt>, gen: SchemaGenerator)
    requires MemberValue(metadata, "type") != Defined(JStr("api"))
    ensures InterfaceSchemas(metadata, primary, text, stmts, reparse, gen).Ok?
    ensures InterfaceSchemas(metadata, primary, text, stmts, reparse, gen).value.exportMap == EmptyExportMap
  {
  }

  /**
   * For an `api` document the export map is what the API shape transformer
   * leaves in an empty map after a pass over a new parse of the text, and the
   * generator reads that transformed program; a malformed `emit` aborts.
   */
  lemma ApiExportMap(metadata: seq<Member>, primary: Option<string>, text: string, stmts: seq<Stmt>,
                     reparse: string -> seq<Stmt>, gen: SchemaGenerator)
    requires MemberValue(metadata, "type") == Defined(JStr("api"))
    ensures var t := Transform.Transformed(Transform.Visits(Interfaces(reparse(text))), Transform.State(reparse(text), EmptyExportMap));
      var r := InterfaceSchemas(metadata, primary, text, stmts, reparse, gen);
      (r.Ok? <==> t.Ok?) &&
      (r.Ok? ==> (r.value.exportMap == t.value.em &&
        r.value.schema == gen(SchemaConfig(primary, true), t.value.stmts, Parsers, Formatters)))
  {
  }

  /**
   * The schema is the generator's, rooted at the primary interface with
   * additional properties allowed; only `$ref` may differ, and it is set to the
   * primary interface's definition exactly for a record document with a primary name.
   */
  lemma RootRef(metadata: seq<Member>, primary: Option<string>, text: string, stmts: seq<Stmt>,
                reparse: string -> seq<Stmt>, gen: SchemaGenerator)
    requires InterfaceSchemas(metadata, primary, text, stmts, reparse, gen).Ok?
    ensures var program := Program(metadata, text, stmts, reparse).value;
      var generated := gen(SchemaConfig(primary, true), program.stmts, Parsers, Formatters);
      var schema := InterfaceSchemas(metadata, primary, text, stmts, reparse, gen).value.schema;
      (forall k :: k != "$ref" ==> MemberValue(schema, k) == MemberValue(generated, k)) &&
      MemberValue(schema, "$ref") ==
        (if SetsRootRef(metadata, primary) then Defined(JStr("#/definitions/" + primary.value)) else MemberValue(generated, "$ref"))
  {
  }

  /** A record document is read as parsed: the generator sees the document's own statements. */
  lemma RecordUsesDocument(metadata: seq<Member>, primary: Option<string>, text: string, stmts: seq<Stmt>,
                           reparse: string -> seq<Stmt>, gen: SchemaGenerator)
    requires MemberValue(metadata, "type") == Defined(JStr("adb-record"))
    ensures Program(metadata, text, stmts, reparse) == Ok(Transform.State(stmts, EmptyExportMap))
  {
  }
}
