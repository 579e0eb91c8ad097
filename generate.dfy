/**
 * src/generate.ts: from a parsed document, its JSON schema and its export map,
 * build the generated files. An `api` document gives a client file and a
 * server file; an `adb-record` document gives a record-table file. A file is
 * modelled as the statements ts-morph holds for it, in the order the generator
 * adds them; printing them as text is left out.
 */
module Generate {
  import opened Js
  import opened Dicts
  import opened Strings
  import opened Util
  import opened Ast
  import opened Types

  const HostApiBrokerImport: string := "@atek-cloud/api-broker"
  const NodeRpcImport: string := "@atek-cloud/node-rpc"
  const DenoRpcImport: string := "https://atek.cloud/x/rpc@latest/mod.ts"

  /** `PRELUDE(env)`: the comment every generated file starts with. */
  function Prelude(env: string): string {
    "\n/**\n * File generated by Atek tsgen\n * env=" + env + "\n * DO NOT MODIFY\n */\n\n"
  }

  // ---------------------------------------------------------------------------
  // Environment and output names

  /** `opts?.env` is truthy. */
  predicate EnvGiven(opts: Option<GenerateOpts>) {
    opts.Some? && opts.value.env.Some? && opts.value.env.value != ""
  }

  /**
   * The check at the top of `generate` together with `opts?.env || DENO_USERLAND`,
   * which every `generate*` function computes for itself.
   */
  function ResolveEnv(opts: Option<GenerateOpts>): (r: Result<Env>)
    ensures r.Err? <==> EnvGiven(opts) && ParseEnv(opts.value.env.value).None?
    ensures r.Err? ==> r.error == InvalidEnvironment(opts.value.env.value)
    ensures r.Ok? && EnvGiven(opts) ==> EnvName(r.value) == opts.value.env.value
    ensures !EnvGiven(opts) ==> r == Ok(DenoUserland)
  {
    if EnvGiven(opts) then
      match ParseEnv(opts.value.env.value)
      case None => Err(InvalidEnvironment(opts.value.env.value))
      case Some(e) => Ok(e)
    else Ok(DenoUserland)
  }

  /** The `env` text of the prelude, read as `opts?.env`; an absent value prints as `undefined`. */
  function PreludeEnv(opts: Option<GenerateOpts>): string {
    match opts
    case None => "undefined"
    case Some(o) => o.env.GetOr("undefined")
  }

  /** `PRELUDE(opts.env)` as written: reading `env` of an omitted `opts` is a TypeError. */
  function PreludeAsWritten(opts: Option<GenerateOpts>): (r: Result<string>)
    ensures opts.None? <==> r.Err?
    ensures r.Ok? ==> r.value == Prelude(PreludeEnv(opts))
  {
    match opts
    case None => Err(TypeError("opts is undefined"))
    case Some(o) => Ok(Prelude(o.env.GetOr("undefined")))
  }

  /** `dts.metadata.id`, on which `split` must be callable. */
  function IdOf(metadata: seq<Member>): (r: Result<string>)
    ensures r.Ok? <==> MemberValue(metadata, "id").Defined? && MemberValue(metadata, "id").json.JStr?
    ensures r.Ok? ==> MemberValue(metadata, "id") == Defined(JStr(r.value))
  {
    match MemberValue(metadata, "id")
    case Defined(JStr(s)) => Ok(s)
    case _ => Err(TypeError("metadata.id.split is not a function"))
  }

  /** `id.split('/')[1]` as a template part: `undefined` when the id has no `/`. */
  function OutputName(id: string): string {
    SplitFirst(id, '/').1.GetOr("undefined")
  }

  // ---------------------------------------------------------------------------
  // The environment table

  /** The module the runtime classes of an environment come from. */
  function RuntimeModule(env: Env): string {
    match env
    case DenoUserland => DenoRpcImport
    case NodeUserland => NodeRpcImport
    case Host => HostApiBrokerImport
  }

  /** The imports of a generated file: `URL` from `'url'` outside Deno, then `names` from the runtime module. */
  function EnvImports(env: Env, names: seq<string>): seq<Stmt> {
    (if env == DenoUserland then [] else [ImportStmt(ImportDecl("url", ["URL"]))])
    + [ImportStmt(ImportDecl(RuntimeModule(env), names))]
  }

  function ClientBase(env: Env): string {
    if env == Host then "ApiBrokerClient" else "AtekRpcClient"
  }

  function ServerBase(env: Env): string {
    if env == Host then "ApiBrokerServer" else "AtekRpcServer"
  }

  function HandlersType(env: Env): string {
    if env == Host then "ApiBrokerServerHandlers" else "AtekRpcServerHandlers"
  }

  function ClientImportNames(env: Env): seq<string> { [ClientBase(env)] }
  function ServerImportNames(env: Env): seq<string> { [ServerBase(env), HandlersType(env)] }
  const RecordImportNames: seq<string> := ["AtekDbRecordClient", "AtekDbApiClient"]

  // ---------------------------------------------------------------------------
  // Constants

  /** `dts.metadata.revision ? dts.metadata.revision : 'undefined'`: the value itself becomes the initializer text. */
  function RevisionInit(metadata: seq<Member>): Init {
    var rev := MemberValue(metadata, "revision");
    if TruthyValue(rev) then InitVerbatim(rev.json) else InitCode("undefined")
  }

  /** `dts.metadata.templates || {}`. */
  function TemplatesValue(metadata: seq<Member>): Json {
    var t := MemberValue(metadata, "templates");
    if TruthyValue(t) then t.json else JObj([])
  }

  function IdConst(id: string): Stmt { ConstStmt(ConstDecl("ID", InitJson(JStr(id)), true)) }
  function RevisionConst(metadata: seq<Member>): Stmt { ConstStmt(ConstDecl("REVISION", RevisionInit(metadata), true)) }

  /** `ID`, `REVISION`, then the unexported `SCHEMAS` and `EXPORT_MAP` of the client and the server. */
  function ApiConsts(id: string, metadata: seq<Member>, schema: Json, em: ExportMapValue): seq<Stmt> {
    [IdConst(id), RevisionConst(metadata),
     ConstStmt(ConstDecl("SCHEMAS", InitJson(schema), false)),
     ConstStmt(ConstDecl("EXPORT_MAP", InitJson(ExportMapJson(em)), false))]
  }

  /** `ID`, `REVISION`, and the exported `JSON_SCHEMA` and `TEMPLATES` of a record file. */
  function RecordConsts(id: string, metadata: seq<Member>, schema: Json): seq<Stmt> {
    [IdConst(id), RevisionConst(metadata),
     ConstStmt(ConstDecl("JSON_SCHEMA", InitJson(schema), true)),
     ConstStmt(ConstDecl("TEMPLATES", InitJson(TemplatesValue(metadata)), true))]
  }

  // ---------------------------------------------------------------------------
  // Class names

  /** The first interface with the `default` keyword (`find(iface => iface.getDefaultKeyword())`). */
  function FirstDefault(ifaces: seq<Iface>): (r: Option<Iface>)
    ensures r.Some? ==> r.value in ifaces && r.value.isDefault
    ensures r.None? <==> forall k :: 0 <= k < |ifaces| ==> !ifaces[k].isDefault
    decreases |ifaces|
  {
    if ifaces == [] then None
    else if ifaces[0].isDefault then Some(ifaces[0])
    else FirstDefault(ifaces[1..])
  }

  /** The first interface named `n`. */
  function FirstNamed(ifaces: seq<Iface>, n: string): (r: Option<Iface>)
    ensures r.Some? ==> r.value in ifaces && r.value.name == n
    ensures r.None? <==> forall k :: 0 <= k < |ifaces| ==> ifaces[k].name != n
    decreases |ifaces|
  {
    if ifaces == [] then None
    else if ifaces[0].name == n then Some(ifaces[0])
    else FirstNamed(ifaces[1..], n)
  }

  /**
   * `toSafeString(apiIface.getName() || dts.metadata.title || dts.metadata.id || 'Api')`:
   * the first truthy candidate; a truthy title that is not a string has no `replace`.
   */
  function ClassStem(apiName: string, metadata: seq<Member>, id: string): (r: Result<string>)
    ensures apiName != "" ==> r == Ok(ToSafeString(apiName))
    ensures apiName == "" && !TruthyValue(MemberValue(metadata, "title")) && id == "" ==> r == Ok("Api")
  {
    var title := MemberValue(metadata, "title");
    if apiName != "" then Ok(ToSafeString(apiName))
    else if TruthyValue(title) then
      if title.json.JStr? then Ok(ToSafeString(title.json.s))
      else Err(TypeError("str.replace is not a function"))
    else if id != "" then Ok(ToSafeString(id))
    else
      assert Upper('a') == 'A';
      PascalCaseIsFixpoint("Api");
      Ok(ToSafeString("Api"))
  }

  // ---------------------------------------------------------------------------
  // Client methods

  /** `param.getStructure()`: the name, the written type, the question token and the rest marker. */
  function ParamStructure(p: Param): ParamDecl {
    ParamDecl(p.name, p.written, p.questionToken, p.rest)
  }

  function ParamNames(ps: seq<Param>): (r: seq<string>)
    ensures |r| == |ps| && forall i :: 0 <= i < |ps| ==> r[i] == ps[i].name
  {
    seq(|ps|, i requires 0 <= i < |ps| => ps[i].name)
  }

  function ParamStructures(ps: seq<Param>): (r: seq<ParamDecl>)
    ensures |r| == |ps| && forall i :: 0 <= i < |ps| ==> r[i] == ParamStructure(ps[i])
  {
    seq(|ps|, i requires 0 <= i < |ps| => ParamStructure(ps[i]))
  }

  /** The return type of `subscribe`: the emitter interface names joined by `' | '`. */
  function SubscribeType(em: ExportMapValue): string {
    Join(Keys(em.events), " | ")
  }

  /** The return type of every other forwarded method. */
  function RpcReturnType(m: MethodSig): string {
    "Promise<" + RemoveImport(Unwrapped(m.returnText)) + ">"
  }

  function BodyArgs(b: Body): seq<string> {
    match b
    case CallRpc(_, args) => args
    case CallSubscribe(args) => args
  }

  /**
   * The client method for one method of the primary interface: same name and
   * parameters, forwarding the parameter names in order to `_subscribe` for
   * `subscribe` and to `_rpc` under the method's own name otherwise.
   */
  function ClientMethod(m: MethodSig, em: ExportMapValue): (r: ClassMethod)
    ensures r.name == m.name && |r.params| == |m.params|
    ensures forall i :: 0 <= i < |m.params| ==> r.params[i] == ParamStructure(m.params[i])
    ensures BodyArgs(r.body) == seq(|r.params|, i requires 0 <= i < |r.params| => r.params[i].name)
    ensures r.body.CallSubscribe? <==> m.name == "subscribe"
    ensures r.body.CallSubscribe? ==> r.returnType == SubscribeType(em)
    ensures r.body.CallRpc? ==> r.body.rpcName == m.name && r.returnType == RpcReturnType(m)
  {
    var names := ParamNames(m.params);
    if m.name == "subscribe" then ClassMethod(m.name, ParamStructures(m.params), SubscribeType(em), CallSubscribe(names))
    else ClassMethod(m.name, ParamStructures(m.params), RpcReturnType(m), CallRpc(m.name, names))
  }

  function ClientMethods(ms: seq<MethodSig>, em: ExportMapValue): (r: seq<ClassMethod>)
    ensures |r| == |ms| && forall i :: 0 <= i < |ms| ==> r[i] == ClientMethod(ms[i], em)
  {
    seq(|ms|, i requires 0 <= i < |ms| => ClientMethod(ms[i], em))
  }

  function ClientClass(stem: string, env: Env, id: string, ms: seq<MethodSig>, em: ExportMapValue): ClassDecl {
    ClassDecl(stem + "Client", ClientBase(env), DefaultExport,
      Ctor([], [ArgJson(JStr(id)), ArgName("SCHEMAS"), ArgName("EXPORT_MAP")]),
      ClientMethods(ms, em))
  }

  function ServerClass(stem: string, env: Env): ClassDecl {
    ClassDecl(stem + "Server", ServerBase(env), DefaultExport,
      Ctor([ParamDecl("handlers", Some(HandlersType(env)), false, false)],
           [ArgName("SCHEMAS"), ArgName("EXPORT_MAP"), ArgName("handlers")]),
      [])
  }

  /** `export class <Main>Table extends AtekDbRecordClient<Main>` with constructor `(api, dbId?)`. */
  function RecordTable(mainName: string): ClassDecl {
    ClassDecl(mainName + "Table", "AtekDbRecordClient<" + mainName + ">", NamedExport,
      Ctor([ParamDecl("api", Some("AtekDbApiClient"), false, false), ParamDecl("dbId", Some("string"), true, false)],
           [ArgName("api"), ArgName("dbId"), ArgName("ID"), ArgName("REVISION"), ArgName("TEMPLATES"), ArgName("JSON_SCHEMA")]),
      [])
  }

  // ---------------------------------------------------------------------------
  // Emitter interfaces

  /**
   * `getMethods().find(m => removeQuotes(m.getParameters()[0].getType().getText()) === e)`:
   * the methods are tried in order, and a method without parameters that is
   * reached before a match fails the search with a TypeError.
   */
  function FindEmitterMethod(ms: seq<MethodSig>, e: string): (r: Result<MethodSig>)
    ensures r.Ok? ==> r.value in ms && |r.value.params| >= 1 && RemoveQuotes(r.value.params[0].typeText) == e
    ensures r == Err(MissingEmitterSignature(e)) <==>
      forall k :: 0 <= k < |ms| ==> |ms[k].params| >= 1 && RemoveQuotes(ms[k].params[0].typeText) != e
    ensures r.Err? ==> r.error == MissingEmitterSignature(e) || r.error.TypeError?
    decreases |ms|
  {
    if ms == [] then Err(MissingEmitterSignature(e))
    else if |ms[0].params| == 0 then Err(TypeError("m.getParameters()[0] is undefined"))
    else if RemoveQuotes(ms[0].params[0].typeText) == e then Ok(ms[0])
    else
      var r := FindEmitterMethod(ms[1..], e);
      assert forall k :: 1 <= k < |ms| ==> ms[k] == ms[1..][k - 1];
      r
  }

  /** The generated `on(name: "<e>", handler: (evt: T) => void): void`; the source method needs a second parameter. */
  function OnMethod(e: string, m: MethodSig): (r: Result<MethodSig>)
    ensures r.Ok? <==> |m.params| >= 2
  {
    if |m.params| < 2 then Err(TypeError("getParameters()[1] is undefined"))
    else
      var nameType := "\"" + e + "\"";
      var handlerType := "(evt: " + RemoveImport(m.params[1].typeText) + ") => void";
      Ok(MethodSig("on", [Param("name", Some(nameType), nameType, false, false),
                          Param("handler", Some(handlerType), handlerType, false, false)], "void", []))
  }

  /** The `on` signatures for the events of one emitter interface, in `for...in` order; `src` is its declaration. */
  function OnMethods(src: Option<Iface>, events: seq<string>): (r: Result<seq<MethodSig>>)
    ensures r.Ok? ==> |r.value| == |events|
    decreases |events|
  {
    if events == [] then Ok([])
    else
      var init :- OnMethods(src, events[..|events| - 1]);
      if src.None? then Err(TypeError("emitterSrcIface is undefined"))
      else
        var m :- FindEmitterMethod(src.value.methods, events[|events| - 1]);
        var on :- OnMethod(events[|events| - 1], m);
        Ok(init + [on])
  }

  /** The exported emitter interface for `events[name]`. */
  function EmitterIface(stmts: seq<Stmt>, name: string, events: Dict<string>): Result<Iface> {
    var ons :- OnMethods(FirstNamed(Interfaces(stmts), name), Keys(events));
    Ok(Iface(name, false, true, [], ons))
  }

  /** One emitter interface per entry of `exportMap.events`, in order. */
  function EmitterIfaces(stmts: seq<Stmt>, entries: seq<(string, Dict<string>)>): (r: Result<seq<Stmt>>)
    ensures r.Ok? ==> |r.value| == |entries|
    decreases |entries|
  {
    if entries == [] then Ok([])
    else
      var init :- EmitterIfaces(stmts, entries[..|entries| - 1]);
      var last := entries[|entries| - 1];
      var iface :- EmitterIface(stmts, last.0, last.1);
      Ok(init + [InterfaceStmt(iface)])
  }

  // ---------------------------------------------------------------------------
  // transformIfaceTypes and the copy rules

  /** The type text of a copied property: `Date` becomes `string`; `Uint8Array` becomes `Buffer` outside Deno. */
  function ReplacedType(env: Env, t: string): string {
    var t1 := ReplaceAll(t, "Date", "string");
    if env == Host || env == NodeUserland then ReplaceAll(t1, "Uint8Array", "Buffer") else t1
  }

  predicate AllTyped(props: seq<Prop>) {
    forall k :: 0 <= k < |props| ==> props[k].written.Some?
  }

  function ReplacedProps(env: Env, props: seq<Prop>): (r: seq<Prop>)
    requires AllTyped(props)
    ensures |r| == |props|
    ensures forall k :: 0 <= k < |props| ==> r[k] == props[k].(written := Some(ReplacedType(env, props[k].written.value)))
  {
    seq(|props|, k requires 0 <= k < |props| => props[k].(written := Some(ReplacedType(env, props[k].written.value))))
  }

  /** The result of `transformIfaceTypes`; `(property.type as string).replace` fails on a property without a type. */
  function IfaceTypesReplaced(env: Env, i: Iface): (r: Result<Iface>)
    ensures r.Ok? <==> AllTyped(i.props)
  {
    if AllTyped(i.props) then Ok(i.(props := ReplacedProps(env, i.props)))
    else Err(TypeError("property.type is undefined"))
  }

  /** `k in d` on a plain object. */
  predicate InOperator<V>(d: Dict<V>, k: string) {
    Has(d, k) || k in ObjectPrototypeNames
  }

  /** Which interfaces a copy leaves behind: the client skips the primary and the emitter interfaces; the record file none. */
  datatype Exclusion = NoExclusion | Exclude(apiName: string, events: Dict<Dict<string>>)

  predicate Excluded(x: Exclusion, name: string) {
    x.Exclude? && (name == x.apiName || InOperator(x.events, name))
  }

  /** What one statement of the document contributes to the copy. */
  function CopyOf(s: Stmt, env: Env, x: Exclusion): Result<seq<Stmt>> {
    match s
    case InterfaceStmt(i) =>
      if Excluded(x, i.name) then Ok([])
      else
        var t :- IfaceTypesReplaced(env, i);
        Ok([InterfaceStmt(t)])
    case TypeAliasStmt(_) => Ok([s])
    case EnumStmt(_) => Ok([s])
    case _ => Ok([])
  }

  /** `dts.ast.forEachChild`: the copies of the statements, in document order. */
  function Copies(stmts: seq<Stmt>, env: Env, x: Exclusion): Result<seq<Stmt>>
    decreases |stmts|
  {
    if stmts == [] then Ok([])
    else
      var init :- Copies(stmts[..|stmts| - 1], env, x);
      var last :- CopyOf(stmts[|stmts| - 1], env, x);
      Ok(init + last)
  }

  // ---------------------------------------------------------------------------
  // The three files

  /** What `generateApiClient` adds after the constants: the class, the emitter interfaces, the copies. */
  function ClientTail(stmts: seq<Stmt>, id: string, metadata: seq<Member>, em: ExportMapValue, env: Env): Result<seq<Stmt>> {
    match FirstDefault(Interfaces(stmts))
    case None => Err(TypeError("apiIface is undefined"))
    case Some(api) =>
      var stem :- ClassStem(api.name, metadata, id);
      var emitters :- EmitterIfaces(stmts, em.events.entries);
      var copies :- Copies(stmts, env, Exclude(api.name, em.events));
      Ok([ClassStmt(ClientClass(stem, env, id, api.methods, em))] + emitters + copies)
  }

  /** `generateApiClient` after the prelude: imports, constants, the class, emitter interfaces, copies. */
  function ClientFile(stmts: seq<Stmt>, id: string, metadata: seq<Member>, schema: Json, em: ExportMapValue, env: Env): Result<seq<Stmt>> {
    var tail :- ClientTail(stmts, id, metadata, em, env);
    Ok(EnvImports(env, ClientImportNames(env)) + ApiConsts(id, metadata, schema, em) + tail)
  }

  /** What `generateApiServer` adds after the constants: the server class. */
  function ServerTail(stmts: seq<Stmt>, id: string, metadata: seq<Member>, env: Env): Result<seq<Stmt>> {
    match FirstDefault(Interfaces(stmts))
    case None => Err(TypeError("apiIface is undefined"))
    case Some(api) =>
      var stem :- ClassStem(api.name, metadata, id);
      Ok([ClassStmt(ServerClass(stem, env))])
  }

  /** `generateApiServer` after the prelude: imports, constants, the server class. */
  function ServerFile(stmts: seq<Stmt>, id: string, metadata: seq<Member>, schema: Json, em: ExportMapValue, env: Env): Result<seq<Stmt>> {
    var tail :- ServerTail(stmts, id, metadata, env);
    Ok(EnvImports(env, ServerImportNames(env)) + ApiConsts(id, metadata, schema, em) + tail)
  }

  /** What `generateRecordInterface` adds after the constants: the copies and the table class. */
  function RecordTail(stmts: seq<Stmt>, env: Env): Result<seq<Stmt>> {
    var copies :- Copies(stmts, env, NoExclusion);
    match FirstDefault(Interfaces(copies))
    case None => Err(TypeError("mainIface is undefined"))
    case Some(main) => Ok(copies + [ClassStmt(RecordTable(main.name))])
  }

  /**
   * `generateRecordInterface` after the prelude: imports, constants, every
   * interface, alias and enum, and the table class of the first interface of
   * the new file that is a default export.
   */
  function RecordFile(stmts: seq<Stmt>, id: string, metadata: seq<Member>, schema: Json, env: Env): Result<seq<Stmt>> {
    var tail :- RecordTail(stmts, env);
    Ok(EnvImports(env, RecordImportNames) + RecordConsts(id, metadata, schema) + tail)
  }

  /** A generated file: its name and its statements, the prelude comment first. */
  datatype Artifact = Artifact(fileName: string, stmts: seq<Stmt>)

  function FileNames(files: seq<Artifact>): seq<string> {
    seq(|files|, i requires 0 <= i < |files| => files[i].fileName)
  }

  /** `generate`, with the prelude each file starts with given as `prelude`. */
  function GeneratedWith(prelude: Result<string>, metadata: seq<Member>, stmts: seq<Stmt>, schema: Json,
                         em: ExportMapValue, opts: Option<GenerateOpts>): Result<seq<Artifact>> {
    var env :- ResolveEnv(opts);
    var id :- IdOf(metadata);
    Assemble(MemberValue(metadata, "type"), OutputName(id), prelude,
      ClientFile(stmts, id, metadata, schema, em, env), ServerFile(stmts, id, metadata, schema, em, env),
      RecordFile(stmts, id, metadata, schema, env))
  }

  /** The branch on `dts.metadata.type`, given what generating each kind of file gives. */
  function Assemble(kind: JsValue, name: string, prelude: Result<string>,
                    client: Result<seq<Stmt>>, server: Result<seq<Stmt>>, rec: Result<seq<Stmt>>): Result<seq<Artifact>> {
    if kind == Defined(JStr("api")) then
      var p :- prelude;
      ApiArtifacts(name, p, client, server)
    else if kind == Defined(JStr("adb-record")) then
      var p :- prelude;
      RecordArtifacts(name, p, rec)
    else Err(UnknownSchemaType)
  }

  /** `<name>.ts` holding the client and `<name>.server.ts` holding the server, each after the prelude. */
  function ApiArtifacts(name: string, prelude: string, client: Result<seq<Stmt>>, server: Result<seq<Stmt>>): Result<seq<Artifact>> {
    var c :- client;
    var s :- server;
    Ok([Artifact(name + ".ts", [CommentStmt(prelude)] + c), Artifact(name + ".server.ts", [CommentStmt(prelude)] + s)])
  }

  /** `<name>.ts` holding the record file after the prelude. */
  function RecordArtifacts(name: string, prelude: string, rec: Result<seq<Stmt>>): Result<seq<Artifact>> {
    var r :- rec;
    Ok([Artifact(name + ".ts", [CommentStmt(prelude)] + r)])
  }

  lemma AssembleFiles(kind: JsValue, name: string, prelude: Result<string>,
                      client: Result<seq<Stmt>>, server: Result<seq<Stmt>>, rec: Result<seq<Stmt>>)
    requires Assemble(kind, name, prelude, client, server, rec).Ok?
    ensures prelude.Ok?
    ensures kind == Defined(JStr("api")) || kind == Defined(JStr("adb-record"))
    ensures FileNames(Assemble(kind, name, prelude, client, server, rec).value) ==
      if kind == Defined(JStr("api")) then [name + ".ts", name + ".server.ts"] else [name + ".ts"]
    ensures forall f :: f in Assemble(kind, name, prelude, client, server, rec).value ==>
      f.stmts != [] && f.stmts[0] == CommentStmt(prelude.value)
  {
    var files := Assemble(kind, name, prelude, client, server, rec).value;
    if kind == Defined(JStr("api")) {
      assert FileNames(files) == [name + ".ts", name + ".server.ts"];
    } else {
      assert FileNames(files) == [name + ".ts"];
    }
  }

  /** `generate`, with the prelude read as `opts?.env`. */
  function Generated(metadata: seq<Member>, stmts: seq<Stmt>, schema: Json, em: ExportMapValue, opts: Option<GenerateOpts>): Result<seq<Artifact>> {
    GeneratedWith(Ok(Prelude(PreludeEnv(opts))), metadata, stmts, schema, em, opts)
  }

  /** An `env` that is given but not one of the three fails before anything else. */
  lemma GenerateRejectsEnv(metadata: seq<Member>, stmts: seq<Stmt>, schema: Json, em: ExportMapValue, opts: Option<GenerateOpts>)
    requires EnvGiven(opts) && ParseEnv(opts.value.env.value).None?
    ensures Generated(metadata, stmts, schema, em, opts) == Err(InvalidEnvironment(opts.value.env.value))
  {
  }

  /**
   * Output names: an `api` document gives exactly `<name>.ts` and
   * `<name>.server.ts`, an `adb-record` document exactly `<name>.ts`, and every
   * file starts with the prelude.
   */
  lemma GeneratedFiles(metadata: seq<Member>, stmts: seq<Stmt>, schema: Json, em: ExportMapValue, opts: Option<GenerateOpts>)
    requires Generated(metadata, stmts, schema, em, opts).Ok?
    ensures IdOf(metadata).Ok?
    ensures var name := OutputName(IdOf(metadata).value);
      FileNames(Generated(metadata, stmts, schema, em, opts).value) ==
        if MemberValue(metadata, "type") == Defined(JStr("api")) then [name + ".ts", name + ".server.ts"] else [name + ".ts"]
    ensures MemberValue(metadata, "type") == Defined(JStr("api")) || MemberValue(metadata, "type") == Defined(JStr("adb-record"))
    ensures forall f :: f in Generated(metadata, stmts, schema, em, opts).value ==>
      f.stmts != [] && f.stmts[0] == CommentStmt(Prelude(PreludeEnv(opts)))
  {
    var env := ResolveEnv(opts).value;
    var id := IdOf(metadata).value;
    AssembleFiles(MemberValue(metadata, "type"), OutputName(id), Ok(Prelude(PreludeEnv(opts))),
      ClientFile(stmts, id, metadata, schema, em, env), ServerFile(stmts, id, metadata, schema, em, env),
      RecordFile(stmts, id, metadata, schema, env));
  }

  /** Any other schema type fails, once the environment and the id are acceptable. */
  lemma GenerateRejectsType(metadata: seq<Member>, stmts: seq<Stmt>, schema: Json, em: ExportMapValue, opts: Option<GenerateOpts>)
    requires ResolveEnv(opts).Ok? && IdOf(metadata).Ok?
    requires MemberValue(metadata, "type") != Defined(JStr("api")) && MemberValue(metadata, "type") != Defined(JStr("adb-record"))
    ensures Generated(metadata, stmts, schema, em, opts) == Err(UnknownSchemaType)
  {
  }

  /** `generate` as written, with `PRELUDE(opts.env)`. */
  function GeneratedAsWritten(metadata: seq<Member>, stmts: seq<Stmt>, schema: Json, em: ExportMapValue, opts: Option<GenerateOpts>): Result<seq<Artifact>> {
    GeneratedWith(PreludeAsWritten(opts), metadata, stmts, schema, em, opts)
  }

  // ---------------------------------------------------------------------------
  // An error stops a fold for good

  lemma {:induction false} OnMethodsErrSticks(src: Option<Iface>, events: seq<string>, k: nat)
    requires k <= |events| && OnMethods(src, events[..k]).Err?
    ensures OnMethods(src, events) == OnMethods(src, events[..k])
    decreases |events|
  {
    if k < |events| {
      var init := events[..|events| - 1];
      assert init[..k] == events[..k];
      OnMethodsErrSticks(src, init, k);
    } else {
      assert events[..k] == events;
    }
  }

  lemma {:induction false} EmitterIfacesErrSticks(stmts: seq<Stmt>, entries: seq<(string, Dict<string>)>, k: nat)
    requires k <= |entries| && EmitterIfaces(stmts, entries[..k]).Err?
    ensures EmitterIfaces(stmts, entries) == EmitterIfaces(stmts, entries[..k])
    decreases |entries|
  {
    if k < |entries| {
      var init := entries[..|entries| - 1];
      assert init[..k] == entries[..k];
      EmitterIfacesErrSticks(stmts, init, k);
    } else {
      assert entries[..k] == entries;
    }
  }

  lemma {:induction false} CopiesErrSticks(stmts: seq<Stmt>, env: Env, x: Exclusion, k: nat)
    requires k <= |stmts| && Copies(stmts[..k], env, x).Err?
    ensures Copies(stmts, env, x) == Copies(stmts[..k], env, x)
    decreases |stmts|
  {
    if k < |stmts| {
      var init := stmts[..|stmts| - 1];
      assert init[..k] == stmts[..k];
      CopiesErrSticks(init, env, x, k);
    } else {
      assert stmts[..k] == stmts;
    }
  }

  // ---------------------------------------------------------------------------
  // The generator, step by step

  /** `transformIfaceTypes`: overwrite each property's type in turn. */
  method TransformIfaceTypes(env: Env, structure: Iface) returns (r: Result<Iface>)
    ensures r == IfaceTypesReplaced(env, structure)
  {
    var props := structure.props;
    for k := 0 to |props|
      invariant |props| == |structure.props|
      invariant forall j :: 0 <= j < |props| ==> props[j].name == structure.props[j].name && props[j].optional == structure.props[j].optional
      invariant forall j :: 0 <= j < k ==>
        (structure.props[j].written.Some? && props[j].written == Some(ReplacedType(env, structure.props[j].written.value)))
      invariant forall j :: k <= j < |props| ==> props[j] == structure.props[j]
    {
      if props[k].written.None? {
        return Err(TypeError("property.type is undefined"));
      }
      var t := ReplaceAll(props[k].written.value, "Date", "string");
      if env == Host || env == NodeUserland {
        t := ReplaceAll(t, "Uint8Array", "Buffer");
      }
      props := props[k := props[k].(written := Some(t))];
    }
    assert props == ReplacedProps(env, structure.props);
    r := Ok(structure.(props := props));
  }

  /** The `if (env === ...)` chain of imports at the head of each `generate*` function. */
  method AddEnvImports(file: SourceFile, env: Env, names: seq<string>)
    modifies file
    ensures file.statements == old(file.statements) + EnvImports(env, names)
  {
    if env == DenoUserland {
      file.AddStatement(ImportStmt(ImportDecl(DenoRpcImport, names)));
    } else if env == NodeUserland {
      file.AddStatement(ImportStmt(ImportDecl("url", ["URL"])));
      file.AddStatement(ImportStmt(ImportDecl(NodeRpcImport, names)));
    } else if env == Host {
      file.AddStatement(ImportStmt(ImportDecl("url", ["URL"])));
      file.AddStatement(ImportStmt(ImportDecl(HostApiBrokerImport, names)));
    }
  }

  /** The inner loop over the parameters: `paramNames.push(param.getName())` and `addParameter(param.getStructure())`. */
  method ForwardedParams(ps: seq<Param>) returns (names: seq<string>, decls: seq<ParamDecl>)
    ensures names == ParamNames(ps) && decls == ParamStructures(ps)
    ensures |names| == |decls| == |ps|
    ensures forall i :: 0 <= i < |ps| ==>
      names[i] == decls[i].name == ps[i].name && decls[i].written == ps[i].written &&
      decls[i].questionToken == ps[i].questionToken && decls[i].rest == ps[i].rest
  {
    names, decls := [], [];
    for i := 0 to |ps|
      invariant names == ParamNames(ps[..i]) && decls == ParamStructures(ps[..i])
    {
      names := names + [ps[i].name];
      decls := decls + [ParamStructure(ps[i])];
    }
    assert ps[..|ps|] == ps;
  }

  /** One pass of the loop over the primary interface's methods. */
  method ClientMethodOf(m: MethodSig, em: ExportMapValue) returns (cm: ClassMethod)
    ensures cm == ClientMethod(m, em)
  {
    var paramNames, decls := ForwardedParams(m.params);
    if m.name == "subscribe" {
      cm := ClassMethod(m.name, decls, Join(Keys(em.events), " | "), CallSubscribe(paramNames));
    } else {
      var ret := RemoveGenerics(m.returnText);
      cm := ClassMethod(m.name, decls, "Promise<" + RemoveImport(ret) + ">", CallRpc(m.name, paramNames));
    }
  }

  /** The loop over the primary interface's methods. */
  method ClientMethodsOf(ms: seq<MethodSig>, em: ExportMapValue) returns (cms: seq<ClassMethod>)
    ensures cms == ClientMethods(ms, em)
  {
    cms := [];
    for i := 0 to |ms|
      invariant cms == ClientMethods(ms[..i], em)
    {
      var cm := ClientMethodOf(ms[i], em);
      cms := cms + [cm];
    }
    assert ms[..|ms|] == ms;
  }

  /** The `on` signatures of one emitter interface: the loop over `exportMap.events[emitterName]`. */
  method OnMethodsOf(src: Option<Iface>, events: seq<string>) returns (r: Result<seq<MethodSig>>)
    ensures r == OnMethods(src, events)
  {
    var ons: seq<MethodSig> := [];
    for j := 0 to |events|
      invariant OnMethods(src, events[..j]) == Ok(ons)
    {
      assert events[..j + 1][..j] == events[..j];
      if src.None? {
        OnMethodsErrSticks(src, events, j + 1);
        return Err(TypeError("emitterSrcIface is undefined"));
      }
      var found := FindEmitterMethod(src.value.methods, events[j]);
      if found.Err? {
        OnMethodsErrSticks(src, events, j + 1);
        return Err(found.error);
      }
      var on := OnMethod(events[j], found.value);
      if on.Err? {
        OnMethodsErrSticks(src, events, j + 1);
        return Err(on.error);
      }
      ons := ons + [on.value];
    }
    assert events[..|events|] == events;
    r := Ok(ons);
  }

  /** The loop over `exportMap.events`: one exported emitter interface each. */
  method AddEmitterIfaces(file: SourceFile, stmts: seq<Stmt>, entries: seq<(string, Dict<string>)>) returns (o: Outcome)
    modifies file
    ensures o.Pass? <==> EmitterIfaces(stmts, entries).Ok?
    ensures o.Fail? ==> o.error == EmitterIfaces(stmts, entries).error
    ensures o.Pass? ==> file.statements == old(file.statements) + EmitterIfaces(stmts, entries).value
  {
    for i := 0 to |entries|
      invariant EmitterIfaces(stmts, entries[..i]).Ok?
      invariant file.statements == old(file.statements) + EmitterIfaces(stmts, entries[..i]).value
    {
      assert entries[..i + 1][..i] == entries[..i];
      var emitterName := entries[i].0;
      var emitterSrcIface := FirstNamed(Interfaces(stmts), emitterName);
      var ons := OnMethodsOf(emitterSrcIface, Keys(entries[i].1));
      if ons.Err? {
        EmitterIfacesErrSticks(stmts, entries, i + 1);
        return Fail(ons.error);
      }
      file.AddInterface(Iface(emitterName, false, true, [], ons.value));
    }
    assert entries[..|entries|] == entries;
    o := Pass;
  }

  /** `dts.ast.forEachChild(...)`: copy interfaces (with their types replaced), aliases and enums. */
  method AddCopies(file: SourceFile, stmts: seq<Stmt>, env: Env, x: Exclusion) returns (o: Outcome)
    modifies file
    ensures o.Pass? <==> Copies(stmts, env, x).Ok?
    ensures o.Fail? ==> o.error == Copies(stmts, env, x).error
    ensures o.Pass? ==> file.statements == old(file.statements) + Copies(stmts, env, x).value
  {
    for i := 0 to |stmts|
      invariant Copies(stmts[..i], env, x).Ok?
      invariant file.statements == old(file.statements) + Copies(stmts[..i], env, x).value
    {
      assert stmts[..i + 1][..i] == stmts[..i];
      var node := stmts[i];
      match node {
        case InterfaceStmt(iface) =>
          if !Excluded(x, iface.name) {
            var t := TransformIfaceTypes(env, iface);
            if t.Err? {
              CopiesErrSticks(stmts, env, x, i + 1);
              return Fail(t.error);
            }
            file.AddInterface(t.value);
          }
        case TypeAliasStmt(_) =>
          file.AddStatement(node);
        case EnumStmt(_) =>
          file.AddStatement(node);
        case _ =>
      }
    }
    assert stmts[..|stmts|] == stmts;
    o := Pass;
  }

  /** The four `addVariableStatement` calls of the client and the server. */
  method AddApiConsts(file: SourceFile, id: string, metadata: seq<Member>, schema: Json, em: ExportMapValue)
    modifies file
    ensures file.statements == old(file.statements) + ApiConsts(id, metadata, schema, em)
  {
    file.AddStatement(IdConst(id));
    file.AddStatement(RevisionConst(metadata));
    file.AddStatement(ConstStmt(ConstDecl("SCHEMAS", InitJson(schema), false)));
    file.AddStatement(ConstStmt(ConstDecl("EXPORT_MAP", InitJson(ExportMapJson(em)), false)));
  }

  /** The four `addVariableStatement` calls of the record file. */
  method AddRecordConsts(file: SourceFile, id: string, metadata: seq<Member>, schema: Json)
    modifies file
    ensures file.statements == old(file.statements) + RecordConsts(id, metadata, schema)
  {
    file.AddStatement(IdConst(id));
    file.AddStatement(RevisionConst(metadata));
    file.AddStatement(ConstStmt(ConstDecl("JSON_SCHEMA", InitJson(schema), true)));
    file.AddStatement(ConstStmt(ConstDecl("TEMPLATES", InitJson(TemplatesValue(metadata)), true)));
  }

  /** `generateApiClient`, for the environment and the id `generate` has checked. */
  method GenerateApiClient(clientFile: SourceFile, dts: ParsedDts, schema: Json, em: ExportMapValue, env: Env, id: string)
    returns (o: Outcome)
    requires clientFile != dts.ast
    modifies clientFile
    ensures o.Pass? <==> ClientFile(dts.ast.statements, id, dts.metadata, schema, em, env).Ok?
    ensures o.Fail? ==> o.error == ClientFile(dts.ast.statements, id, dts.metadata, schema, em, env).error
    ensures o.Pass? ==> clientFile.statements == old(clientFile.statements) + ClientFile(dts.ast.statements, id, dts.metadata, schema, em, env).value
  {
    AddEnvImports(clientFile, env, ClientImportNames(env));
    AddApiConsts(clientFile, id, dts.metadata, schema, em);
    o := AddClientTail(clientFile, dts, em, env, id);
    if o.Pass? {
      AppendAssoc3(old(clientFile.statements), EnvImports(env, ClientImportNames(env)), ApiConsts(id, dts.metadata, schema, em),
             ClientTail(dts.ast.statements, id, dts.metadata, em, env).value);
    }
  }

  /** The client class, the emitter interfaces and the copies, once the constants are in place. */
  method AddClientTail(clientFile: SourceFile, dts: ParsedDts, em: ExportMapValue, env: Env, id: string) returns (o: Outcome)
    requires clientFile != dts.ast
    modifies clientFile
    ensures o.Pass? <==> ClientTail(dts.ast.statements, id, dts.metadata, em, env).Ok?
    ensures o.Fail? ==> o.error == ClientTail(dts.ast.statements, id, dts.metadata, em, env).error
    ensures o.Pass? ==> clientFile.statements == old(clientFile.statements) + ClientTail(dts.ast.statements, id, dts.metadata, em, env).value
  {
    var stmts := dts.ast.statements;
    var apiIface := FirstDefault(Interfaces(stmts));
    if apiIface.None? {
      return Fail(TypeError("apiIface is undefined"));
    }
    var stem := ClassStem(apiIface.value.name, dts.metadata, id);
    if stem.Err? {
      return Fail(stem.error);
    }
    var methods := ClientMethodsOf(apiIface.value.methods, em);
    var ctor := Ctor([], [ArgJson(JStr(id)), ArgName("SCHEMAS"), ArgName("EXPORT_MAP")]);
    clientFile.AddStatement(ClassStmt(ClassDecl(stem.value + "Client", ClientBase(env), DefaultExport, ctor, methods)));
    var emitted := AddEmitterIfaces(clientFile, stmts, em.events.entries);
    if emitted.Fail? {
      return emitted;
    }
    var copied := AddCopies(clientFile, stmts, env, Exclude(apiIface.value.name, em.events));
    if copied.Fail? {
      return copied;
    }
    ghost var cls := ClassStmt(ClientClass(stem.value, env, id, apiIface.value.methods, em));
    ghost var emitters, copies := EmitterIfaces(stmts, em.events.entries).value, Copies(stmts, env, Exclude(apiIface.value.name, em.events)).value;
    ClientTailIs(stmts, id, dts.metadata, em, env, apiIface.value, stem.value, emitters, copies);
    AppendAssoc3(old(clientFile.statements), [cls], emitters, copies);
    o := Pass;
  }

  /** The client tail once each step has succeeded. */
  lemma ClientTailIs(stmts: seq<Stmt>, id: string, metadata: seq<Member>, em: ExportMapValue, env: Env,
                     api: Iface, stem: string, emitters: seq<Stmt>, copies: seq<Stmt>)
    requires FirstDefault(Interfaces(stmts)) == Some(api)
    requires ClassStem(api.name, metadata, id) == Ok(stem)
    requires EmitterIfaces(stmts, em.events.entries) == Ok(emitters)
    requires Copies(stmts, env, Exclude(api.name, em.events)) == Ok(copies)
    ensures ClientTail(stmts, id, metadata, em, env) ==
      Ok([ClassStmt(ClientClass(stem, env, id, api.methods, em))] + emitters + copies)
  {
  }

  /** `generateApiServer`, for the environment and the id `generate` has checked. */
  method GenerateApiServer(serverFile: SourceFile, dts: ParsedDts, schema: Json, em: ExportMapValue, env: Env, id: string)
    returns (o: Outcome)
    requires serverFile != dts.ast
    modifies serverFile
    ensures o.Pass? <==> ServerFile(dts.ast.statements, id, dts.metadata, schema, em, env).Ok?
    ensures o.Fail? ==> o.error == ServerFile(dts.ast.statements, id, dts.metadata, schema, em, env).error
    ensures o.Pass? ==> serverFile.statements == old(serverFile.statements) + ServerFile(dts.ast.statements, id, dts.metadata, schema, em, env).value
  {
    AddEnvImports(serverFile, env, ServerImportNames(env));
    AddApiConsts(serverFile, id, dts.metadata, schema, em);
    o := AddServerClass(serverFile, dts, env, id);
    if o.Pass? {
      AppendAssoc3(old(serverFile.statements), EnvImports(env, ServerImportNames(env)), ApiConsts(id, dts.metadata, schema, em),
             ServerTail(dts.ast.statements, id, dts.metadata, env).value);
    }
  }

  /** The server class, once the constants are in place. */
  method AddServerClass(serverFile: SourceFile, dts: ParsedDts, env: Env, id: string) returns (o: Outcome)
    requires serverFile != dts.ast
    modifies serverFile
    ensures o.Pass? <==> ServerTail(dts.ast.statements, id, dts.metadata, env).Ok?
    ensures o.Fail? ==> o.error == ServerTail(dts.ast.statements, id, dts.metadata, env).error
    ensures o.Pass? ==> serverFile.statements == old(serverFile.statements) + ServerTail(dts.ast.statements, id, dts.metadata, env).value
  {
    var apiIface := FirstDefault(Interfaces(dts.ast.statements));
    if apiIface.None? {
      return Fail(TypeError("apiIface is undefined"));
    }
    var stem := ClassStem(apiIface.value.name, dts.metadata, id);
    if stem.Err? {
      return Fail(stem.error);
    }
    var ctor := Ctor([ParamDecl("handlers", Some(HandlersType(env)), false, false)],
                     [ArgName("SCHEMAS"), ArgName("EXPORT_MAP"), ArgName("handlers")]);
    serverFile.AddStatement(ClassStmt(ClassDecl(stem.value + "Server", ServerBase(env), DefaultExport, ctor, [])));
    o := Pass;
  }

  /** `generateRecordInterface`, for the environment and the id `generate` has checked. */
  method GenerateRecordInterface(recordFile: SourceFile, dts: ParsedDts, schema: Json, env: Env, id: string)
    returns (o: Outcome)
    requires recordFile != dts.ast
    requires forall s :: s in recordFile.statements ==> !s.InterfaceStmt?
    modifies recordFile
    ensures o.Pass? <==> RecordFile(dts.ast.statements, id, dts.metadata, schema, env).Ok?
    ensures o.Fail? ==> o.error == RecordFile(dts.ast.statements, id, dts.metadata, schema, env).error
    ensures o.Pass? ==> recordFile.statements == old(recordFile.statements) + RecordFile(dts.ast.statements, id, dts.metadata, schema, env).value
  {
    AddEnvImports(recordFile, env, RecordImportNames);
    AddRecordConsts(recordFile, id, dts.metadata, schema);
    RecordHeadHasNoInterfaces(old(recordFile.statements), env, id, dts.metadata, schema);
    o := AddRecordTail(recordFile, dts, env);
    if o.Pass? {
      AppendAssoc3(old(recordFile.statements), EnvImports(env, RecordImportNames), RecordConsts(id, dts.metadata, schema),
             RecordTail(dts.ast.statements, env).value);
    }
  }

  /** The copies and the table class, once the constants (which hold no interface) are in place. */
  method AddRecordTail(recordFile: SourceFile, dts: ParsedDts, env: Env) returns (o: Outcome)
    requires recordFile != dts.ast
    requires Interfaces(recordFile.statements) == []
    modifies recordFile
    ensures o.Pass? <==> RecordTail(dts.ast.statements, env).Ok?
    ensures o.Fail? ==> o.error == RecordTail(dts.ast.statements, env).error
    ensures o.Pass? ==> recordFile.statements == old(recordFile.statements) + RecordTail(dts.ast.statements, env).value
  {
    o := AddCopies(recordFile, dts.ast.statements, env, NoExclusion);
    if o.Pass? {
      ghost var copies := Copies(dts.ast.statements, env, NoExclusion).value;
      MainAmongCopies(old(recordFile.statements), copies);
      o := AddRecordTable(recordFile);
      if o.Pass? {
        ghost var main := FirstDefault(Interfaces(copies)).value;
        assert recordFile.statements == old(recordFile.statements) + copies + [ClassStmt(RecordTable(main.name))];
      }
    }
  }

  /** `recordFile.getInterface(iface => iface.isDefaultExport())` and the table class named after it. */
  method AddRecordTable(recordFile: SourceFile) returns (o: Outcome)
    modifies recordFile
    ensures o.Pass? <==> FirstDefault(Interfaces(old(recordFile.statements))).Some?
    ensures o.Fail? ==> o.error == TypeError("mainIface is undefined")
    ensures o.Pass? ==>
      recordFile.statements == old(recordFile.statements) + [ClassStmt(RecordTable(FirstDefault(Interfaces(old(recordFile.statements))).value.name))]
  {
    var mainIface := FirstDefault(Interfaces(recordFile.statements));
    if mainIface.None? {
      return Fail(TypeError("mainIface is undefined"));
    }
    recordFile.AddStatement(ClassStmt(RecordTable(mainIface.value.name)));
    o := Pass;
  }

  lemma RecordHeadHasNoInterfaces(s: seq<Stmt>, env: Env, id: string, metadata: seq<Member>, schema: Json)
    requires forall t :: t in s ==> !t.InterfaceStmt?
    ensures Interfaces(s + EnvImports(env, RecordImportNames) + RecordConsts(id, metadata, schema)) == []
  {
    NoInterfaces(s);
    NoInterfaces(EnvImports(env, RecordImportNames));
    NoInterfaces(RecordConsts(id, metadata, schema));
    InterfacesAppend(s, EnvImports(env, RecordImportNames));
    InterfacesAppend(s + EnvImports(env, RecordImportNames), RecordConsts(id, metadata, schema));
  }

  lemma MainAmongCopies(before: seq<Stmt>, copies: seq<Stmt>)
    requires Interfaces(before) == []
    ensures FirstDefault(Interfaces(before + copies)) == FirstDefault(Interfaces(copies))
  {
    InterfacesAppend(before, copies);
    FirstDefaultSkipsNone(Interfaces(before), Interfaces(copies));
  }

  lemma NoInterfaces(s: seq<Stmt>)
    requires forall t :: t in s ==> !t.InterfaceStmt?
    ensures Interfaces(s) == []
  {

  }

  /** The interfaces ahead of the copies are not defaults, so the first default is found among the copies. */
  lemma {:induction false} FirstDefaultSkipsNone(a: seq<Iface>, b: seq<Iface>)
    requires forall k :: 0 <= k < |a| ==> !a[k].isDefault
    ensures FirstDefault(a + b) == FirstDefault(b)
    decreases |a|
  {
    if a != [] {
      assert (a + b)[1..] == a[1..] + b;
      FirstDefaultSkipsNone(a[1..], b);
    } else {
      assert a + b == b;
    }
  }

  /** `generate`. */
  method Generate(dts: ParsedDts, schema: Json, exportMap: ExportMap, opts: Option<GenerateOpts>) returns (r: Result<seq<Artifact>>)
    ensures r == GeneratedAsWritten(dts.metadata, dts.ast.statements, schema, exportMap.Value(), opts)
  {
    var em := exportMap.Value();
    if EnvGiven(opts) && ParseEnv(opts.value.env.value).None? {
      return Err(InvalidEnvironment(opts.value.env.value));
    }
    r := GenerateIn(dts, schema, em, opts, ResolveEnv(opts).value);
  }

  /** `generate` once the environment is known to be valid: the id's name, then the branch on the type. */
  method GenerateIn(dts: ParsedDts, schema: Json, em: ExportMapValue, opts: Option<GenerateOpts>, env: Env)
    returns (r: Result<seq<Artifact>>)
    requires ResolveEnv(opts) == Ok(env)
    ensures r == GeneratedAsWritten(dts.metadata, dts.ast.statements, schema, em, opts)
  {
    var idOf := IdOf(dts.metadata);
    if idOf.Err? {
      return Err(idOf.error);
    }
    var id := idOf.value;
    var name := SplitFirst(id, '/').1.GetOr("undefined");
    r := GenerateKind(dts, schema, em, env, id, name, PreludeAsWritten(opts));
    GeneratedIs(PreludeAsWritten(opts), dts.metadata, dts.ast.statements, schema, em, opts, env, id);
  }

  /**
   * The branch on `dts.metadata.type`: an `api` document, an `adb-record`
   * document, or an error. The prelude is evaluated inside the first two
   * branches, so its failure is not reached for an unknown type.
   */
  method GenerateKind(dts: ParsedDts, schema: Json, em: ExportMapValue, env: Env, id: string, name: string, prelude: Result<string>)
    returns (r: Result<seq<Artifact>>)
    ensures r == Assemble(MemberValue(dts.metadata, "type"), name, prelude,
      ClientFile(dts.ast.statements, id, dts.metadata, schema, em, env), ServerFile(dts.ast.statements, id, dts.metadata, schema, em, env),
      RecordFile(dts.ast.statements, id, dts.metadata, schema, env))
  {
    var kind := MemberValue(dts.metadata, "type");
    if kind == Defined(JStr("api")) {
      if prelude.Err? {
        return Err(prelude.error);
      }
      r := GenerateApi(dts, schema, em, env, id, name, prelude.value);
    } else if kind == Defined(JStr("adb-record")) {
      if prelude.Err? {
        return Err(prelude.error);
      }
      r := GenerateRecord(dts, schema, env, id, name, prelude.value);
    } else {
      r := Err(UnknownSchemaType);
    }
  }

  /** `generate` once the environment and the id are known. */
  lemma GeneratedIs(prelude: Result<string>, metadata: seq<Member>, stmts: seq<Stmt>, schema: Json, em: ExportMapValue, opts: Option<GenerateOpts>, env: Env, id: string)
    requires ResolveEnv(opts) == Ok(env) && IdOf(metadata) == Ok(id)
    ensures GeneratedWith(prelude, metadata, stmts, schema, em, opts) ==
      Assemble(MemberValue(metadata, "type"), OutputName(id), prelude,
        ClientFile(stmts, id, metadata, schema, em, env), ServerFile(stmts, id, metadata, schema, em, env),
        RecordFile(stmts, id, metadata, schema, env))
  {
  }

  /** The `api` branch of `generate`: a client file, then a server file, each in a new source file. */
  method GenerateApi(dts: ParsedDts, schema: Json, em: ExportMapValue, env: Env, id: string, name: string, prelude: string)
    returns (r: Result<seq<Artifact>>)
    ensures r == ApiArtifacts(name, prelude, ClientFile(dts.ast.statements, id, dts.metadata, schema, em, env),
      ServerFile(dts.ast.statements, id, dts.metadata, schema, em, env))
  {
    var clientFile := new SourceFile([CommentStmt(prelude)]);
    var client := GenerateApiClient(clientFile, dts, schema, em, env, id);
    if client.Fail? {
      return Err(client.error);
    }
    var serverFile := new SourceFile([CommentStmt(prelude)]);
    var server := GenerateApiServer(serverFile, dts, schema, em, env, id);
    if server.Fail? {
      return Err(server.error);
    }
    return Ok([Artifact(name + ".ts", clientFile.statements), Artifact(name + ".server.ts", serverFile.statements)]);
  }

  /** The `adb-record` branch of `generate`: one record file. */
  method GenerateRecord(dts: ParsedDts, schema: Json, env: Env, id: string, name: string, prelude: string)
    returns (r: Result<seq<Artifact>>)
    ensures r == RecordArtifacts(name, prelude, RecordFile(dts.ast.statements, id, dts.metadata, schema, env))
  {
    var recordFile := new SourceFile([CommentStmt(prelude)]);
    var rec := GenerateRecordInterface(recordFile, dts, schema, env, id);
    if rec.Fail? {
      return Err(rec.error);
    }
    return Ok([Artifact(name + ".ts", recordFile.statements)]);
  }
}
