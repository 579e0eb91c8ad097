/**
 * `index.js`: the earlier generator, driven by a JSON schema document rather
 * than by a `.d.ts` file. The schema's `$ref`s are resolved in place first;
 * then an `api` schema yields a JSON-RPC client file and a server file, and an
 * `adb-record` schema yields one file of types. Type declarations for object
 * schemas are written by the foreign json-schema-to-dts compiler and appear
 * here as `GeneratedTypesStmt(name, schema)`.
 *
 * The functions specify each file; the methods build the client file step by
 * step, as the source does, and are proved to agree with them.
 */
module Legacy {
  import opened Js
  import opened Strings
  import opened Util
  import opened Ast
  import opened JsonHeap
  import opened Resolve
  import opened ResolveProps
  import Parse
  import Tsgen = Generate

  const JsonRpcModuleUrl: string := "https://raw.githubusercontent.com/pfrazee/deno-schema-rpc/master/mod.ts"

  /** The text every generated file starts with. */
  const Prelude: string := "\n// Generated file\n"

  // ---------------------------------------------------------------------------
  // Reading the schema

  /**
   * `j[key]` on a JSON value that is neither `undefined` nor `null`: an
   * object's member, `undefined` on any other value. The keys the generator
   * reads (`type`, `id`, `title`, `definition`, `methods`, `response`,
   * `params`, `items`, `name`) are provided by no prototype of a JSON value.
   */
  function Field(j: Json, key: string): (r: JsValue)
    ensures r.Defined? <==> j.JObj? && MemberValue(j.members, key).Defined?
    ensures j.JObj? ==> r == MemberValue(j.members, key)
  {
    if j.JObj? then MemberValue(j.members, key) else Undefined
  }

  /** `v[key]`: a TypeError on `undefined` or `null`, the field otherwise. */
  function ReadProp(v: JsValue, key: string): (r: Result<JsValue>)
    ensures r.Err? <==> v.Undefined? || v == Defined(JNull)
    ensures r.Ok? ==> r.value == Field(v.json, key)
  {
    match v
    case Undefined => Err(TypeError("Cannot read properties of undefined (reading '" + key + "')"))
    case Defined(j) =>
      if j.JNull? then Err(TypeError("Cannot read properties of null (reading '" + key + "')")) else Ok(Field(j, key))
  }

  /** `v[key]` on a heap value that is neither `null` nor a dangling reference, `None` standing for `undefined`. */
  function HeapField(objs: seq<Obj>, v: Val, key: string): (r: Option<Val>)
    ensures r.Some? ==> v.VRef? && v.addr < |objs| && SlotIndex(objs[v.addr].slots, key).Some?
  {
    if v.VRef? && v.addr < |objs| then SlotValue(objs[v.addr].slots, key) else None
  }

  /** `v[key]` on a heap value: a TypeError on `null`, the field otherwise. */
  function HeapReadProp(objs: seq<Obj>, v: Val, key: string): (r: Result<Option<Val>>)
    ensures r.Err? <==> v.VNull? || (v.VRef? && v.addr >= |objs|)
    ensures r.Ok? ==> r.value == HeapField(objs, v, key)
  {
    match v
    case VNull => Err(TypeError("Cannot read properties of null (reading '" + key + "')"))
    case VRef(a) =>
      if a < |objs| then Ok(HeapField(objs, v, key)) else Err(NotModelled("a reference outside the heap"))
    case _ => Ok(None)
  }

  /** `String(n)` for an integer. */
  function NumberText(n: int): string {
    if n < 0 then "-" + DecimalString(-n) else DecimalString(n)
  }

  /** A heap value inside a template literal (`${v}`); `None` is `undefined`. */
  function ValText(objs: seq<Obj>, v: Option<Val>): Result<string> {
    match v
    case None => Ok("undefined")
    case Some(x) =>
      match x
      case VNull => Ok("null")
      case VBool(b) => Ok(if b then "true" else "false")
      case VNum(n) => Ok(NumberText(n))
      case VStr(s) => Ok(s)
      case VRef(a) =>
        if a < |objs| && !objs[a].isArray then Ok("[object Object]") else Err(NotModelled("an array inside a template literal"))
  }

  /** A JSON value inside a template literal. */
  function JsonText(v: JsValue): Result<string> {
    match v
    case Undefined => Ok("undefined")
    case Defined(j) =>
      match j
      case JNull => Ok("null")
      case JBool(b) => Ok(if b then "true" else "false")
      case JNum(n) => Ok(NumberText(n))
      case JStr(s) => Ok(s)
      case JObj(_) => Ok("[object Object]")
      case JArr(_) => Err(NotModelled("an array inside a template literal"))
  }

  /** `a || b` */
  function OrVal(a: Option<Val>, b: Option<Val>): (r: Option<Val>)
    ensures r == a || r == b
  {
    if a.Some? && TruthyVal(a.value) then a else b
  }

  /** `toSafeString(v)`: only a string has a `replace` method. */
  function SafeStringOf(v: Option<Val>): (r: Result<string>)
    ensures r.Ok? <==> v.Some? && v.value.VStr?
    ensures r.Ok? ==> r.value == ToSafeString(v.value.s)
  {
    match v
    case None => Err(TypeError("Cannot read properties of undefined (reading 'replace')"))
    case Some(x) =>
      match x
      case VNull => Err(TypeError("Cannot read properties of null (reading 'replace')"))
      case VStr(s) => Ok(ToSafeString(s))
      case _ => Err(TypeError("str.replace is not a function"))
  }

  /** `toSafeString(schema.title || schema.id || '')`, the stem of both class names. */
  function ClassStem(objs: seq<Obj>, schema: Val): Result<string> {
    var title :- HeapReadProp(objs, schema, "title");
    var id := HeapField(objs, schema, "id");
    SafeStringOf(OrVal(title, OrVal(id, Some(VStr("")))))
  }

  /** `JSON.stringify(schema)`: the document the heap value denotes; a cycle throws. */
  function Stringified(objs: seq<Obj>, schema: Val): Result<Json> {
    ReadBack(objs, schema, |objs|)
  }

  // ---------------------------------------------------------------------------
  // Parameters and their types

  /** `jsonSchemaToParams(def)`: the parameter schemas of a method. */
  function ParamsOf(def: JsValue): (r: JsValue)
    ensures !TruthyValue(def) ==> r.Undefined?
    ensures TruthyValue(def) && def.json.JArr? ==> r == def
  {
    if !TruthyValue(def) then Undefined
    else if def.json.JArr? then def
    else if def.json.JObj? && MemberValue(def.json.members, "type") == Defined(JStr("array")) then
      MemberValue(def.json.members, "items")
    else Defined(JArr([def.json]))
  }

  /** `params[0]`, ..., `params[params?.length - 1]`: what the parameter loop visits. */
  function ParamElements(params: JsValue): (r: Result<seq<JsValue>>)
    ensures params.Defined? && params.json.JArr? ==> r == Ok(seq(|params.json.items|, i requires 0 <= i < |params.json.items| => Defined(params.json.items[i])))
  {
    match params
    case Undefined => Ok([])
    case Defined(j) =>
      match j
      case JArr(items) => Ok(seq(|items|, i requires 0 <= i < |items| => Defined(items[i])))
      case JStr(s) => Ok(seq(|s|, i requires 0 <= i < |s| => Defined(JStr([s[i]]))))
      case JObj(ms) =>
        if MemberValue(ms, "length").Undefined? then Ok([])
        else Err(NotModelled("an object with a length property as a parameter list"))
      case _ => Ok([])
  }

  /** `params[i].name || 'arg' + i` */
  function ParamName(p: JsValue, i: nat): (r: Result<string>)
    ensures r.Err? <==> (p.Undefined? || p == Defined(JNull) ||
      (TruthyValue(Field(p.json, "name")) && !Field(p.json, "name").json.JStr?))
  {
    var n :- ReadProp(p, "name");
    if TruthyValue(n) then
      if n.json.JStr? then Ok(n.json.s) else Err(NotModelled("a parameter name that is not a string"))
    else Ok("arg" + DecimalString(i))
  }

  /** `'oneOf' in def`; `in` on a primitive throws. */
  function HasOneOf(j: Json): Result<bool> {
    match j
    case JObj(ms) => Ok(MemberValue(ms, "oneOf").Defined?)
    case JArr(_) => Ok(false)
    case _ => Err(TypeError("Cannot use 'in' operator to search for 'oneOf'"))
  }

  /** A type: the value the generator writes as a type, and the declarations it had generated for it. */
  datatype Typed = Typed(typeValue: JsValue, decls: seq<Stmt>)

  /** The type name json-schema-to-dts is asked to declare for a parameter. */
  function TypeName(methodName: string, paramName: string): string {
    ToSafeString(methodName + "_" + paramName)
  }

  /** `generateParamType(sourceFile, methodName, paramName, def)` */
  function ParamType(methodName: string, paramName: string, def: JsValue): (r: Result<Typed>)
    ensures !TruthyValue(def) ==> r == Ok(Typed(Defined(JStr("undefined")), []))
    ensures TruthyValue(def) && def.json.JObj? && MemberValue(def.json.members, "type") == Defined(JStr("array")) ==>
      r == Err(ArrayParametersTodo)
    ensures r.Ok? && r.value.decls != [] ==>
      r.value == Typed(Defined(JStr(TypeName(methodName, paramName))), [GeneratedTypesStmt(TypeName(methodName, paramName), def)])
  {
    if !TruthyValue(def) then Ok(Typed(Defined(JStr("undefined")), []))
    else
      var t := Field(def.json, "type");
      if t == Defined(JStr("array")) then Err(ArrayParametersTodo)
      else
        var isObject := t == Defined(JStr("object"));
        var oneOf :- if isObject then Ok(true) else HasOneOf(def.json);
        if isObject || oneOf then
          var name := TypeName(methodName, paramName);
          Ok(Typed(Defined(JStr(name)), [GeneratedTypesStmt(name, def)]))
        else Ok(Typed(t, []))
  }

  /** One parameter: its name, its type (`param.setType` takes only a string here) and the declarations generated for it. */
  function ParamAt(methodName: string, p: JsValue, i: nat): Result<(ParamDecl, seq<Stmt>)> {
    var name :- ParamName(p, i);
    var ty :- ParamType(methodName, name, p);
    if ty.typeValue.Defined? && ty.typeValue.json.JStr? then Ok((ParamDecl(name, Some(ty.typeValue.json.s), false, false), ty.decls))
    else Err(NotModelled("a parameter type that is not a string"))
  }

  /**
   * The items of the first `n` results and the declarations generated for
   * them, in order, or the first error: the loops of `generateApiClient` stop
   * at the first exception.
   */
  function Collect<T>(rs: seq<Result<(T, seq<Stmt>)>>, n: nat): (r: Result<(seq<T>, seq<Stmt>)>)
    requires n <= |rs|
  {
    if n == 0 then Ok(([], []))
    else
      var prev :- Collect(rs, n - 1);
      var one :- rs[n - 1];
      Ok((prev.0 + [one.0], prev.1 + one.1))
  }

  /** Once a result is an error, every longer prefix fails with the first error. */
  lemma {:induction false} CollectStuck<T>(rs: seq<Result<(T, seq<Stmt>)>>, i: nat, n: nat)
    requires i < n <= |rs| && Collect(rs, i + 1).Err?
    ensures Collect(rs, n) == Collect(rs, i + 1)
    decreases n
  {
    if n > i + 1 {
      CollectStuck(rs, i, n - 1);
    }
  }

  /** One more successful result extends the items and the declarations collected so far. */
  lemma CollectStep<T>(rs: seq<Result<(T, seq<Stmt>)>>, i: nat, one: (T, seq<Stmt>))
    requires i < |rs| && Collect(rs, i).Ok? && rs[i] == Ok(one)
    ensures Collect(rs, i + 1) == Ok((Collect(rs, i).value.0 + [one.0], Collect(rs, i).value.1 + one.1))
  {
  }

  /** A failed result ends the collection with its error. */
  lemma CollectFails<T>(rs: seq<Result<(T, seq<Stmt>)>>, i: nat)
    requires i < |rs| && Collect(rs, i).Ok? && rs[i].Err?
    ensures Collect(rs, i + 1) == Err(rs[i].error)
  {
  }

  /** What each turn of the parameter loop produces. */
  function ParamResults(methodName: string, elems: seq<JsValue>): (r: seq<Result<(ParamDecl, seq<Stmt>)>>)
    ensures |r| == |elems| && forall i :: 0 <= i < |elems| ==> r[i] == ParamAt(methodName, elems[i], i)
  {
    seq(|elems|, i requires 0 <= i < |elems| => ParamAt(methodName, elems[i], i))
  }

  /** The names of the parameters, in order. */
  function Names(ps: seq<ParamDecl>): (r: seq<string>)
    ensures |r| == |ps| && forall i :: 0 <= i < |ps| ==> r[i] == ps[i].name
  {
    seq(|ps|, i requires 0 <= i < |ps| => ps[i].name)
  }

  lemma NamesAppend(ps: seq<ParamDecl>, p: ParamDecl)
    ensures Names(ps + [p]) == Names(ps) + [p.name]
  {
  }

  // ---------------------------------------------------------------------------
  // The client file

  /** What a client method gets before its parameters: its return type, the declarations generated for it, and the parameter schemas. */
  datatype Head = Head(returnType: string, decls: seq<Stmt>, elems: seq<JsValue>)

  /** `methodDef.response` typed as `Promise<...>`, and `jsonSchemaToParams(methodDef.params)`. */
  function MethodHead(methodName: string, def: JsValue): Result<Head> {
    var response :- ReadProp(def, "response");
    var ret :- ParamType(methodName, "Response", response);
    var retText :- JsonText(ret.typeValue);
    var elems :- ParamElements(ParamsOf(Field(def.json, "params")));
    Ok(Head("Promise<" + retText + ">", ret.decls, elems))
  }

  /** The client method for `methods[methodName]`, and the declarations generated for its types. */
  function MethodOf(methodName: string, def: JsValue): Result<(ClassMethod, seq<Stmt>)> {
    var head :- MethodHead(methodName, def);
    var ps :- Collect(ParamResults(methodName, head.elems), |head.elems|);
    Ok((ClassMethod(methodName, ps.0, head.returnType, CallRpc(methodName, Names(ps.0))), head.decls + ps.1))
  }

  /** What each turn of the `for…in` loop over `definition.methods` produces. */
  function MethodResults(entries: seq<Member>): (r: seq<Result<(ClassMethod, seq<Stmt>)>>)
    ensures |r| == |entries| && forall i :: 0 <= i < |entries| ==> r[i] == MethodOf(entries[i].key, Defined(entries[i].value))
  {
    seq(|entries|, i requires 0 <= i < |entries| => MethodOf(entries[i].key, Defined(entries[i].value)))
  }

  /** `for (const methodName in schema.definition.methods)`: the entries the loop visits. */
  function MethodEntries(schema: Json): Result<seq<Member>> {
    var definition :- ReadProp(Defined(schema), "definition");
    var methods :- ReadProp(definition, "methods");
    Ok(Parse.OwnEntries(methods))
  }

  function ClientClass(stem: string, schema: Json, methods: seq<ClassMethod>): ClassDecl {
    ClassDecl(stem + "Client", "JsonRpcClient", NotExported, Ctor([], [ArgJson(schema)]), methods)
  }

  /** The end of the client file: `const client: <Class> = new <Class>()` and `export default client`. */
  function ClientExport(stem: string): seq<Stmt> {
    [VarStmt("client", stem + "Client", "new " + stem + "Client()"), ExportAssignmentStmt("client")]
  }

  /** `generateApiClient`: what it appends to the client file. */
  function ClientTail(objs: seq<Obj>, schema: Val): Result<seq<Stmt>> {
    var stem :- ClassStem(objs, schema);
    var json :- Stringified(objs, schema);
    var entries :- MethodEntries(json);
    var built :- Collect(MethodResults(entries), |entries|);
    Ok([ImportStmt(ImportDecl(JsonRpcModuleUrl, ["JsonRpcClient"])), ClassStmt(ClientClass(stem, json, built.0))] + built.1 + ClientExport(stem))
  }

  // ---------------------------------------------------------------------------
  // The server and record files

  function ServerClass(stem: string, schema: Json): ClassDecl {
    ClassDecl(stem + "Server", "JsonRpcServer", DefaultExport,
      Ctor([ParamDecl("handlers", Some("JsonRpcServerHandlers"), false, false)], [ArgJson(schema), ArgName("handlers")]), [])
  }

  /** `generateApiServer`: what it appends to the server file. */
  function ServerTail(objs: seq<Obj>, schema: Val): Result<seq<Stmt>> {
    var stem :- ClassStem(objs, schema);
    var json :- Stringified(objs, schema);
    Ok([ImportStmt(ImportDecl(JsonRpcModuleUrl, ["JsonRpcServer", "JsonRpcServerHandlers"])), ClassStmt(ServerClass(stem, json))])
  }

  /** The record branch: the types of `schema.definition` under `toSafeString(schema.title || schema.id)`. */
  function RecordTail(objs: seq<Obj>, schema: Val): Result<seq<Stmt>> {
    var title :- HeapReadProp(objs, schema, "title");
    var id := HeapField(objs, schema, "id");
    var name :- SafeStringOf(OrVal(title, id));
    var definition := HeapField(objs, schema, "definition");
    var def :- match definition
      case None => Ok(Undefined)
      case Some(v) =>
        match ReadBack(objs, v, |objs|)
        case Ok(j) => Ok(Defined(j))
        case Err(_) => Err(NotModelled("json-schema-to-dts on a circular schema"));
    Ok([GeneratedTypesStmt(name, def)])
  }

  // ---------------------------------------------------------------------------
  // generate

  /** The files of a resolved schema, by its `type`. */
  function FilesOf(objs: seq<Obj>, schema: Val): Result<seq<Tsgen.Artifact>> {
    var kind :- HeapReadProp(objs, schema, "type");
    if kind == Some(VStr("api")) then
      var id := HeapField(objs, schema, "id");
      var idText :- ValText(objs, id);
      var client :- ClientTail(objs, schema);
      var server :- ServerTail(objs, schema);
      Ok([Tsgen.Artifact(idText + ".ts", [OtherStmt(Prelude)] + client), Tsgen.Artifact(idText + ".server.ts", [OtherStmt(Prelude)] + server)])
    else if kind == Some(VStr("adb-record")) then
      var id := HeapField(objs, schema, "id");
      var idText :- ValText(objs, id);
      var rec :- RecordTail(objs, schema);
      Ok([Tsgen.Artifact(idText + ".ts", [OtherStmt(Prelude)] + rec)])
    else Err(UnknownSchemaType)
  }

  /**
   * `generate(schema)` on a parsed schema document, with references resolved
   * in the given mode: the document is put on a fresh heap, its references are
   * resolved in place, and the files are generated from what the heap then holds.
   */
  function GeneratedIn(mode: Mode, doc: Json, fetch: Fetch, fuel: nat): Result<seq<Tsgen.Artifact>> {
    var loaded := Load([], doc);
    var objs :- Resolved(mode, loaded.0, loaded.1, None, fetch, fuel, doc);
    FilesOf(objs, loaded.1)
  }

  /** `generate(schema)` as written: `resolveRefs` reads `$ref` of every property, `null` ones included. */
  function Generated(doc: Json, fetch: Fetch, fuel: nat): Result<seq<Tsgen.Artifact>> {
    GeneratedIn(AsWritten, doc, fetch, fuel)
  }

  // ---------------------------------------------------------------------------
  // The generator, step by step

  /** `generateApiClient(clientFile, schema)` */
  method GenerateApiClient(file: SourceFile, objs: seq<Obj>, schema: Val) returns (o: Outcome)
    modifies file
    ensures var t := ClientTail(objs, schema);
      (o.Pass? <==> t.Ok?) && (o.Fail? ==> t == Err(o.error)) && (t.Ok? ==> file.statements == old(file.statements) + t.value)
  {
    var importStmt := ImportStmt(ImportDecl(JsonRpcModuleUrl, ["JsonRpcClient"]));
    file.AddStatement(importStmt);
    var stem := ClassStem(objs, schema);
    if stem.Err? {
      return Fail(stem.error);
    }
    var json := Stringified(objs, schema);
    if json.Err? {
      return Fail(json.error);
    }
    var entries := MethodEntries(json.value);
    if entries.Err? {
      return Fail(entries.error);
    }
    var at := |file.statements|;
    file.AddStatement(ClassStmt(ClientClass(stem.value, json.value, [])));
    ghost var s1 := file.statements;
    o := AddClientMethods(file, at, stem.value, json.value, entries.value);
    if o.Fail? {
      return;
    }
    ghost var built := Collect(MethodResults(entries.value), |entries.value|).value;
    ghost var head := [importStmt, ClassStmt(ClientClass(stem.value, json.value, built.0))];
    assert s1[at := head[1]] == old(file.statements) + head;
    file.AddStatements(ClientExport(stem.value));
    AppendAssoc3(old(file.statements), head, built.1, ClientExport(stem.value));
    assert ClientTail(objs, schema) == Ok(head + built.1 + ClientExport(stem.value));
    o := Pass;
  }

  /** The `for…in` loop of `generateApiClient` over `definition.methods`: methods go into the class at `at`, their types after it. */
  method AddClientMethods(file: SourceFile, at: nat, stem: string, json: Json, entries: seq<Member>) returns (o: Outcome)
    requires at < |file.statements| && file.statements[at] == ClassStmt(ClientClass(stem, json, []))
    modifies file
    ensures var c := Collect(MethodResults(entries), |entries|);
      (o.Pass? <==> c.Ok?) && (o.Fail? ==> c == Err(o.error)) &&
      (c.Ok? ==> file.statements == old(file.statements)[at := ClassStmt(ClientClass(stem, json, c.value.0))] + c.value.1)
  {
    ghost var s0 := file.statements;
    ghost var results := MethodResults(entries);
    o := Pass;
    UpdateSame(s0, at);
    assert s0 == s0[at := ClassStmt(ClientClass(stem, json, Collect(results, 0).value.0))] + Collect(results, 0).value.1;
    var i := 0;
    while i < |entries|
      invariant i <= |entries| && o == Pass
      invariant Collect(results, i).Ok?
      invariant file.statements == s0[at := ClassStmt(ClientClass(stem, json, Collect(results, i).value.0))] + Collect(results, i).value.1
    {
      ghost var s := file.statements;
      assert s[at] == ClassStmt(ClientClass(stem, json, Collect(results, i).value.0));
      o := AddClientMethod(file, at, entries[i].key, Defined(entries[i].value));
      if o.Fail? {
        assert Collect(results, i + 1) == Err(o.error);
        CollectStuck(results, i, |entries|);
        return;
      }
      ClientMethodAdded(s0, s, file.statements, at, stem, json, results, i);
      i := i + 1;
    }
  }

  /** A method that was added keeps the shape the loop of `generateApiClient` maintains. */
  lemma ClientMethodAdded(s0: seq<Stmt>, s: seq<Stmt>, s': seq<Stmt>, at: nat, stem: string, json: Json,
                          results: seq<Result<(ClassMethod, seq<Stmt>)>>, i: nat)
    requires at < |s0| && i < |results| && Collect(results, i).Ok? && results[i].Ok?
    requires s == s0[at := ClassStmt(ClientClass(stem, json, Collect(results, i).value.0))] + Collect(results, i).value.1
    requires s' == s[at := ClassStmt(s[at].classDecl.(methods := s[at].classDecl.methods + [results[i].value.0]))] + results[i].value.1
    ensures Collect(results, i + 1).Ok?
    ensures s' == s0[at := ClassStmt(ClientClass(stem, json, Collect(results, i + 1).value.0))] + Collect(results, i + 1).value.1
  {
    var built := Collect(results, i).value;
    var one := results[i].value;
    assert Collect(results, i + 1) == Ok((built.0 + [one.0], built.1 + one.1));
    var cls := ClientClass(stem, json, built.0);
    var next := ClassStmt(ClientClass(stem, json, built.0 + [one.0]));
    assert s[at] == ClassStmt(cls);
    RewriteThenAppend(s0, at, ClassStmt(cls), next, built.1, one.1);
  }

  /** One turn of the `for…in` loop of `generateApiClient`: the method `methods[name]` and the types it needs. */
  method AddClientMethod(file: SourceFile, at: nat, name: string, def: JsValue) returns (o: Outcome)
    requires at < |file.statements| && file.statements[at].ClassStmt?
    modifies file
    ensures var m := MethodOf(name, def);
      (o.Pass? <==> m.Ok?) && (o.Fail? ==> m == Err(o.error)) &&
      (m.Ok? ==> file.statements == old(file.statements)[at := ClassStmt(old(file.statements[at].classDecl).(methods := old(file.statements[at].classDecl.methods) + [m.value.0]))] + m.value.1)
  {
    ghost var s0 := file.statements;
    var head := MethodHead(name, def);
    if head.Err? {
      return Fail(head.error);
    }
    file.AddStatements(head.value.decls);
    var params, paramNames;
    o, params, paramNames := AddParams(file, name, head.value.elems);
    if o.Fail? {
      return;
    }
    ghost var ps := Collect(ParamResults(name, head.value.elems), |head.value.elems|).value;
    MethodOfIs(name, def, head.value, ps);
    AppendAssoc(s0, head.value.decls, ps.1);
    var m := ClassMethod(name, params, head.value.returnType, CallRpc(name, paramNames));
    file.AddMethod(at, m);
    AddMethodThenAppend(s0, head.value.decls + ps.1, at, m);
  }

  /** The method and the declarations one turn produces, once its head and its parameters are known. */
  lemma MethodOfIs(name: string, def: JsValue, head: Head, ps: (seq<ParamDecl>, seq<Stmt>))
    requires MethodHead(name, def) == Ok(head)
    requires Collect(ParamResults(name, head.elems), |head.elems|) == Ok(ps)
    ensures MethodOf(name, def) == Ok((ClassMethod(name, ps.0, head.returnType, CallRpc(name, Names(ps.0))), head.decls + ps.1))
  {
  }

  /** Adding a method to the class at `at` commutes with appending statements after it. */
  lemma AddMethodThenAppend(s0: seq<Stmt>, tail: seq<Stmt>, at: nat, m: ClassMethod)
    requires at < |s0| && s0[at].ClassStmt?
    ensures (s0 + tail)[at] == s0[at]
    ensures (s0 + tail)[at := ClassStmt(s0[at].classDecl.(methods := s0[at].classDecl.methods + [m]))]
      == s0[at := ClassStmt(s0[at].classDecl.(methods := s0[at].classDecl.methods + [m]))] + tail
  {
    UpdateAppend(s0, tail, at, ClassStmt(s0[at].classDecl.(methods := s0[at].classDecl.methods + [m])));
  }

  lemma UpdateTwice<X>(a: seq<X>, at: nat, x: X, y: X)
    requires at < |a|
    ensures a[at := x][at := y] == a[at := y]
  {
  }

  lemma UpdateSame<X>(a: seq<X>, at: nat)
    requires at < |a|
    ensures a[at := a[at]] == a && a + [] == a
  {
  }

  /** Rewriting the class and appending declarations, step after step. */
  lemma RewriteThenAppend<X>(s0: seq<X>, at: nat, x: X, y: X, b: seq<X>, c: seq<X>)
    requires at < |s0|
    ensures (s0[at := x] + b)[at := y] + c == s0[at := y] + (b + c)
  {
    UpdateAppend(s0[at := x], b, at, y);
    UpdateTwice(s0, at, x, y);
    AppendAssoc(s0[at := y], b, c);
  }

  lemma UpdateAppend<X>(a: seq<X>, b: seq<X>, at: nat, x: X)
    requires at < |a|
    ensures (a + b)[at := x] == a[at := x] + b
  {
  }

  /** The parameter loop of `generateApiClient`: each parameter's name, its type, and the types declared for it. */
  method AddParams(file: SourceFile, name: string, elems: seq<JsValue>) returns (o: Outcome, params: seq<ParamDecl>, paramNames: seq<string>)
    modifies file
    ensures var c := Collect(ParamResults(name, elems), |elems|);
      (o.Pass? <==> c.Ok?) && (o.Fail? ==> c == Err(o.error)) &&
      (c.Ok? ==> params == c.value.0 && paramNames == Names(params) && file.statements == old(file.statements) + c.value.1)
  {
    ghost var results := ParamResults(name, elems);
    ghost var built: (seq<ParamDecl>, seq<Stmt>) := ([], []);
    params := [];
    paramNames := [];
    var i := 0;
    while i < |elems|
      invariant i <= |elems|
      invariant Collect(results, i) == Ok(built) && built.0 == params
      invariant paramNames == Names(params)
      invariant file.statements == old(file.statements) + built.1
    {
      var one := AddParam(file, name, elems[i], i);
      assert results[i] == one;
      if one.Err? {
        CollectFails(results, i);
        CollectStuck(results, i, |elems|);
        return Fail(one.error), params, paramNames;
      }
      CollectStep(results, i, one.value);
      AppendAssoc(old(file.statements), built.1, one.value.1);
      NamesAppend(params, one.value.0);
      built := (built.0 + [one.value.0], built.1 + one.value.1);
      params := params + [one.value.0];
      paramNames := paramNames + [one.value.0.name];
      i := i + 1;
    }
    o := Pass;
  }

  /** One turn of the parameter loop: `method.addParameter`, the declarations of its type, and `param.setType`. */
  method AddParam(file: SourceFile, name: string, p: JsValue, i: nat) returns (r: Result<(ParamDecl, seq<Stmt>)>)
    modifies file
    ensures r == ParamAt(name, p, i)
    ensures r.Ok? ==> file.statements == old(file.statements) + r.value.1
  {
    var paramName := ParamName(p, i);
    if paramName.Err? {
      return Err(paramName.error);
    }
    var ty := ParamType(name, paramName.value, p);
    if ty.Err? {
      return Err(ty.error);
    }
    file.AddStatements(ty.value.decls);
    if !(ty.value.typeValue.Defined? && ty.value.typeValue.json.JStr?) {
      return Err(NotModelled("a parameter type that is not a string"));
    }
    r := Ok((ParamDecl(paramName.value, Some(ty.value.typeValue.json.s), false, false), ty.value.decls));
  }

  /** `generateApiServer(serverFile, schema)` */
  method GenerateApiServer(file: SourceFile, objs: seq<Obj>, schema: Val) returns (o: Outcome)
    modifies file
    ensures var t := ServerTail(objs, schema);
      (o.Pass? <==> t.Ok?) && (o.Fail? ==> t == Err(o.error)) && (t.Ok? ==> file.statements == old(file.statements) + t.value)
  {
    var importStmt := ImportStmt(ImportDecl(JsonRpcModuleUrl, ["JsonRpcServer", "JsonRpcServerHandlers"]));
    file.AddStatement(importStmt);
    var stem := ClassStem(objs, schema);
    if stem.Err? {
      return Fail(stem.error);
    }
    var json := Stringified(objs, schema);
    if json.Err? {
      return Fail(json.error);
    }
    file.AddStatement(ClassStmt(ServerClass(stem.value, json.value)));
    o := Pass;
  }

  /** `generate(schema)`: resolve the references in place, then write the files the schema's type calls for. */
  method GenerateSchema(doc: Json, fetch: Fetch, fuel: nat) returns (r: Result<seq<Tsgen.Artifact>>)
    ensures r == Generated(doc, fetch, fuel)
  {
    var loaded := Load([], doc);
    LoadHolds([], doc);
    var heap := new Heap(loaded.0);
    var schema := loaded.1;
    var resolved := heap.ResolveRefs(AsWritten, schema, None, fetch, fuel, doc);
    if resolved.Fail? {
      return Err(resolved.error);
    }
    var kind := HeapReadProp(heap.objs, schema, "type");
    if kind.Err? {
      return Err(kind.error);
    }
    if kind.value == Some(VStr("api")) {
      var idText := ValText(heap.objs, HeapField(heap.objs, schema, "id"));
      if idText.Err? {
        return Err(idText.error);
      }
      var clientFile := new SourceFile([OtherStmt(Prelude)]);
      var client := GenerateApiClient(clientFile, heap.objs, schema);
      if client.Fail? {
        return Err(client.error);
      }
      var serverFile := new SourceFile([OtherStmt(Prelude)]);
      var server := GenerateApiServer(serverFile, heap.objs, schema);
      if server.Fail? {
        return Err(server.error);
      }
      r := Ok([Tsgen.Artifact(idText.value + ".ts", clientFile.statements), Tsgen.Artifact(idText.value + ".server.ts", serverFile.statements)]);
    } else if kind.value == Some(VStr("adb-record")) {
      var idText := ValText(heap.objs, HeapField(heap.objs, schema, "id"));
      if idText.Err? {
        return Err(idText.error);
      }
      var typeFile := new SourceFile([OtherStmt(Prelude)]);
      var types := RecordTail(heap.objs, schema);
      if types.Err? {
        return Err(types.error);
      }
      typeFile.AddStatements(types.value);
      r := Ok([Tsgen.Artifact(idText.value + ".ts", typeFile.statements)]);
    } else {
      r := Err(UnknownSchemaType);
    }
  }
}
