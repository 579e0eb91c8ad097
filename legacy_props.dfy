/**
 * Properties of the schema-driven generator of `index.js`: what the loops
 * build, the names of parameters and classes, the types generated for
 * parameters, and what the files of a schema contain.
 */
module LegacyProps {
  import opened Js
  import opened Strings
  import opened Util
  import opened Ast
  import opened JsonHeap
  import opened Resolve
  import opened ResolveProps
  import opened Legacy
  import Parse
  import Tsgen = Generate

  // ---------------------------------------------------------------------------
  // The loops

  /**
   * The loops succeed exactly when every turn does; they then keep one item per
   * turn, in order, and otherwise fail with the error of the first turn that
   * failed.
   */
  lemma {:induction false} CollectItems<T>(rs: seq<Result<(T, seq<Stmt>)>>, n: nat)
    requires n <= |rs|
    ensures Collect(rs, n).Ok? <==> forall i :: 0 <= i < n ==> rs[i].Ok?
    ensures Collect(rs, n).Ok? ==>
      |Collect(rs, n).value.0| == n && forall i :: 0 <= i < n ==> Collect(rs, n).value.0[i] == rs[i].value.0
    ensures Collect(rs, n).Err? ==>
      exists i :: 0 <= i < n && rs[i] == Err(Collect(rs, n).error) && forall j :: 0 <= j < i ==> rs[j].Ok?
    decreases n
  {
    if n > 0 {
      CollectItems(rs, n - 1);
      if Collect(rs, n - 1).Ok? && rs[n - 1].Err? {
        assert rs[n - 1] == Err(Collect(rs, n).error);
      }
    }
  }

  /** Each client method is named after its key of `definition.methods`. */
  lemma MethodOfName(methodName: string, def: JsValue)
    requires MethodOf(methodName, def).Ok?
    ensures MethodOf(methodName, def).value.0.name == methodName
  {
  }

  /**
   * A client method has one parameter per parameter schema, each named by
   * `params[i].name || 'arg' + i`, and its body passes them, in order, to
   * `this._rpc` under the method's name.
   */
  lemma MethodParams(methodName: string, def: JsValue)
    requires MethodOf(methodName, def).Ok?
    ensures MethodHead(methodName, def).Ok?
    ensures var m := MethodOf(methodName, def).value.0; var elems := MethodHead(methodName, def).value.elems;
      |m.params| == |elems| &&
      (forall i :: 0 <= i < |elems| ==> ParamName(elems[i], i) == Ok(m.params[i].name)) &&
      m.body == CallRpc(methodName, Names(m.params)) &&
      m.returnType == MethodHead(methodName, def).value.returnType
  {
    var head := MethodHead(methodName, def).value;
    var rs := ParamResults(methodName, head.elems);
    CollectItems(rs, |head.elems|);
    var m := MethodOf(methodName, def).value.0;
    forall i | 0 <= i < |head.elems|
      ensures ParamName(head.elems[i], i) == Ok(m.params[i].name)
    {
      assert rs[i] == ParamAt(methodName, head.elems[i], i);
    }
  }

  /** The names `arg0`, `arg1`, ... given to unnamed parameters are pairwise distinct. */
  lemma DefaultNamesDistinct(i: nat, j: nat)
    requires i != j
    ensures "arg" + DecimalString(i) != "arg" + DecimalString(j)
  {
    if "arg" + DecimalString(i) == "arg" + DecimalString(j) {
      assert DecimalString(i) == ("arg" + DecimalString(i))[3..];
      assert DecimalString(j) == ("arg" + DecimalString(j))[3..];
      DecimalStringInjective(i, j);
    }
  }

  /** A parameter without a `name`, or with a falsy one, is called `arg<i>`. */
  lemma UnnamedParam(p: Json, i: nat)
    requires p != JNull && !TruthyValue(Field(p, "name"))
    ensures ParamName(Defined(p), i) == Ok("arg" + DecimalString(i))
  {
  }

  // ---------------------------------------------------------------------------
  // Parameter schemas and their types

  /** `jsonSchemaToParams`: no schema means no parameters, an array lists them, an array schema lists its items, any other schema is the only one. */
  lemma {:induction false} ParamsOfShapes(def: JsValue)
    ensures !TruthyValue(def) ==> ParamElements(ParamsOf(def)) == Ok([])
    ensures TruthyValue(def) && def.json.JArr? ==>
      ParamElements(ParamsOf(def)) == Ok(seq(|def.json.items|, i requires 0 <= i < |def.json.items| => Defined(def.json.items[i])))
    ensures TruthyValue(def) && def.json.JObj? && Field(def.json, "type") != Defined(JStr("array")) ==>
      ParamElements(ParamsOf(def)) == Ok([def])
    ensures TruthyValue(def) && def.json.JObj? && Field(def.json, "type") == Defined(JStr("array")) ==>
      ParamsOf(def) == Field(def.json, "items")
  {
    if TruthyValue(def) && def.json.JObj? && Field(def.json, "type") != Defined(JStr("array")) {
      assert ParamsOf(def) == Defined(JArr([def.json]));
      assert ParamElements(ParamsOf(def)).value == [Defined(def.json)];
    }
  }

  /**
   * `generateParamType` generates declarations exactly for an object schema
   * whose `type` is `object`, or that has a `oneOf` and whose `type` is not
   * `array`.
   */
  lemma ParamTypeGenerates(methodName: string, paramName: string, def: JsValue)
    ensures (ParamType(methodName, paramName, def).Ok? && ParamType(methodName, paramName, def).value.decls != []) <==>
      (def.Defined? && def.json.JObj? &&
       (Field(def.json, "type") == Defined(JStr("object")) ||
        (Field(def.json, "type") != Defined(JStr("array")) && MemberValue(def.json.members, "oneOf").Defined?)))
  {
  }

  /** Any other schema is typed by its own `type`, with no declaration. */
  lemma ParamTypeOwn(methodName: string, paramName: string, def: Json)
    requires TruthyValue(Defined(def)) && def.JObj?
    requires Field(def, "type") != Defined(JStr("object")) && Field(def, "type") != Defined(JStr("array"))
    requires MemberValue(def.members, "oneOf").Undefined?
    ensures ParamType(methodName, paramName, Defined(def)) == Ok(Typed(Field(def, "type"), []))
  {
  }

  /** The type declared for a parameter, or for a response, is named by an identifier that does not start with a lower-case letter. */
  lemma TypeNameIsIdentifier(methodName: string, paramName: string)
    ensures AllIdentChars(TypeName(methodName, paramName))
    ensures TypeName(methodName, paramName) != [] ==> !IsLower(TypeName(methodName, paramName)[0])
  {
    SafeStringChars(methodName + "_" + paramName);
    SafeStringShape(methodName + "_" + paramName);
  }

  /** A method without a `response` schema returns `Promise<undefined>` and declares nothing for it. */
  lemma NoResponse(methodName: string, def: Json)
    requires def.JObj? && MemberValue(def.members, "response").Undefined?
    requires MethodHead(methodName, Defined(def)).Ok?
    ensures MethodHead(methodName, Defined(def)).value.returnType == "Promise<undefined>"
    ensures MethodHead(methodName, Defined(def)).value.decls == []
  {
  }

  /** An object `response` schema is declared as `<Method>Response` and the method returns a promise of it. */
  lemma ObjectResponse(methodName: string, def: Json, response: Json)
    requires def.JObj? && MemberValue(def.members, "response") == Defined(response)
    requires response.JObj? && Field(response, "type") == Defined(JStr("object"))
    requires MethodHead(methodName, Defined(def)).Ok?
    ensures MethodHead(methodName, Defined(def)).value.returnType == "Promise<" + TypeName(methodName, "Response") + ">"
    ensures MethodHead(methodName, Defined(def)).value.decls == [GeneratedTypesStmt(TypeName(methodName, "Response"), Defined(response))]
  {
    var name := TypeName(methodName, "Response");
    assert ReadProp(Defined(def), "response") == Ok(Defined(response));
    assert ParamType(methodName, "Response", Defined(response)) == Ok(Typed(Defined(JStr(name)), [GeneratedTypesStmt(name, Defined(response))]));
    assert JsonText(Defined(JStr(name))) == Ok(name);
  }

  // ---------------------------------------------------------------------------
  // The files

  /** The class names are identifiers: the stem is a safe string. */
  lemma ClassNamesAreIdentifiers(objs: seq<Obj>, schema: Val)
    requires ClassStem(objs, schema).Ok?
    ensures AllIdentChars(ClassStem(objs, schema).value + "Client")
    ensures AllIdentChars(ClassStem(objs, schema).value + "Server")
  {
    var chosen := OrVal(HeapField(objs, schema, "title"), OrVal(HeapField(objs, schema, "id"), Some(VStr(""))));
    assert SafeStringOf(chosen) == ClassStem(objs, schema);
    SafeStringChars(chosen.value.s);
    SuffixedStems(ToSafeString(chosen.value.s));
  }

  lemma SuffixedStems(stem: string)
    requires AllIdentChars(stem)
    ensures AllIdentChars(stem + "Client") && AllIdentChars(stem + "Server")
  {
    IdentSuffix(stem, "Client");
    IdentSuffix(stem, "Server");
  }

  lemma IdentSuffix(stem: string, suffix: string)
    requires AllIdentChars(stem) && IsLetters(suffix)
    ensures AllIdentChars(stem + suffix)
  {
    forall i | 0 <= i < |stem + suffix|
      ensures IsIdentChar((stem + suffix)[i])
    {
      if i >= |stem| {
        assert (stem + suffix)[i] == suffix[i - |stem|];
      }
    }
  }

  /**
   * The client file: the import of `JsonRpcClient`, a class extending it whose
   * constructor passes the whole schema document on, with one method per entry
   * of `definition.methods`, in order, then the generated types, then the
   * client instance and its default export.
   */
  lemma ClientShape(objs: seq<Obj>, schema: Val)
    requires ClientTail(objs, schema).Ok?
    ensures ClassStem(objs, schema).Ok? && Stringified(objs, schema).Ok?
    ensures MethodEntries(Stringified(objs, schema).value).Ok?
    ensures var t := ClientTail(objs, schema).value; var stem := ClassStem(objs, schema).value;
      var doc := Stringified(objs, schema).value; var entries := MethodEntries(doc).value;
      |t| >= 4 && t[0] == ImportStmt(ImportDecl(JsonRpcModuleUrl, ["JsonRpcClient"])) &&
      t[1].ClassStmt? && t[1] == ClassStmt(ClientClass(stem, doc, t[1].classDecl.methods)) &&
      |t[1].classDecl.methods| == |entries| &&
      (forall i :: 0 <= i < |entries| ==> t[1].classDecl.methods[i].name == entries[i].key) &&
      t[|t| - 2..] == ClientExport(stem)
  {
    var doc := Stringified(objs, schema).value;
    var entries := MethodEntries(doc).value;
    var rs := MethodResults(entries);
    CollectItems(rs, |entries|);
    var methods := Collect(rs, |entries|).value.0;
    forall i | 0 <= i < |entries|
      ensures methods[i].name == entries[i].key
    {
      MethodOfName(entries[i].key, Defined(entries[i].value));
    }
  }

  /** The server file: the import of `JsonRpcServer` and its handlers type, and a default-exported class passing the schema document and the handlers on. */
  lemma ServerShape(objs: seq<Obj>, schema: Val)
    requires ServerTail(objs, schema).Ok?
    ensures ClassStem(objs, schema).Ok? && Stringified(objs, schema).Ok?
    ensures var t := ServerTail(objs, schema).value; var c := ServerClass(ClassStem(objs, schema).value, Stringified(objs, schema).value);
      t == [ImportStmt(ImportDecl(JsonRpcModuleUrl, ["JsonRpcServer", "JsonRpcServerHandlers"])), ClassStmt(c)] &&
      c.ctor.superArgs == [ArgJson(Stringified(objs, schema).value), ArgName("handlers")] &&
      c.exportKind == DefaultExport && c.methods == []
  {
  }

  /**
   * `generate` writes two files for an `api` schema, `<id>.ts` and
   * `<id>.server.ts`, one for an `adb-record` schema, `<id>.ts`, and throws
   * for any other `type`; every file starts with the prelude.
   */
  lemma FilesByType(objs: seq<Obj>, schema: Val)
    requires FilesOf(objs, schema).Ok?
    ensures var files := FilesOf(objs, schema).value; var kind := HeapField(objs, schema, "type");
      var idText := ValText(objs, HeapField(objs, schema, "id"));
      (kind == Some(VStr("api")) || kind == Some(VStr("adb-record"))) && idText.Ok? &&
      (kind == Some(VStr("api")) ==>
        |files| == 2 && files[0].fileName == idText.value + ".ts" && files[1].fileName == idText.value + ".server.ts" &&
        files[0].stmts == [OtherStmt(Prelude)] + ClientTail(objs, schema).value &&
        files[1].stmts == [OtherStmt(Prelude)] + ServerTail(objs, schema).value) &&
      (kind == Some(VStr("adb-record")) ==>
        |files| == 1 && files[0].fileName == idText.value + ".ts" &&
        files[0].stmts == [OtherStmt(Prelude)] + RecordTail(objs, schema).value)
  {
  }

  lemma UnknownType(objs: seq<Obj>, schema: Val)
    requires !schema.VNull? && !(schema.VRef? && schema.addr >= |objs|)
    requires HeapField(objs, schema, "type") != Some(VStr("api")) && HeapField(objs, schema, "type") != Some(VStr("adb-record"))
    ensures FilesOf(objs, schema) == Err(UnknownSchemaType)
  {
  }

  // ---------------------------------------------------------------------------
  // From the schema document

  /** Reading a member of a freshly loaded object: absent stays absent, and a string is read as that string. */
  lemma LoadedField(doc: Json, key: string)
    requires doc.JObj?
    ensures var loaded := Load([], doc);
      (HeapField(loaded.0, loaded.1, key).None? <==> MemberValue(doc.members, key).Undefined?) &&
      (forall s :: HeapField(loaded.0, loaded.1, key) == Some(VStr(s)) <==> MemberValue(doc.members, key) == Defined(JStr(s)))
  {
    LoadHolds([], doc);
    var loaded := Load([], doc);
    LaidMember(loaded.0, 0, doc, key);
    match SlotIndex(loaded.0[0].slots, key)
    case None =>
    case Some(i) =>
      HoldsTruthy(loaded.0, loaded.0[0].slots[i].val, Child(doc, i), Start(0, doc, i));
  }

  /** A schema document without references or `null` members whose `type` is neither `api` nor `adb-record` is refused. */
  lemma UnknownDocument(doc: Json, fetch: Fetch, fuel: nat)
    requires Inert(AsWritten, doc) && doc.JObj?
    requires MemberValue(doc.members, "type") != Defined(JStr("api")) && MemberValue(doc.members, "type") != Defined(JStr("adb-record"))
    ensures Generated(doc, fetch, fuel) == Err(UnknownSchemaType)
  {
    ResolvedInert(AsWritten, [], doc, None, fetch, fuel);
    LoadHolds([], doc);
    LoadedField(doc, "type");
    var loaded := Load([], doc);
    UnknownType(loaded.0, loaded.1);
  }

  /**
   * Both classes of an `api` schema pass the schema document, with its
   * references resolved, to their base class.
   */
  lemma ApiDocument(doc: Json, fetch: Fetch, fuel: nat)
    requires Generated(doc, fetch, fuel).Ok? && |Generated(doc, fetch, fuel).value| == 2
    ensures ResolvedDocument(AsWritten, doc, fetch, fuel).Ok?
    ensures var files := Generated(doc, fetch, fuel).value; var resolved := ResolvedDocument(AsWritten, doc, fetch, fuel).value;
      |files[0].stmts| > 2 && files[0].stmts[2].ClassStmt? && files[0].stmts[2].classDecl.ctor.superArgs == [ArgJson(resolved)] &&
      |files[1].stmts| > 2 && files[1].stmts[2].ClassStmt? && files[1].stmts[2].classDecl.ctor.superArgs == [ArgJson(resolved), ArgName("handlers")]
  {
    var loaded := Load([], doc);
    var objs := Resolved(AsWritten, loaded.0, loaded.1, None, fetch, fuel, doc).value;
    FilesByType(objs, loaded.1);
    ClientShape(objs, loaded.1);
    ServerShape(objs, loaded.1);
  }

  /** For a document without references or `null` members, that document is what the classes pass on. */
  lemma ApiDocumentInert(doc: Json, fetch: Fetch, fuel: nat)
    requires Inert(AsWritten, doc)
    requires Generated(doc, fetch, fuel).Ok? && |Generated(doc, fetch, fuel).value| == 2
    ensures var files := Generated(doc, fetch, fuel).value;
      |files[0].stmts| > 2 && files[0].stmts[2].ClassStmt? && files[0].stmts[2].classDecl.ctor.superArgs == [ArgJson(doc)] &&
      |files[1].stmts| > 2 && files[1].stmts[2].ClassStmt? && files[1].stmts[2].classDecl.ctor.superArgs == [ArgJson(doc), ArgName("handlers")]
  {
    ApiDocument(doc, fetch, fuel);
    ResolvedDocumentInert(AsWritten, doc, fetch, fuel);
  }

  /**
   * `generate(schema)` as written refuses a schema document with a `null`
   * member, such as `"default": null`, when no member before it holds a
   * reference: `resolveRefs` throws reading `$ref` of `null`.
   */
  lemma NullMemberRefused(doc: Json, k: nat, fetch: Fetch, fuel: nat)
    requires doc.JObj? && k < |doc.members| && doc.members[k].value.JNull?
    requires forall i :: 0 <= i < k ==> ChildInert(AsWritten, Child(doc, i))
    ensures Generated(doc, fetch, fuel) == Err(TypeError("Cannot read properties of null (reading '$ref')"))
  {
    ResolvedNullMember(doc, k, fetch, fuel);
  }

  /** `{"type": "adb-record", "id": "x", "title": "T", "default": null}` */
  const NullRecord: Json := JObj([Member("type", JStr("adb-record")), Member("id", JStr("x")), Member("title", JStr("T")), Member("default", JNull)])

  /** As written, that record schema is refused. */
  lemma NullRecordRefused(fetch: Fetch, fuel: nat)
    ensures Generated(NullRecord, fetch, fuel) == Err(TypeError("Cannot read properties of null (reading '$ref')"))
  {
    forall i | 0 <= i < 3 ensures ChildInert(AsWritten, Child(NullRecord, i)) {
      assert Child(NullRecord, i).JStr?;
    }
    NullMemberRefused(NullRecord, 3, fetch, fuel);
  }

  /**
   * With the null check, a document without references is generated from as
   * it was loaded, `null` members and all.
   */
  lemma NullMemberSafe(doc: Json, fetch: Fetch, fuel: nat)
    requires Inert(NullSafe, doc)
    ensures var loaded := Load([], doc); GeneratedIn(NullSafe, doc, fetch, fuel) == FilesOf(loaded.0, loaded.1)
  {
    ResolvedInert(NullSafe, [], doc, None, fetch, fuel);
  }
}
