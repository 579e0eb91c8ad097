/**
 * What the generated files of src/generate.ts guarantee: the type rewriting of
 * copied interfaces, which declarations are copied, the emitter interfaces, the
 * record table's name, and that every name the generated classes use is
 * imported or declared in the same file.
 */
module GenerateProps {
  import opened Js
  import opened Dicts
  import opened Strings
  import opened Util
  import opened Ast
  import opened Types
  import opened Generate

  // ---------------------------------------------------------------------------
  // transformIfaceTypes

  /**
   * A copied type never mentions `Date`, and outside Deno never mentions
   * `Uint8Array`: the second replacement cannot bring back what the first took out.
   */
  lemma ReplacedTypeRemoves(env: Env, t: string)
    ensures NoOccurrence(ReplacedType(env, t), "Date")
    ensures env != DenoUserland ==> NoOccurrence(ReplacedType(env, t), "Uint8Array")
  {
    var t1 := ReplaceAll(t, "Date", "string");
    ReplaceAllLeavesNone(t, "Date", "string");
    if env != DenoUserland {
      ReplaceAllLeavesNone(t1, "Uint8Array", "Buffer");
      ReplaceAllKeepsAbsent(t1, "Uint8Array", "Buffer", "Date");
    }
  }

  /** A type that mentions neither name is copied as it is. */
  lemma ReplacedTypeKeepsClean(env: Env, t: string)
    requires NoOccurrence(t, "Date")
    requires env != DenoUserland ==> NoOccurrence(t, "Uint8Array")
    ensures ReplacedType(env, t) == t
  {
    ReplaceAllIdentity(t, "Date", "string");
    if env != DenoUserland {
      ReplaceAllIdentity(t, "Uint8Array", "Buffer");
    }
  }

  /** Rewriting a copied type once more changes nothing. */
  lemma ReplacedTypeIdempotent(env: Env, t: string)
    ensures ReplacedType(env, ReplacedType(env, t)) == ReplacedType(env, t)
  {
    ReplacedTypeRemoves(env, t);
    ReplacedTypeKeepsClean(env, ReplacedType(env, t));
  }

  /**
   * `transformIfaceTypes` keeps the interface's name, flags, methods and
   * property names, and leaves no `Date` in any property type.
   */
  lemma IfaceTypesReplacedShape(env: Env, i: Iface)
    requires IfaceTypesReplaced(env, i).Ok?
    ensures var t := IfaceTypesReplaced(env, i).value;
      t.name == i.name && t.isDefault == i.isDefault && t.exported == i.exported && t.methods == i.methods
      && |t.props| == |i.props|
      && (forall k :: 0 <= k < |t.props| ==>
            t.props[k].name == i.props[k].name && t.props[k].optional == i.props[k].optional
            && t.props[k].written.Some? && NoOccurrence(t.props[k].written.value, "Date"))
  {
    var t := IfaceTypesReplaced(env, i).value;
    forall k | 0 <= k < |t.props|
      ensures t.props[k].written.Some? && NoOccurrence(t.props[k].written.value, "Date")
    {
      ReplacedTypeRemoves(env, i.props[k].written.value);
    }
  }

  // ---------------------------------------------------------------------------
  // The copy rules

  /** A statement that the copy brings over: an interface, a type alias or an enum. */
  predicate CopyKind(s: Stmt) {
    s.InterfaceStmt? || s.TypeAliasStmt? || s.EnumStmt?
  }

  /** The copy fails exactly when an interface it does not skip has a property without a type. */
  lemma {:induction false} CopiesOkIff(stmts: seq<Stmt>, env: Env, x: Exclusion)
    ensures Copies(stmts, env, x).Ok? <==>
      forall k :: 0 <= k < |stmts| && stmts[k].InterfaceStmt? && !Excluded(x, stmts[k].iface.name) ==>
        AllTyped(stmts[k].iface.props)
    decreases |stmts|
  {
    if stmts != [] {
      var init := stmts[..|stmts| - 1];
      CopiesOkIff(init, env, x);
      assert forall k :: 0 <= k < |init| ==> init[k] == stmts[k];
    }
  }

  /** The copy holds only interfaces it does not skip, and aliases and enums of the document. */
  lemma {:induction false} CopiesHoldOnly(stmts: seq<Stmt>, env: Env, x: Exclusion)
    requires Copies(stmts, env, x).Ok?
    ensures var c := Copies(stmts, env, x).value;
      (forall s :: s in c ==> CopyKind(s))
      && (forall s :: s in c && s.InterfaceStmt? ==> !Excluded(x, s.iface.name))
      && (forall s :: s in c && !s.InterfaceStmt? ==> s in stmts)
    decreases |stmts|
  {
    if stmts != [] {
      var init := stmts[..|stmts| - 1];
      var last := stmts[|stmts| - 1];
      CopiesHoldOnly(init, env, x);
      assert stmts == init + [last];
      assert Copies(stmts, env, x).value == Copies(init, env, x).value + CopyOf(last, env, x).value;
    }
  }

  /**
   * The copy keeps every alias and enum of the document, and every interface it
   * does not skip, with its types replaced.
   */
  lemma {:induction false} CopiesKeep(stmts: seq<Stmt>, env: Env, x: Exclusion)
    requires Copies(stmts, env, x).Ok?
    ensures var c := Copies(stmts, env, x).value;
      (forall s :: s in stmts && (s.TypeAliasStmt? || s.EnumStmt?) ==> s in c)
      && (forall i :: InterfaceStmt(i) in stmts && !Excluded(x, i.name) ==>
            IfaceTypesReplaced(env, i).Ok? && InterfaceStmt(IfaceTypesReplaced(env, i).value) in c)
    decreases |stmts|
  {
    if stmts != [] {
      var init := stmts[..|stmts| - 1];
      var last := stmts[|stmts| - 1];
      CopiesKeep(init, env, x);
      assert stmts == init + [last];
      assert Copies(stmts, env, x).value == Copies(init, env, x).value + CopyOf(last, env, x).value;
      forall s | s in stmts ensures s in init || s == last {
      }
    }
  }

  /** Two lists of interfaces with the same names and default flags, one for one. */
  predicate SameShape(a: seq<Iface>, b: seq<Iface>) {
    |a| == |b| && forall k :: 0 <= k < |a| ==> b[k].name == a[k].name && b[k].isDefault == a[k].isDefault
  }

  lemma SameShapeAppend(a1: seq<Iface>, b1: seq<Iface>, a2: seq<Iface>, b2: seq<Iface>)
    requires SameShape(a1, b1) && SameShape(a2, b2)
    ensures SameShape(a1 + a2, b1 + b2)
  {
  }

  lemma CopyOfShape(s: Stmt, env: Env)
    requires CopyOf(s, env, NoExclusion).Ok?
    ensures SameShape(Interfaces([s]), Interfaces(CopyOf(s, env, NoExclusion).value))
  {
    if s.InterfaceStmt? {
      IfaceTypesReplacedShape(env, s.iface);
    }
  }

  /** With nothing left out, the copied interfaces are the document's, one for one, with the same names and flags. */
  lemma {:induction false} CopiedInterfaces(stmts: seq<Stmt>, env: Env)
    requires Copies(stmts, env, NoExclusion).Ok?
    ensures SameShape(Interfaces(stmts), Interfaces(Copies(stmts, env, NoExclusion).value))
    decreases |stmts|
  {
    if stmts != [] {
      var init := stmts[..|stmts| - 1];
      var last := stmts[|stmts| - 1];
      CopiedInterfaces(init, env);
      assert stmts == init + [last];
      var c0 := Copies(init, env, NoExclusion).value;
      var c1 := CopyOf(last, env, NoExclusion).value;
      assert Copies(stmts, env, NoExclusion).value == c0 + c1;
      InterfacesAppend(init, [last]);
      InterfacesAppend(c0, c1);
      CopyOfShape(last, env);
      SameShapeAppend(Interfaces(init), Interfaces(c0), Interfaces([last]), Interfaces(c1));
    }
  }

  /** Two lists of interfaces with the same default flags, one for one, have their first default at the same place. */
  lemma {:induction false} FirstDefaultAligned(a: seq<Iface>, b: seq<Iface>)
    requires SameShape(a, b)
    ensures FirstDefault(a).Some? <==> FirstDefault(b).Some?
    ensures FirstDefault(a).Some? ==> FirstDefault(b).value.name == FirstDefault(a).value.name
    decreases |a|
  {
    if a != [] && !a[0].isDefault {
      assert SameShape(a[1..], b[1..]);
      FirstDefaultAligned(a[1..], b[1..]);
    }
  }

  /**
   * The record table is named after the document's first default interface
   * (the copy keeps names and order), and the record file fails for want of
   * one exactly when the document has none.
   */
  lemma RecordTableName(stmts: seq<Stmt>, env: Env)
    requires Copies(stmts, env, NoExclusion).Ok?
    ensures RecordTail(stmts, env).Ok? <==> FirstDefault(Interfaces(stmts)).Some?
    ensures RecordTail(stmts, env).Ok? ==>
      var t := RecordTail(stmts, env).value;
      t != [] && t[|t| - 1] == ClassStmt(RecordTable(FirstDefault(Interfaces(stmts)).value.name))
  {
    var copies := Copies(stmts, env, NoExclusion).value;
    CopiedInterfaces(stmts, env);
    FirstDefaultAligned(Interfaces(stmts), Interfaces(copies));
  }

  // ---------------------------------------------------------------------------
  // Emitter interfaces

  /**
   * An `on` signature built for event `e` from source method `m`: it listens
   * under the literal type of `e` and hands over the type of `m`'s second
   * parameter.
   */
  predicate ListensTo(on: MethodSig, e: string, m: MethodSig) {
    |m.params| >= 2 && on.name == "on" && on.returnText == "void" && |on.params| == 2
    && on.params[0].name == "name" && on.params[0].written == Some("\"" + e + "\"")
    && on.params[1].name == "handler"
    && on.params[1].written == Some("(evt: " + RemoveImport(m.params[1].typeText) + ") => void")
  }

  /** The source method of an emitted event: a method whose first parameter's type, unquoted, is the event. */
  predicate Declares(src: Iface, e: string, m: MethodSig) {
    m in src.methods && |m.params| >= 1 && RemoveQuotes(m.params[0].typeText) == e
  }

  lemma OnMethodListens(e: string, m: MethodSig)
    requires OnMethod(e, m).Ok?
    ensures ListensTo(OnMethod(e, m).value, e, m)
  {
  }

  /** The method `getMethods().find(...)` picks for event `e` of the emitter's source interface. */
  function SourceMethod(src: Iface, e: string): Result<MethodSig> {
    FindEmitterMethod(src.methods, e)
  }

  /**
   * Each event gets one `on` signature, in order, and only when the emitter's
   * source interface exists and declares a method for that event.
   */
  lemma {:induction false} OnMethodsShape(src: Option<Iface>, events: seq<string>)
    requires OnMethods(src, events).Ok?
    ensures events != [] ==> src.Some?
    ensures forall j :: 0 <= j < |events| ==>
      SourceMethod(src.value, events[j]).Ok? && Declares(src.value, events[j], SourceMethod(src.value, events[j]).value)
      && ListensTo(OnMethods(src, events).value[j], events[j], SourceMethod(src.value, events[j]).value)
    decreases |events|
  {
    if events != [] {
      var init := events[..|events| - 1];
      var e := events[|events| - 1];
      OnMethodsStep(src, events);
      OnMethodsShape(src, init);
      var m := SourceMethod(src.value, e).value;
      OnMethodListens(e, m);
      var ons := OnMethods(src, events).value;
      var before := OnMethods(src, init).value;
      assert ons[|events| - 1] == OnMethod(e, m).value;
      forall j | 0 <= j < |events| - 1 ensures init[j] == events[j] && ons[j] == before[j] {
      }
    }
  }

  /** The last event's signature is appended to those of the events before it. */
  lemma OnMethodsStep(src: Option<Iface>, events: seq<string>)
    requires events != [] && OnMethods(src, events).Ok?
    ensures var init := events[..|events| - 1]; var e := events[|events| - 1];
      OnMethods(src, init).Ok? && src.Some? && SourceMethod(src.value, e).Ok? &&
      OnMethod(e, SourceMethod(src.value, e).value).Ok? &&
      OnMethods(src, events).value == OnMethods(src, init).value + [OnMethod(e, SourceMethod(src.value, e).value).value]
  {
  }

  /** One exported, non-default emitter interface per entry of the export map's events, in order, named after the entry. */
  lemma {:induction false} EmitterIfacesShape(stmts: seq<Stmt>, entries: seq<(string, Dict<string>)>)
    requires EmitterIfaces(stmts, entries).Ok?
    ensures var r := EmitterIfaces(stmts, entries).value;
      forall i :: 0 <= i < |entries| ==>
        var ons := OnMethods(FirstNamed(Interfaces(stmts), entries[i].0), Keys(entries[i].1));
        r[i].InterfaceStmt? && r[i].iface.name == entries[i].0 && r[i].iface.exported && !r[i].iface.isDefault
        && r[i].iface.props == [] && ons.Ok? && r[i].iface.methods == ons.value
    decreases |entries|
  {
    if entries != [] {
      var init := entries[..|entries| - 1];
      EmitterIfacesShape(stmts, init);
      forall i | 0 <= i < |entries| - 1 ensures init[i] == entries[i] {
      }
    }
  }

  /**
   * Every event of every emitter in the export map is answered by an `on`
   * signature, and that needs an interface of the document named after the
   * emitter that declares a method for the event.
   */
  lemma EmittersListen(stmts: seq<Stmt>, entries: seq<(string, Dict<string>)>, i: nat, j: nat)
    requires EmitterIfaces(stmts, entries).Ok?
    requires i < |entries| && j < |entries[i].1.entries|
    ensures var r := EmitterIfaces(stmts, entries).value; var e := entries[i].1.entries[j].0;
      var src := FirstNamed(Interfaces(stmts), entries[i].0);
      r[i].InterfaceStmt? && src.Some? && j < |r[i].iface.methods| && SourceMethod(src.value, e).Ok?
      && Declares(src.value, e, SourceMethod(src.value, e).value)
      && ListensTo(r[i].iface.methods[j], e, SourceMethod(src.value, e).value)
  {
    EmitterIfacesShape(stmts, entries);
    var src := FirstNamed(Interfaces(stmts), entries[i].0);
    OnMethodsShape(src, Keys(entries[i].1));
  }

  // ---------------------------------------------------------------------------
  // The generated classes use only what their file imports or declares

  predicate Imported(f: seq<Stmt>, n: string) {
    exists s :: s in f && s.ImportStmt? && n in s.importDecl.names
  }

  predicate DeclaresConst(f: seq<Stmt>, n: string) {
    exists s :: s in f && s.ConstStmt? && s.constDecl.name == n
  }

  predicate HasParam(ps: seq<ParamDecl>, n: string) {
    exists p :: p in ps && p.name == n
  }

  /** Every name the constructor passes to `super` is a constant of the file or a constructor parameter. */
  predicate SuperArgsResolve(f: seq<Stmt>, c: ClassDecl) {
    forall a :: a in c.ctor.superArgs && a.ArgName? ==> DeclaresConst(f, a.ident) || HasParam(c.ctor.params, a.ident)
  }

  /** `URL` is imported from `'url'` exactly outside Deno, and the names of the runtime module always are. */
  lemma EnvImportsShape(env: Env, names: seq<string>)
    ensures ImportStmt(ImportDecl("url", ["URL"])) in EnvImports(env, names) <==> env != DenoUserland
    ensures ImportStmt(ImportDecl(RuntimeModule(env), names)) in EnvImports(env, names)
    ensures forall n :: n in names ==> Imported(EnvImports(env, names), n)
    ensures forall s :: s in EnvImports(env, names) ==> s.ImportStmt?
  {
    var imp := ImportStmt(ImportDecl(RuntimeModule(env), names));
    assert imp in EnvImports(env, names);
    assert RuntimeModule(env) != "url" by {
      assert RuntimeModule(env)[0] != 'u';
    }
  }

  lemma ApiConstsDeclare(id: string, metadata: seq<Member>, schema: Json, em: ExportMapValue)
    ensures DeclaresConst(ApiConsts(id, metadata, schema, em), "SCHEMAS")
    ensures DeclaresConst(ApiConsts(id, metadata, schema, em), "EXPORT_MAP")
    ensures forall s :: s in ApiConsts(id, metadata, schema, em) ==> s.ConstStmt?
  {
    var c := ApiConsts(id, metadata, schema, em);
    assert c[2].constDecl.name == "SCHEMAS" && c[3].constDecl.name == "EXPORT_MAP";
  }

  lemma RecordConstsDeclare(id: string, metadata: seq<Member>, schema: Json)
    ensures var c := RecordConsts(id, metadata, schema);
      DeclaresConst(c, "ID") && DeclaresConst(c, "REVISION") && DeclaresConst(c, "JSON_SCHEMA") && DeclaresConst(c, "TEMPLATES")
    ensures forall s :: s in RecordConsts(id, metadata, schema) ==> s.ConstStmt?
  {
    var c := RecordConsts(id, metadata, schema);
    assert c[0].constDecl.name == "ID" && c[1].constDecl.name == "REVISION";
    assert c[2].constDecl.name == "JSON_SCHEMA" && c[3].constDecl.name == "TEMPLATES";
  }

  /**
   * The client's imports and base class per environment: Deno imports only its
   * runtime client; Node and the host first import `URL` from `'url'`; only the
   * host uses the API broker.
   */
  lemma ClientEnvTable(env: Env)
    ensures env == DenoUserland ==>
      EnvImports(env, ClientImportNames(env)) == [ImportStmt(ImportDecl("https://atek.cloud/x/rpc@latest/mod.ts", ["AtekRpcClient"]))]
    ensures env == NodeUserland ==>
      EnvImports(env, ClientImportNames(env)) ==
        [ImportStmt(ImportDecl("url", ["URL"])), ImportStmt(ImportDecl("@atek-cloud/node-rpc", ["AtekRpcClient"]))]
    ensures env == Host ==>
      EnvImports(env, ClientImportNames(env)) ==
        [ImportStmt(ImportDecl("url", ["URL"])), ImportStmt(ImportDecl("@atek-cloud/api-broker", ["ApiBrokerClient"]))]
    ensures ClientBase(env) == "ApiBrokerClient" <==> env == Host
    ensures ClientBase(env) == "AtekRpcClient" <==> env != Host
  {
  }

  /**
   * The exported constants: `ID` is the id as a JSON string; `REVISION` is the
   * metadata's revision written as it is when truthy and `undefined` otherwise;
   * `TEMPLATES` is the metadata's templates when truthy and `{}` otherwise.
   */
  lemma ConstantsOfMetadata(id: string, metadata: seq<Member>, schema: Json)
    ensures var c := RecordConsts(id, metadata, schema);
      c[0] == ConstStmt(ConstDecl("ID", InitJson(JStr(id)), true))
      && (TruthyValue(MemberValue(metadata, "revision")) ==>
            c[1] == ConstStmt(ConstDecl("REVISION", InitVerbatim(MemberValue(metadata, "revision").json), true)))
      && (!TruthyValue(MemberValue(metadata, "revision")) ==>
            c[1] == ConstStmt(ConstDecl("REVISION", InitCode("undefined"), true)))
      && (TruthyValue(MemberValue(metadata, "templates")) ==>
            c[3] == ConstStmt(ConstDecl("TEMPLATES", InitJson(MemberValue(metadata, "templates").json), true)))
      && (!TruthyValue(MemberValue(metadata, "templates")) ==>
            c[3] == ConstStmt(ConstDecl("TEMPLATES", InitJson(JObj([])), true)))
    ensures forall em :: ApiConsts(id, metadata, schema, em)[..2] == RecordConsts(id, metadata, schema)[..2]
  {
  }

  lemma ImportedIn(f: seq<Stmt>, g: seq<Stmt>, n: string)
    requires Imported(f, n) && forall s :: s in f ==> s in g
    ensures Imported(g, n)
  {
  }

  lemma DeclaredIn(f: seq<Stmt>, g: seq<Stmt>, n: string)
    requires DeclaresConst(f, n) && forall s :: s in f ==> s in g
    ensures DeclaresConst(g, n)
  {
  }

  /** The emitter interfaces are interface statements. */
  lemma {:induction false} EmittersAreInterfaces(stmts: seq<Stmt>, entries: seq<(string, Dict<string>)>)
    requires EmitterIfaces(stmts, entries).Ok?
    ensures forall s :: s in EmitterIfaces(stmts, entries).value ==> s.InterfaceStmt?
  {
    EmitterIfacesShape(stmts, entries);
    var r := EmitterIfaces(stmts, entries).value;
    assert forall s :: s in r ==> exists i :: 0 <= i < |r| && r[i] == s;
  }

  /** A file made of imports, constants, one class and statements that are not classes. */
  lemma OneClassFile(f: seq<Stmt>, imports: seq<Stmt>, consts: seq<Stmt>, tail: seq<Stmt>, c: ClassDecl)
    requires f == imports + consts + tail
    requires forall s :: s in imports ==> s.ImportStmt?
    requires forall s :: s in consts ==> s.ConstStmt?
    requires ClassStmt(c) in tail && forall s :: s in tail && s.ClassStmt? ==> s == ClassStmt(c)
    requires SuperArgsResolve(consts, c)
    ensures ClassStmt(c) in f && (forall s :: s in f && s.ClassStmt? ==> s == ClassStmt(c))
    ensures SuperArgsResolve(f, c)
    ensures forall n :: Imported(imports, n) ==> Imported(f, n)
  {
    forall n | Imported(imports, n) ensures Imported(f, n) {
      ImportedIn(imports, f, n);
    }
    forall a | a in c.ctor.superArgs && a.ArgName? && DeclaresConst(consts, a.ident) ensures DeclaresConst(f, a.ident) {
      DeclaredIn(consts, f, a.ident);
    }
  }

  lemma ClientClassResolves(stem: string, env: Env, id: string, ms: seq<MethodSig>, em: ExportMapValue, consts: seq<Stmt>)
    requires DeclaresConst(consts, "SCHEMAS") && DeclaresConst(consts, "EXPORT_MAP")
    ensures SuperArgsResolve(consts, ClientClass(stem, env, id, ms, em))
  {
  }

  lemma ServerClassResolves(stem: string, env: Env, consts: seq<Stmt>)
    requires DeclaresConst(consts, "SCHEMAS") && DeclaresConst(consts, "EXPORT_MAP")
    ensures SuperArgsResolve(consts, ServerClass(stem, env))
  {
    assert ServerClass(stem, env).ctor.params[0].name == "handlers";
  }

  lemma RecordTableResolves(main: string, consts: seq<Stmt>)
    requires DeclaresConst(consts, "ID") && DeclaresConst(consts, "REVISION")
    requires DeclaresConst(consts, "JSON_SCHEMA") && DeclaresConst(consts, "TEMPLATES")
    ensures SuperArgsResolve(consts, RecordTable(main))
  {
    var c := RecordTable(main);
    assert c.ctor.params[0].name == "api" && c.ctor.params[1].name == "dbId";
  }

  /**
   * The client file holds exactly one class: `<Stem>Client`, exported as the
   * default, extending the runtime client class that the file imports, whose
   * constructor passes only declared constants, and with one method per method
   * of the primary interface, under the same name.
   */
  lemma ClientFileClass(stmts: seq<Stmt>, id: string, metadata: seq<Member>, schema: Json, em: ExportMapValue, env: Env)
    requires ClientFile(stmts, id, metadata, schema, em, env).Ok?
    ensures var f := ClientFile(stmts, id, metadata, schema, em, env).value;
      var api := FirstDefault(Interfaces(stmts)).value;
      var c := ClientClass(ClassStem(api.name, metadata, id).value, env, id, api.methods, em);
      ClassStmt(c) in f && (forall s :: s in f && s.ClassStmt? ==> s == ClassStmt(c))
      && c.exportKind == DefaultExport && Imported(f, c.base) && SuperArgsResolve(f, c)
      && |c.methods| == |api.methods| && (forall i :: 0 <= i < |c.methods| ==> c.methods[i].name == api.methods[i].name)
  {
    var f := ClientFile(stmts, id, metadata, schema, em, env).value;
    var api := FirstDefault(Interfaces(stmts)).value;
    var stem := ClassStem(api.name, metadata, id).value;
    var c := ClientClass(stem, env, id, api.methods, em);
    var imports, consts := EnvImports(env, ClientImportNames(env)), ApiConsts(id, metadata, schema, em);
    var tail := ClientTail(stmts, id, metadata, em, env).value;
    assert f == imports + consts + tail;
    ClientTailClass(stmts, id, metadata, em, env);
    EnvImportsShape(env, ClientImportNames(env));
    ApiConstsDeclare(id, metadata, schema, em);
    ClientClassResolves(stem, env, id, api.methods, em, consts);
    OneClassFile(f, imports, consts, tail, c);
  }

  /** The client class is the only class after the constants. */
  lemma ClientTailClass(stmts: seq<Stmt>, id: string, metadata: seq<Member>, em: ExportMapValue, env: Env)
    requires ClientTail(stmts, id, metadata, em, env).Ok?
    ensures var api := FirstDefault(Interfaces(stmts)).value;
      var c := ClientClass(ClassStem(api.name, metadata, id).value, env, id, api.methods, em);
      var tail := ClientTail(stmts, id, metadata, em, env).value;
      ClassStmt(c) in tail && forall s :: s in tail && s.ClassStmt? ==> s == ClassStmt(c)
  {
    var api := FirstDefault(Interfaces(stmts)).value;
    var emitters := EmitterIfaces(stmts, em.events.entries).value;
    var copies := Copies(stmts, env, Exclude(api.name, em.events)).value;
    var c := ClientClass(ClassStem(api.name, metadata, id).value, env, id, api.methods, em);
    ClientTailIs(stmts, id, metadata, em, env, api, ClassStem(api.name, metadata, id).value, emitters, copies);
    EmittersAreInterfaces(stmts, em.events.entries);
    CopiesHoldOnly(stmts, env, Exclude(api.name, em.events));
    ClassThenNoClasses(ClassStmt(c), emitters, copies);
  }

  lemma ClassThenNoClasses(cls: Stmt, a: seq<Stmt>, b: seq<Stmt>)
    requires forall s :: s in a ==> s.InterfaceStmt?
    requires forall s :: s in b ==> CopyKind(s)
    ensures cls in [cls] + a + b && forall s :: s in [cls] + a + b && s.ClassStmt? ==> s == cls
  {
  }

  /**
   * The server file holds exactly one class: `<Stem>Server`, exported as the
   * default, extending the imported runtime server class, taking the imported
   * handlers type, and passing only declared constants and its own parameter.
   */
  lemma ServerFileClass(stmts: seq<Stmt>, id: string, metadata: seq<Member>, schema: Json, em: ExportMapValue, env: Env)
    requires ServerFile(stmts, id, metadata, schema, em, env).Ok?
    ensures var f := ServerFile(stmts, id, metadata, schema, em, env).value;
      var c := ServerClass(ClassStem(FirstDefault(Interfaces(stmts)).value.name, metadata, id).value, env);
      ClassStmt(c) in f && (forall s :: s in f && s.ClassStmt? ==> s == ClassStmt(c))
      && c.exportKind == DefaultExport && Imported(f, c.base) && Imported(f, HandlersType(env)) && SuperArgsResolve(f, c)
  {
    var f := ServerFile(stmts, id, metadata, schema, em, env).value;
    var stem := ClassStem(FirstDefault(Interfaces(stmts)).value.name, metadata, id).value;
    var c := ServerClass(stem, env);
    var imports, consts := EnvImports(env, ServerImportNames(env)), ApiConsts(id, metadata, schema, em);
    var tail := ServerTail(stmts, id, metadata, env).value;
    assert f == imports + consts + tail;
    assert tail == [ClassStmt(c)];
    EnvImportsShape(env, ServerImportNames(env));
    ApiConstsDeclare(id, metadata, schema, em);
    ServerClassResolves(stem, env, consts);
    OneClassFile(f, imports, consts, tail, c);
  }

  /**
   * The record file ends with its only class, `<Main>Table`, where `Main` is
   * the document's first default interface; the record client and API client
   * classes it uses are imported, and its constructor passes only declared
   * constants and its own parameters.
   */
  lemma RecordFileClass(stmts: seq<Stmt>, id: string, metadata: seq<Member>, schema: Json, env: Env)
    requires RecordFile(stmts, id, metadata, schema, env).Ok?
    ensures FirstDefault(Interfaces(stmts)).Some?
    ensures var f := RecordFile(stmts, id, metadata, schema, env).value;
      var c := RecordTable(FirstDefault(Interfaces(stmts)).value.name);
      f != [] && f[|f| - 1] == ClassStmt(c) && (forall s :: s in f && s.ClassStmt? ==> s == ClassStmt(c))
      && Imported(f, "AtekDbRecordClient") && Imported(f, "AtekDbApiClient") && SuperArgsResolve(f, c)
  {
    var f := RecordFile(stmts, id, metadata, schema, env).value;
    var imports, consts := EnvImports(env, RecordImportNames), RecordConsts(id, metadata, schema);
    var tail := RecordTail(stmts, env).value;
    assert f == imports + consts + tail;
    RecordTailClass(stmts, env);
    var c := RecordTable(FirstDefault(Interfaces(stmts)).value.name);
    EnvImportsShape(env, RecordImportNames);
    RecordConstsDeclare(id, metadata, schema);
    RecordTableResolves(FirstDefault(Interfaces(stmts)).value.name, consts);
    OneClassFile(f, imports, consts, tail, c);
  }

  /** The record table closes the file and is its only class. */
  lemma RecordTailClass(stmts: seq<Stmt>, env: Env)
    requires RecordTail(stmts, env).Ok?
    ensures FirstDefault(Interfaces(stmts)).Some?
    ensures var c := RecordTable(FirstDefault(Interfaces(stmts)).value.name);
      var tail := RecordTail(stmts, env).value;
      tail != [] && tail[|tail| - 1] == ClassStmt(c) && forall s :: s in tail && s.ClassStmt? ==> s == ClassStmt(c)
  {
    RecordTableName(stmts, env);
    CopiesHoldOnly(stmts, env, NoExclusion);
  }

  // ---------------------------------------------------------------------------
  // Output names and the prelude

  /** `id.split('/')[1]`: the text between the first and the second `/` of the id. */
  lemma OutputNameOf(a: string, b: string, rest: string)
    requires forall i :: 0 <= i < |a| ==> a[i] != '/'
    requires forall i :: 0 <= i < |b| ==> b[i] != '/'
    requires rest == [] || rest[0] == '/'
    ensures OutputName(a + "/" + b + rest) == b
  {
    var s := a + "/" + b + rest;
    var r := SplitFirst(s, '/');
    assert s[|a|] == '/';
    assert |r.0| == |a|;
    var q := r.1.value;
    assert |q| == |b|;
    assert q == s[|a| + 1..|a| + 1 + |b|] == b;
  }

  /** An id without `/` names its files `undefined.ts` (and `undefined.server.ts`). */
  lemma OutputNameWithoutSlash(id: string)
    requires forall i :: 0 <= i < |id| ==> id[i] != '/'
    ensures OutputName(id) == "undefined"
  {
  }

  /** Omitting the options is the same as giving options without an environment. */
  lemma OmittedOptions(metadata: seq<Member>, stmts: seq<Stmt>, schema: Json, em: ExportMapValue)
    ensures Generated(metadata, stmts, schema, em, None) == Generated(metadata, stmts, schema, em, Some(GenerateOpts(None)))
  {
    assert PreludeEnv(None) == PreludeEnv(Some(GenerateOpts(None)));
    assert ResolveEnv(None) == ResolveEnv(Some(GenerateOpts(None)));
  }

  /**
   * As written, `PRELUDE(opts.env)` reads `env` of the options themselves, so
   * omitting the options (which the signature allows and the environment
   * check tolerates) throws a TypeError for every known document type.
   */
  lemma OmittedOptionsAsWritten(metadata: seq<Member>, stmts: seq<Stmt>, schema: Json, em: ExportMapValue)
    requires IdOf(metadata).Ok?
    requires MemberValue(metadata, "type") == Defined(JStr("api")) || MemberValue(metadata, "type") == Defined(JStr("adb-record"))
    ensures GeneratedAsWritten(metadata, stmts, schema, em, None) == Err(TypeError("opts is undefined"))
  {
  }

  /** Whenever options are given, the written prelude and the corrected one agree. */
  lemma GivenOptionsAgree(metadata: seq<Member>, stmts: seq<Stmt>, schema: Json, em: ExportMapValue, o: GenerateOpts)
    ensures GeneratedAsWritten(metadata, stmts, schema, em, Some(o)) == Generated(metadata, stmts, schema, em, Some(o))
  {
    assert PreludeAsWritten(Some(o)) == Ok(Prelude(PreludeEnv(Some(o))));
  }
}
