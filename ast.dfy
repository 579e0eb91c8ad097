/**
 * The part of a ts-morph source file that the generator reads and writes: the
 * top-level statements of a `.d.ts` document, interfaces with their properties
 * and method signatures, and the type texts that the TypeScript checker reports
 * for them. Type texts are opaque strings supplied by the (foreign) checker.
 */
module Ast {
  import opened Js

  /**
   * A parameter of a method signature. A signature's parameter has no
   * initializer, so `isOptional()` is the question token or the rest marker.
   */
  datatype Param = Param(
    name: string,
    written: Option<string>,  // the type annotation as written, if any (what `getStructure` copies)
    typeText: string,         // `getType().getText()`: the checker's text for its type
    questionToken: bool,      // `hasQuestionToken()`: `name?: T`
    rest: bool)               // `isRestParameter()`: `...name: T`
  {
    /** `isOptional()`. */
    predicate Optional() {
      questionToken || rest
    }
  }

  /** A property of the type of a method's second parameter, as the checker reports it. */
  datatype PayloadProp = PayloadProp(name: string, typeText: string)

  /** A method signature of an interface. */
  datatype MethodSig = MethodSig(
    name: string,
    params: seq<Param>,
    returnText: string,          // `getReturnType().getText()`
    payload: seq<PayloadProp>)   // `getParameters()[1].getType().getProperties()`, when there is such a parameter

  /** A property signature of an interface; `written` is its type annotation, absent for `foo;`. */
  datatype Prop = Prop(name: string, written: Option<string>, optional: bool)

  /** An interface declaration; `isDefault` is the `default` keyword. */
  datatype Iface = Iface(
    name: string,
    isDefault: bool,
    exported: bool,
    props: seq<Prop>,
    methods: seq<MethodSig>)

  datatype TypeAlias = TypeAlias(name: string, text: string)
  datatype EnumDecl = EnumDecl(name: string, members: seq<string>)

  /** `import { names } from 'moduleSpecifier'`. */
  datatype ImportDecl = ImportDecl(moduleSpecifier: string, names: seq<string>)

  /**
   * The initializer text of a `const`: the JSON text of a value
   * (`JSON.stringify`), a metadata value written as source text as it is, or a
   * fixed piece of source text.
   */
  datatype Init = InitJson(value: Json) | InitVerbatim(verbatim: Json) | InitCode(code: string)

  datatype ConstDecl = ConstDecl(name: string, init: Init, exported: bool)

  /** A parameter structure (`getStructure()`): name, written type, question token, rest marker. */
  datatype ParamDecl = ParamDecl(name: string, written: Option<string>, questionToken: bool, rest: bool)

  /** An argument of a `super(...)` call: the JSON text of a value, or a name. */
  datatype Arg = ArgJson(value: Json) | ArgName(ident: string)

  /** `return this._rpc(<JSON name>, [args])` or `return this._subscribe([args])`. */
  datatype Body = CallRpc(rpcName: string, args: seq<string>) | CallSubscribe(subscribeArgs: seq<string>)

  datatype ClassMethod = ClassMethod(name: string, params: seq<ParamDecl>, returnType: string, body: Body)

  /** A constructor: its parameters and the arguments of its `super` call. */
  datatype Ctor = Ctor(params: seq<ParamDecl>, superArgs: seq<Arg>)

  datatype ExportKind = DefaultExport | NamedExport | NotExported

  datatype ClassDecl = ClassDecl(name: string, base: string, exportKind: ExportKind, ctor: Ctor, methods: seq<ClassMethod>)

  /**
   * A top-level statement; `CommentStmt` is a `/* ... */` comment with its
   * delimiters. `GeneratedTypesStmt` stands for the declarations that the
   * (foreign) json-schema-to-dts compiler writes for a schema under a name;
   * `VarStmt` is `const name: type = initializer`; `ExportAssignmentStmt` is
   * `export default expression`.
   */
  datatype Stmt =
    | InterfaceStmt(iface: Iface)
    | TypeAliasStmt(alias: TypeAlias)
    | EnumStmt(enumDecl: EnumDecl)
    | ImportStmt(importDecl: ImportDecl)
    | ConstStmt(constDecl: ConstDecl)
    | ClassStmt(classDecl: ClassDecl)
    | CommentStmt(text: string)
    | OtherStmt(text: string)
    | GeneratedTypesStmt(typeName: string, schema: JsValue)
    | VarStmt(varName: string, varType: string, initializer: string)
    | ExportAssignmentStmt(expression: string)

  /** `getChildrenOfKind(SyntaxKind.InterfaceDeclaration)`: the interfaces, in document order. */
  function Interfaces(stmts: seq<Stmt>): (r: seq<Iface>)
    ensures |r| <= |stmts|
    ensures forall x :: x in r <==> InterfaceStmt(x) in stmts
    decreases |stmts|
  {
    if stmts == [] then []
    else
      var rest := Interfaces(stmts[1..]);
      assert forall x :: InterfaceStmt(x) in stmts <==> stmts[0] == InterfaceStmt(x) || InterfaceStmt(x) in stmts[1..];
      if stmts[0].InterfaceStmt? then [stmts[0].iface] + rest else rest
  }

  lemma {:induction false} InterfacesAppend(a: seq<Stmt>, b: seq<Stmt>)
    ensures Interfaces(a + b) == Interfaces(a) + Interfaces(b)
    decreases |a|
  {
    if a != [] {
      assert (a + b)[0] == a[0];
      assert (a + b)[1..] == a[1..] + b;
      InterfacesAppend(a[1..], b);
    } else {
      assert a + b == b;
    }
  }

  /** A ts-morph source file: its statements change as interfaces are added. */
  class SourceFile {
    var statements: seq<Stmt>

    constructor (stmts: seq<Stmt>)
      ensures statements == stmts
    {
      statements := stmts;
    }

    /** `addInterface`: a new interface goes after every existing statement. */
    method AddInterface(iface: Iface)
      modifies this
      ensures statements == old(statements) + [InterfaceStmt(iface)]
    {
      statements := statements + [InterfaceStmt(iface)];
    }

    /** `addImportDeclaration`, `addVariableStatement`, `addClass`, `addTypeAlias`, `addEnum`: append. */
    method AddStatement(s: Stmt)
      modifies this
      ensures statements == old(statements) + [s]
    {
      statements := statements + [s];
    }

    /** What json-schema-to-dts's `compile` appends: its declarations, after every existing statement. */
    method AddStatements(ss: seq<Stmt>)
      modifies this
      ensures statements == old(statements) + ss
    {
      statements := statements + ss;
    }

    /** `addMethod` on the class at position `at`: the method goes after its existing ones. */
    method AddMethod(at: nat, m: ClassMethod)
      requires at < |statements| && statements[at].ClassStmt?
      modifies this
      ensures statements == old(statements)[at := ClassStmt(old(statements[at].classDecl).(methods := old(statements[at].classDecl.methods) + [m]))]
    {
      var c := statements[at].classDecl;
      statements := statements[at := ClassStmt(c.(methods := c.methods + [m]))];
    }

    /** `addProperty` on the interface at position `at`: the property goes after its existing ones. */
    method AddProperty(at: nat, p: Prop)
      requires at < |statements| && statements[at].InterfaceStmt?
      modifies this
      ensures statements == old(statements)[at := InterfaceStmt(old(statements[at].iface).(props := old(statements[at].iface.props) + [p]))]
    {
      var iface := statements[at].iface;
      statements := statements[at := InterfaceStmt(iface.(props := iface.props + [p]))];
    }
  }
}
