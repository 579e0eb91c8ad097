/**
 * The API shape transformer of src/hack-transform-api-for-schema-gen.ts. Every
 * method signature of every interface becomes a data interface that a JSON-schema
 * generator understands, appended to the document, and the export map records
 * where each method's (or event's) definition will be:
 *   - a method `m` of interface `I` gives `api_I_<Safe(m)>` with a `params` tuple
 *     text and a `returns` text, and `methods[m]` points to it;
 *   - a method named `emit` gives `evt_I_<Safe(e)>`, where `e` is its first
 *     parameter's type text without quotes, holding the properties of its second
 *     parameter's type, and `events[I][e]` points to it.
 */
module Transform {
  import opened Js
  import opened Dicts
  import opened Strings
  import opened Util
  import opened Ast
  import opened Types

  // ---------------------------------------------------------------------------
  // The shapes

  function DefinitionPointer(name: string): string { "#/definitions/" + name }

  function ApiShapeName(owner: string, methodName: string): string {
    "api_" + owner + "_" + ToSafeString(methodName)
  }

  function EvtShapeName(owner: string, event: string): string {
    "evt_" + owner + "_" + ToSafeString(event)
  }

  /** One element of the `params` tuple: the parameter's type text, `?` when optional. */
  function ParamText(p: Param): string {
    if p.Optional() then RemoveImport(p.typeText) + "?" else RemoveImport(p.typeText)
  }

  function ParamsText(ps: seq<Param>): string {
    "[" + Join(seq(|ps|, i requires 0 <= i < |ps| => ParamText(ps[i])), ", ") + "]"
  }

  function ReturnsText(m: MethodSig): string {
    RemoveImport(Unwrapped(m.returnText))
  }

  /** `interface api_I_M { params: [...]; returns: ... }`. */
  function ApiShape(owner: string, m: MethodSig): Iface {
    Iface(ApiShapeName(owner, m.name), false, false,
          [Prop("params", Some(ParamsText(m.params)), false), Prop("returns", Some(ReturnsText(m)), false)], [])
  }

  function PayloadText(p: PayloadProp): string {
    RemoveImport(Unwrapped(p.typeText))
  }

  function PayloadProps(ps: seq<PayloadProp>): (r: seq<Prop>)
    ensures |r| == |ps|
    ensures forall i :: 0 <= i < |ps| ==> r[i] == Prop(ps[i].name, Some(PayloadText(ps[i])), false)
  {
    seq(|ps|, i requires 0 <= i < |ps| => Prop(ps[i].name, Some(PayloadText(ps[i])), false))
  }

  /** `interface evt_I_E { ... }` with one property per payload property, in order. */
  function EventShape(owner: string, event: string, payload: seq<PayloadProp>): Iface {
    Iface(EvtShapeName(owner, event), false, false, PayloadProps(payload), [])
  }

  /** `removeQuotes(fn.getParameters()[0].getType().getText())`. */
  function EventName(m: MethodSig): string
    requires |m.params| >= 1
  {
    RemoveQuotes(m.params[0].typeText)
  }

  // ---------------------------------------------------------------------------
  // The transformation as a function of the statements and the export map

  /** One method visit: the name of the interface that declares the method, and the method. */
  datatype Visit = Visit(owner: string, m: MethodSig)

  function VisitsOf(iface: Iface): (r: seq<Visit>)
    ensures |r| == |iface.methods|
    ensures forall j :: 0 <= j < |r| ==> r[j] == Visit(iface.name, iface.methods[j])
  {
    seq(|iface.methods|, j requires 0 <= j < |iface.methods| => Visit(iface.name, iface.methods[j]))
  }

  /** Every method of every interface, interface by interface, in document order. */
  function Visits(ifaces: seq<Iface>): seq<Visit>
    decreases |ifaces|
  {
    if ifaces == [] then [] else Visits(ifaces[..|ifaces| - 1]) + VisitsOf(ifaces[|ifaces| - 1])
  }

  datatype State = State(stmts: seq<Stmt>, em: ExportMapValue)

  predicate IsEmit(v: Visit) { v.m.name == "emit" }

  /**
   * An `emit` needs an event-name parameter and a payload parameter; without
   * them the transformer reads a property of `undefined` and throws.
   */
  predicate WellFormed(v: Visit) { IsEmit(v) ==> |v.m.params| >= 2 }

  /** The `TypeError` a malformed `emit` raises. */
  const MalformedEmit: Error := TypeError("emit needs an event-name and a payload parameter")

  predicate AllWellFormed(vs: seq<Visit>) { forall k :: 0 <= k < |vs| ==> WellFormed(vs[k]) }

  /**
   * What one visit adds: a shape, and an export-map entry pointing to it, either
   * `methods[m]` or `events[owner][event]`.
   */
  datatype Contribution =
    | ApiContribution(methodName: string, shape: Iface)
    | EventContribution(owner: string, event: string, shape: Iface)

  function ContributionOf(v: Visit): Contribution
    requires WellFormed(v)
  {
    if IsEmit(v) then
      var e := EventName(v.m);
      EventContribution(v.owner, e, EventShape(v.owner, e, v.m.payload))
    else
      ApiContribution(v.m.name, ApiShape(v.owner, v.m))
  }

  function Contributions(vs: seq<Visit>): (cs: seq<Contribution>)
    requires AllWellFormed(vs)
    ensures |cs| == |vs|
    ensures forall k :: 0 <= k < |vs| ==> cs[k] == ContributionOf(vs[k])
  {
    seq(|vs|, k requires 0 <= k < |vs| && AllWellFormed(vs) => ContributionOf(vs[k]))
  }

  function ShapeStmts(cs: seq<Contribution>): (r: seq<Stmt>)
    ensures |r| == |cs|
    ensures forall k :: 0 <= k < |cs| ==> r[k] == InterfaceStmt(cs[k].shape)
  {
    seq(|cs|, k requires 0 <= k < |cs| => InterfaceStmt(cs[k].shape))
  }

  /** `exportMap.methods` after the contributions, in order. */
  function MethodsAfter(cs: seq<Contribution>, d: Dict<string>): Dict<string>
    decreases |cs|
  {
    if cs == [] then d
    else
      MethodStep(MethodsAfter(cs[..|cs| - 1], d), cs[|cs| - 1])
  }

  function MethodStep(d: Dict<string>, c: Contribution): Dict<string> {
    match c
    case ApiContribution(n, shape) => Put(d, n, DefinitionPointer(shape.name))
    case EventContribution(_, _, _) => d
  }

  /** `exportMap.events[I] = exportMap.events[I] || {}` followed by `exportMap.events[I][e] = pointer`. */
  function AddEvent(d: Dict<Dict<string>>, owner: string, e: string, pointer: string): Dict<Dict<string>> {
    Put(d, owner, Put(Get(d, owner).GetOr(Dict([])), e, pointer))
  }

  /** `exportMap.events` after the contributions, in order. */
  function EventsAfter(cs: seq<Contribution>, d: Dict<Dict<string>>): Dict<Dict<string>>
    decreases |cs|
  {
    if cs == [] then d
    else
      EventStep(EventsAfter(cs[..|cs| - 1], d), cs[|cs| - 1])
  }

  function EventStep(d: Dict<Dict<string>>, c: Contribution): Dict<Dict<string>> {
    match c
    case ApiContribution(_, _) => d
    case EventContribution(owner, e, shape) => AddEvent(d, owner, e, DefinitionPointer(shape.name))
  }

  /** The contributions applied to a document and an export map. */
  function Applied(cs: seq<Contribution>, st: State): State {
    State(st.stmts + ShapeStmts(cs), ExportMapValue(MethodsAfter(cs, st.em.methods), EventsAfter(cs, st.em.events)))
  }

  /**
   * The visits, in order, on a document and an export map: the shapes are
   * appended after the existing statements and the export map is extended; any
   * malformed `emit` makes the whole transformation fail.
   */
  function Transformed(vs: seq<Visit>, st: State): Result<State> {
    if AllWellFormed(vs) then Ok(Applied(Contributions(vs), st))
    else Err(MalformedEmit)
  }

  lemma {:induction false} MethodsAfterAppend(a: seq<Contribution>, b: seq<Contribution>, d: Dict<string>)
    ensures MethodsAfter(a + b, d) == MethodsAfter(b, MethodsAfter(a, d))
    decreases |b|
  {
    if b == [] {
      assert a + b == a;
    } else {
      var ab := a + b;
      var init, c := b[..|b| - 1], b[|b| - 1];
      assert ab[..|ab| - 1] == a + init && ab[|ab| - 1] == c;
      var x := MethodsAfter(a + init, d);
      assert x == MethodsAfter(init, MethodsAfter(a, d)) by {
        MethodsAfterAppend(a, init, d);
      }
      assert MethodsAfter(ab, d) == MethodStep(x, c);
    }
  }


  lemma {:induction false} EventsAfterAppend(a: seq<Contribution>, b: seq<Contribution>, d: Dict<Dict<string>>)
    ensures EventsAfter(a + b, d) == EventsAfter(b, EventsAfter(a, d))
    decreases |b|
  {
    if b == [] {
      assert a + b == a;
    } else {
      var ab := a + b;
      var init, c := b[..|b| - 1], b[|b| - 1];
      assert ab[..|ab| - 1] == a + init && ab[|ab| - 1] == c;
      var x := EventsAfter(a + init, d);
      assert x == EventsAfter(init, EventsAfter(a, d)) by {
        EventsAfterAppend(a, init, d);
      }
      assert EventsAfter(ab, d) == EventStep(x, c);
    }
  }


  lemma AppliedAppend(a: seq<Contribution>, b: seq<Contribution>, st: State)
    ensures Applied(a + b, st) == Applied(b, Applied(a, st))
  {
    var p := Applied(a, st);
    var q := Applied(b, p);
    var r := Applied(a + b, st);
    assert r.stmts == q.stmts by {
      ShapeStmtsAppend(a, b);
    }
    assert r.em.methods == q.em.methods by {
      MethodsAfterAppend(a, b, st.em.methods);
    }
    assert r.em.events == q.em.events by {
      EventsAfterAppend(a, b, st.em.events);
    }
  }

  lemma ShapeStmtsAppend(a: seq<Contribution>, b: seq<Contribution>)
    ensures ShapeStmts(a + b) == ShapeStmts(a) + ShapeStmts(b)
  {
  }

  lemma AllWellFormedAppend(a: seq<Visit>, b: seq<Visit>)
    ensures AllWellFormed(a + b) <==> AllWellFormed(a) && AllWellFormed(b)
  {
    if AllWellFormed(a) && AllWellFormed(b) {
      forall k | 0 <= k < |a + b| ensures WellFormed((a + b)[k]) {
        if k >= |a| {
          assert (a + b)[k] == b[k - |a|];
        }
      }
    }
    if AllWellFormed(a + b) {
      forall k | 0 <= k < |a| ensures WellFormed(a[k]) {
        assert (a + b)[k] == a[k];
      }
      forall k | 0 <= k < |b| ensures WellFormed(b[k]) {
        assert (a + b)[|a| + k] == b[k];
      }
    }
  }

  /** Transforming `a + b` is transforming `a`, then `b` on the result. */
  lemma TransformedAppend(a: seq<Visit>, b: seq<Visit>, st: State)
    ensures Transformed(a + b, st) == match Transformed(a, st) case Ok(p) => Transformed(b, p) case Err(e) => Err(e)
  {
    AllWellFormedAppend(a, b);
    if AllWellFormed(a) && AllWellFormed(b) {
      var ca, cb := Contributions(a), Contributions(b);
      assert Contributions(a + b) == ca + cb by {
        ContributionsAppend(a, b);
      }
      AppliedAppend(ca, cb, st);
      assert Transformed(a + b, st) == Ok(Applied(ca + cb, st));
      assert Transformed(a, st) == Ok(Applied(ca, st));
      assert Transformed(b, Applied(ca, st)) == Ok(Applied(cb, Applied(ca, st)));
    }
  }

  lemma TransformedEmpty(st: State)
    ensures Transformed([], st) == Ok(st)
  {
    assert Contributions([]) == [];
    assert st.stmts + ShapeStmts([]) == st.stmts;
  }

  /** One visit: its shape is appended and its entry recorded, or it fails. */
  lemma TransformedSingle(v: Visit, st: State)
    ensures Transformed([v], st) ==
      if WellFormed(v) then Ok(AfterVisit(v, st)) else Err(MalformedEmit)
  {
    if WellFormed(v) {
      var cs := Contributions([v]);
      var c := ContributionOf(v);
      assert cs == [c];
      assert cs[..0] == [];
      assert ShapeStmts(cs) == [InterfaceStmt(c.shape)];
      assert MethodsAfter(cs, st.em.methods) == MethodStep(st.em.methods, c);
      assert EventsAfter(cs, st.em.events) == EventStep(st.em.events, c);
    } else {
      assert [v][0] == v;
    }
  }

  lemma ContributionsAppend(a: seq<Visit>, b: seq<Visit>)
    requires AllWellFormed(a) && AllWellFormed(b) && AllWellFormed(a + b)
    ensures Contributions(a + b) == Contributions(a) + Contributions(b)
  {
    MapAppend(a, b, ContributionOf, Contributions(a + b), Contributions(a), Contributions(b));
  }

  /** A sequence that applies `f` to each element of `a + b` is the one for `a` followed by the one for `b`. */
  lemma MapAppend<X, Y>(a: seq<X>, b: seq<X>, f: X --> Y, l: seq<Y>, la: seq<Y>, lb: seq<Y>)
    requires |l| == |a| + |b| && |la| == |a| && |lb| == |b|
    requires forall k :: 0 <= k < |a + b| ==> f.requires((a + b)[k]) && l[k] == f((a + b)[k])
    requires forall k :: 0 <= k < |a| ==> f.requires(a[k]) && la[k] == f(a[k])
    requires forall k :: 0 <= k < |b| ==> f.requires(b[k]) && lb[k] == f(b[k])
    ensures l == la + lb
  {
    forall k | 0 <= k < |l| ensures l[k] == (la + lb)[k] {
      if k < |a| {
        assert (a + b)[k] == a[k];
      } else {
        assert (a + b)[k] == b[k - |a|];
      }
    }
  }

  lemma VisitsPrefix(ifaces: seq<Iface>, i: nat)
    requires i < |ifaces|
    ensures Visits(ifaces[..i + 1]) == Visits(ifaces[..i]) + VisitsOf(ifaces[i])
  {
    assert ifaces[..i + 1][..i] == ifaces[..i];
  }

  // ---------------------------------------------------------------------------
  // The transformation in place

  /** `evtIface.addProperty(...)` in a loop: the event interface's properties. */
  method PayloadPropsInPlace(ast: SourceFile, at: nat, payload: seq<PayloadProp>)
    requires at < |ast.statements| && ast.statements[at].InterfaceStmt?
    modifies ast
    ensures |ast.statements| == |old(ast.statements)|
    ensures forall k :: 0 <= k < |ast.statements| && k != at ==> ast.statements[k] == old(ast.statements[k])
    ensures ast.statements[at] == InterfaceStmt(old(ast.statements[at].iface).(props := old(ast.statements[at].iface.props) + PayloadProps(payload)))
  {
    ghost var before := ast.statements[at].iface;
    for k := 0 to |payload|
      invariant |ast.statements| == |old(ast.statements)|
      invariant forall x :: 0 <= x < |ast.statements| && x != at ==> ast.statements[x] == old(ast.statements[x])
      invariant ast.statements[at] == InterfaceStmt(before.(props := before.props + PayloadProps(payload[..k])))
    {
      var prop := payload[k];
      var t := RemoveGenerics(prop.typeText);
      t := RemoveImport(t);
      ast.AddProperty(at, Prop(prop.name, Some(t), false));
      assert PayloadProps(payload[..k + 1]) == PayloadProps(payload[..k]) + [Prop(prop.name, Some(t), false)];
    }
    assert payload[..|payload|] == payload;
  }

  /** The `params` tuple text: `paramTexts.join(', ')` between brackets. */
  method ParamsTextOf(ps: seq<Param>) returns (text: string)
    ensures text == ParamsText(ps)
  {
    var paramTexts: seq<string> := [];
    for i := 0 to |ps|
      invariant paramTexts == seq(i, j requires 0 <= j < i => ParamText(ps[j]))
    {
      var t := RemoveImport(ps[i].typeText);
      if ps[i].Optional() {
        t := t + "?";
      }
      paramTexts := paramTexts + [t];
      assert paramTexts == seq(i + 1, j requires 0 <= j < i + 1 => ParamText(ps[j]));
    }
    text := "[" + Join(paramTexts, ", ") + "]";
  }

  /** The state one visit leads to, when it is well formed. */
  function AfterVisit(v: Visit, st: State): State
    requires WellFormed(v)
  {
    var c := ContributionOf(v);
    State(st.stmts + [InterfaceStmt(c.shape)], ExportMapValue(MethodStep(st.em.methods, c), EventStep(st.em.events, c)))
  }

  /** The `emit` branch of `transformIface`: an event shape and an `events` entry. */
  method VisitEmit(ast: SourceFile, owner: string, fn: MethodSig, em: ExportMap) returns (o: Outcome)
    requires fn.name == "emit"
    modifies ast, em
    ensures o.Pass? <==> WellFormed(Visit(owner, fn))
    ensures o.Fail? ==> o.error == MalformedEmit
    ensures o.Pass? ==> State(ast.statements, em.Value()) == AfterVisit(Visit(owner, fn), old(State(ast.statements, em.Value())))
  {
    if |fn.params| < 1 {
      return Fail(MalformedEmit);
    }
    var eventName := RemoveQuotes(fn.params[0].typeText);
    var ifaceName := "evt_" + owner + "_" + ToSafeString(eventName);
    var inner := Get(em.events, owner).GetOr(Dict([]));
    em.events := Put(em.events, owner, Put(inner, eventName, "#/definitions/" + ifaceName));
    ast.AddInterface(Iface(ifaceName, false, false, [], []));
    if |fn.params| < 2 {
      return Fail(MalformedEmit);
    }
    PayloadPropsInPlace(ast, |ast.statements| - 1, fn.payload);
    o := Pass;
    ghost var v := Visit(owner, fn);
    ghost var c := ContributionOf(v);
    assert c == EventContribution(owner, eventName, Iface(ifaceName, false, false, PayloadProps(fn.payload), []));
    assert ast.statements == old(ast.statements) + [InterfaceStmt(c.shape)] by {
      assert [] + PayloadProps(fn.payload) == PayloadProps(fn.payload);
    }
    assert em.events == EventStep(old(em.events), c);
  }

  /** The other branch of `transformIface`: an API shape and a `methods` entry. */
  method VisitApi(ast: SourceFile, owner: string, fn: MethodSig, em: ExportMap)
    requires fn.name != "emit"
    modifies ast, em
    ensures State(ast.statements, em.Value()) == AfterVisit(Visit(owner, fn), old(State(ast.statements, em.Value())))
  {
    var ifaceName := "api_" + owner + "_" + ToSafeString(fn.name);
    em.methods := Put(em.methods, fn.name, "#/definitions/" + ifaceName);
    var params := ParamsTextOf(fn.params);
    var returnsText := RemoveGenerics(fn.returnText);
    returnsText := RemoveImport(returnsText);
    ast.AddInterface(Iface(ifaceName, false, false,
                           [Prop("params", Some(params), false), Prop("returns", Some(returnsText), false)], []));
  }

  /** `transformIface`: the methods of one interface, in order. */
  method TransformIface(ast: SourceFile, iface: Iface, em: ExportMap) returns (o: Outcome)
    modifies ast, em
    ensures o.Pass? <==> Transformed(VisitsOf(iface), old(State(ast.statements, em.Value()))).Ok?
    ensures o.Fail? ==> o.error == MalformedEmit
    ensures o.Pass? ==> Transformed(VisitsOf(iface), old(State(ast.statements, em.Value()))) == Ok(State(ast.statements, em.Value()))
  {
    ghost var st0 := State(ast.statements, em.Value());
    var vs := VisitsOf(iface);
    assert vs[..0] == [];
    TransformedEmpty(st0);
    for j := 0 to |iface.methods|
      invariant Transformed(vs[..j], st0) == Ok(State(ast.statements, em.Value()))
    {
      var fn := iface.methods[j];
      ghost var cur := State(ast.statements, em.Value());
      ghost var v := Visit(iface.name, fn);
      assert vs[j] == v;
      if fn.name == "emit" {
        o := VisitEmit(ast, iface.name, fn, em);
        if o.Fail? {
          return;
        }
      } else {
        VisitApi(ast, iface.name, fn, em);
      }
      assert Transformed(vs[..j + 1], st0) == Ok(AfterVisit(v, cur)) by {
        assert vs[..j + 1] == vs[..j] + [v];
        TransformedAppend(vs[..j], [v], st0);
        TransformedSingle(v, cur);
      }
    }
    assert vs[..|iface.methods|] == vs;
    o := Pass;
  }

  /** `transformAST`: every interface of the document as it was before the call, in order. */
  method TransformAst(ast: SourceFile, em: ExportMap) returns (o: Outcome)
    modifies ast, em
    ensures o.Pass? <==> Transformed(Visits(Interfaces(old(ast.statements))), old(State(ast.statements, em.Value()))).Ok?
    ensures o.Fail? ==> o.error == MalformedEmit
    ensures o.Pass? ==>
      Transformed(Visits(Interfaces(old(ast.statements))), old(State(ast.statements, em.Value()))) == Ok(State(ast.statements, em.Value()))
  {
    ghost var st0 := State(ast.statements, em.Value());
    var ifaces := Interfaces(ast.statements);
    assert ifaces[..0] == [];
    TransformedEmpty(st0);
    for i := 0 to |ifaces|
      invariant Transformed(Visits(ifaces[..i]), st0) == Ok(State(ast.statements, em.Value()))
    {
      o := TransformIface(ast, ifaces[i], em);
      VisitsPrefix(ifaces, i);
      TransformedAppend(Visits(ifaces[..i]), VisitsOf(ifaces[i]), st0);
      if o.Fail? {
        VisitsSplit(ifaces, i + 1);
        AllWellFormedAppend(Visits(ifaces[..i + 1]), Visits(ifaces[i + 1..]));
        return;
      }
    }
    assert ifaces[..|ifaces|] == ifaces;
    o := Pass;
  }

  lemma {:induction false} VisitsSplit(ifaces: seq<Iface>, i: nat)
    requires i <= |ifaces|
    ensures Visits(ifaces) == Visits(ifaces[..i]) + Visits(ifaces[i..])
    decreases |ifaces| - i
  {
    if i < |ifaces| {
      VisitsSplit(ifaces, i + 1);
      VisitsPrefix(ifaces, i);
      VisitsLead(ifaces[i..]);
      assert ifaces[i..][1..] == ifaces[i + 1..];
      assert ifaces[i..][0] == ifaces[i];
      AppendAssoc(Visits(ifaces[..i]), VisitsOf(ifaces[i]), Visits(ifaces[i + 1..]));
    } else {
      assert ifaces[..i] == ifaces;
    }
  }

  lemma {:induction false} VisitsLead(ifaces: seq<Iface>)
    requires ifaces != []
    ensures Visits(ifaces) == VisitsOf(ifaces[0]) + Visits(ifaces[1..])
    decreases |ifaces|
  {
    if |ifaces| == 1 {
      assert ifaces[..0] == [] && ifaces[1..] == [];
    } else {
      var init, tail, last := ifaces[..|ifaces| - 1], ifaces[1..], ifaces[|ifaces| - 1];
      VisitsLead(init);
      assert init[0] == ifaces[0];
      assert init[1..] == tail[..|tail| - 1];
      assert tail[|tail| - 1] == last;
      assert Visits(tail) == Visits(init[1..]) + VisitsOf(last);
      assert Visits(ifaces) == Visits(init) + VisitsOf(last);
      AppendAssoc(VisitsOf(ifaces[0]), Visits(init[1..]), VisitsOf(last));
    }
  }

  // ---------------------------------------------------------------------------
  // What the transformation promises

  /** The position of the last contribution to `methods[n]`, if any. */
  function LastApiIndex(cs: seq<Contribution>, n: string): (r: Option<nat>)
    ensures r.Some? ==> r.value < |cs| && cs[r.value].ApiContribution? && cs[r.value].methodName == n
    ensures r.Some? ==> forall k :: r.value < k < |cs| ==> !(cs[k].ApiContribution? && cs[k].methodName == n)
    ensures r.None? ==> forall k :: 0 <= k < |cs| ==> !(cs[k].ApiContribution? && cs[k].methodName == n)
    decreases |cs|
  {
    if cs == [] then None
    else if cs[|cs| - 1].ApiContribution? && cs[|cs| - 1].methodName == n then Some(|cs| - 1)
    else LastApiIndex(cs[..|cs| - 1], n)
  }

  /** `methods[n]` points at the shape of the last contribution for `n`; other entries keep their value. */
  lemma {:induction false} MethodsAfterIsLast(cs: seq<Contribution>, d: Dict<string>, n: string)
    ensures Get(MethodsAfter(cs, d), n) ==
      match LastApiIndex(cs, n)
      case Some(k) => Some(DefinitionPointer(cs[k].shape.name))
      case None => Get(d, n)
    decreases |cs|
  {
    if cs != [] {
      var init := cs[..|cs| - 1];
      MethodsAfterIsLast(init, d, n);
      var p := MethodsAfter(init, d);
      match cs[|cs| - 1]
      case ApiContribution(m, shape) =>
        PutSpec(p, m, DefinitionPointer(shape.name));
      case EventContribution(_, _, _) =>
    }
  }

  /**
   * For a well-formed document, `methods[n]` points to `api_I_<Safe(n)>`, where
   * `I` is the last interface with a non-`emit` method `n`: a later interface
   * overwrites an earlier pointer. Without such a method the entry keeps its
   * value, and that is always so for `emit`.
   */
  lemma MethodsPointToLastShape(vs: seq<Visit>, d: Dict<string>, n: string)
    requires AllWellFormed(vs)
    ensures var cs := Contributions(vs);
      match LastApiIndex(cs, n)
      case Some(k) =>
        !IsEmit(vs[k]) && vs[k].m.name == n
        && (forall j :: k < j < |vs| ==> IsEmit(vs[j]) || vs[j].m.name != n)
        && Get(MethodsAfter(cs, d), n) == Some(DefinitionPointer(ApiShapeName(vs[k].owner, n)))
      case None =>
        (forall j :: 0 <= j < |vs| ==> IsEmit(vs[j]) || vs[j].m.name != n)
        && Get(MethodsAfter(cs, d), n) == Get(d, n)
    ensures n == "emit" ==> LastApiIndex(Contributions(vs), n).None?
  {
    var cs := Contributions(vs);
    MethodsAfterIsLast(cs, d, n);
    forall j | 0 <= j < |vs| ensures cs[j].ApiContribution? && cs[j].methodName == n <==> !IsEmit(vs[j]) && vs[j].m.name == n {
    }
  }

  /** The position of the last contribution to `events[owner][e]`, if any. */
  function LastEventIndex(cs: seq<Contribution>, owner: string, e: string): (r: Option<nat>)
    ensures r.Some? ==> r.value < |cs| && cs[r.value].EventContribution? && cs[r.value].owner == owner && cs[r.value].event == e
    ensures r.None? ==> forall k :: 0 <= k < |cs| ==> !(cs[k].EventContribution? && cs[k].owner == owner && cs[k].event == e)
    decreases |cs|
  {
    if cs == [] then None
    else if cs[|cs| - 1].EventContribution? && cs[|cs| - 1].owner == owner && cs[|cs| - 1].event == e then Some(|cs| - 1)
    else LastEventIndex(cs[..|cs| - 1], owner, e)
  }

  /** Some contribution to `events[owner]`. */
  predicate AnyEventOf(cs: seq<Contribution>, owner: string) {
    exists k :: 0 <= k < |cs| && cs[k].EventContribution? && cs[k].owner == owner
  }

  function EventEntry(events: Dict<Dict<string>>, owner: string, e: string): Option<string> {
    match Get(events, owner)
    case None => None
    case Some(d) => Get(d, e)
  }

  /**
   * `events[I][e]` points at the shape of the last contribution for it, every
   * other entry (including the other events of `I` recorded before) keeps its
   * value, and `events[I]` exists exactly when it did before or `I` has a
   * contribution.
   */
  lemma {:induction false} EventsAfterIsLast(cs: seq<Contribution>, d: Dict<Dict<string>>, owner: string, e: string)
    ensures EventEntry(EventsAfter(cs, d), owner, e) ==
      match LastEventIndex(cs, owner, e)
      case Some(k) => Some(DefinitionPointer(cs[k].shape.name))
      case None => EventEntry(d, owner, e)
    ensures Has(EventsAfter(cs, d), owner) <==> Has(d, owner) || AnyEventOf(cs, owner)
    decreases |cs|
  {
    if cs != [] {
      var init := cs[..|cs| - 1];
      EventsAfterIsLast(init, d, owner, e);
      var p := EventsAfter(init, d);
      assert AnyEventOf(cs, owner) <==> AnyEventOf(init, owner) || (cs[|cs| - 1].EventContribution? && cs[|cs| - 1].owner == owner) by {
        if AnyEventOf(cs, owner) && !AnyEventOf(init, owner) {
          var k :| 0 <= k < |cs| && cs[k].EventContribution? && cs[k].owner == owner;
          assert k == |cs| - 1;
        }
        if AnyEventOf(init, owner) {
          var k :| 0 <= k < |init| && init[k].EventContribution? && init[k].owner == owner;
          assert cs[k] == init[k];
        }
      }
      EventStepEntry(p, cs[|cs| - 1], owner, e);
    }
  }

  /** One contribution's effect on the entry `events[owner][e]` and on `events[owner]`. */
  lemma EventStepEntry(d: Dict<Dict<string>>, c: Contribution, owner: string, e: string)
    ensures EventEntry(EventStep(d, c), owner, e) ==
      if c.EventContribution? && c.owner == owner && c.event == e then Some(DefinitionPointer(c.shape.name))
      else EventEntry(d, owner, e)
    ensures Has(EventStep(d, c), owner) <==> Has(d, owner) || (c.EventContribution? && c.owner == owner)
  {
    if c.EventContribution? {
      var inner := Get(d, c.owner).GetOr(Dict([]));
      var ptr := DefinitionPointer(c.shape.name);
      PutSpec(inner, c.event, ptr);
      PutSpec(d, c.owner, Put(inner, c.event, ptr));
      if c.owner == owner && Get(d, owner).None? {
        var empty: Dict<string> := Dict([]);
        assert Get(empty, e).None?;
      }
    }
  }

  /** Some `emit` of interface `owner` names event `e`. */
  predicate Emits(vs: seq<Visit>, owner: string, e: string)
    requires AllWellFormed(vs)
  {
    exists k :: 0 <= k < |vs| && vs[k].owner == owner && IsEmit(vs[k]) && EventName(vs[k].m) == e
  }

  /** Some `emit` of interface `owner`. */
  predicate EmitsAny(vs: seq<Visit>, owner: string) {
    exists k :: 0 <= k < |vs| && vs[k].owner == owner && IsEmit(vs[k])
  }

  /**
   * For a well-formed document, `events[I][e]` points to `evt_I_<Safe(e)>` exactly
   * when some `emit` of `I` has event `e`; every other entry keeps its value; and
   * `events[I]` exists afterwards exactly when it existed before or `I` has an
   * `emit`.
   */
  /** A visit contributes an event of `owner` exactly when it is an `emit` of `owner`, and the event's shape is named after both. */
  lemma EventContributionOf(v: Visit, owner: string, e: string)
    requires WellFormed(v)
    ensures var c := ContributionOf(v);
      (c.EventContribution? && c.owner == owner <==> IsEmit(v) && v.owner == owner)
      && (c.EventContribution? && c.owner == owner && c.event == e <==> IsEmit(v) && v.owner == owner && EventName(v.m) == e)
      && (c.EventContribution? ==> c.shape.name == EvtShapeName(c.owner, c.event))
  {
  }

  lemma EventsPointToShapes(vs: seq<Visit>, d: Dict<Dict<string>>, owner: string, e: string)
    requires AllWellFormed(vs)
    ensures EventEntry(EventsAfter(Contributions(vs), d), owner, e) ==
      if Emits(vs, owner, e) then Some(DefinitionPointer(EvtShapeName(owner, e))) else EventEntry(d, owner, e)
    ensures Has(EventsAfter(Contributions(vs), d), owner) <==> Has(d, owner) || EmitsAny(vs, owner)
  {
    EventsAfterIsLast(Contributions(vs), d, owner, e);
    LastEventIsEmit(vs, owner, e);
    AnyEventIsEmit(vs, owner);
  }

  /** The last event contribution for `owner` and `e` exists exactly when such an `emit` was visited, and its shape is `<owner><e>Evt`. */
  lemma LastEventIsEmit(vs: seq<Visit>, owner: string, e: string)
    requires AllWellFormed(vs)
    ensures LastEventIndex(Contributions(vs), owner, e).Some? <==> Emits(vs, owner, e)
    ensures LastEventIndex(Contributions(vs), owner, e).Some? ==>
      Contributions(vs)[LastEventIndex(Contributions(vs), owner, e).value].shape.name == EvtShapeName(owner, e)
  {
    var cs := Contributions(vs);
    var last := LastEventIndex(cs, owner, e);
    if Emits(vs, owner, e) {
      var k :| 0 <= k < |vs| && vs[k].owner == owner && IsEmit(vs[k]) && EventName(vs[k].m) == e;
      assert cs[k] == ContributionOf(vs[k]);
      EventContributionOf(vs[k], owner, e);
    }
    if last.Some? {
      var k := last.value;
      assert cs[k] == ContributionOf(vs[k]);
      EventContributionOf(vs[k], owner, e);
    }
  }

  /** Some event contribution is for `owner` exactly when some `emit` of `owner` was visited. */
  lemma AnyEventIsEmit(vs: seq<Visit>, owner: string)
    requires AllWellFormed(vs)
    ensures AnyEventOf(Contributions(vs), owner) <==> EmitsAny(vs, owner)
  {
    var cs := Contributions(vs);
    if AnyEventOf(cs, owner) {
      var k :| 0 <= k < |cs| && cs[k].EventContribution? && cs[k].owner == owner;
      assert cs[k] == ContributionOf(vs[k]);
      EventContributionOf(vs[k], owner, "");
    }
    if EmitsAny(vs, owner) {
      var k :| 0 <= k < |vs| && vs[k].owner == owner && IsEmit(vs[k]);
      assert cs[k] == ContributionOf(vs[k]);
      EventContributionOf(vs[k], owner, "");
    }
  }

  /** The original statements stay, in their place, and one shape per visit follows them in visit order. */
  lemma ShapesFollowOriginals(vs: seq<Visit>, st: State)
    requires AllWellFormed(vs)
    ensures var r := Transformed(vs, st).value.stmts;
      |r| == |st.stmts| + |vs| && r[..|st.stmts|] == st.stmts
      && forall k :: 0 <= k < |vs| ==> r[|st.stmts| + k] == InterfaceStmt(ContributionOf(vs[k]).shape)
  {
    var r := Transformed(vs, st).value.stmts;
    assert r == st.stmts + ShapeStmts(Contributions(vs));
    assert r[..|st.stmts|] == st.stmts;
  }
}
