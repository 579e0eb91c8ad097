/**
 * What `resolveRefs` does to a document, stated on the JSON document a heap
 * was loaded from: which properties it replaces, which it walks into, where it
 * throws, and that a document without references comes out as it went in.
 */
module ResolveProps {
  import opened Js
  import opened Strings
  import opened JsonHeap
  import opened JsonPointer
  import opened Resolve

  /** `c.$ref`, read on the document: only an object has one. */
  function JsonRef(c: Json): JsValue {
    if c.JObj? then MemberValue(c.members, "$ref") else Undefined
  }

  /** The walk's test `node[k].$ref` on a held value agrees with the document it holds. */
  lemma RefOfHolds(mode: Mode, objs: seq<Obj>, v: Val, c: Json, s: nat)
    requires Holds(objs, v, c, s)
    ensures RefOf(mode, objs, v).Err? <==> mode == AsWritten && c.JNull?
    ensures RefOf(mode, objs, v).Ok? ==> (RefOf(mode, objs, v).value.Some? <==> TruthyValue(JsonRef(c)))
    ensures RefOf(mode, objs, v).Ok? && RefOf(mode, objs, v).value.Some? ==>
      (RefOf(mode, objs, v).value.value.VStr? <==> JsonRef(c).json.JStr?)
    ensures TruthyValue(JsonRef(c)) && JsonRef(c).json.JStr? ==> RefOf(mode, objs, v) == Ok(Some(VStr(JsonRef(c).json.s)))
  {
    if IsContainer(c) {
      if c.JObj? {
        LaidMember(objs, s, c, "$ref");
        match SlotIndex(objs[s].slots, "$ref")
        case None =>
        case Some(i) =>
          CountBeforeMono(c, i, Arity(c));
          HoldsTruthy(objs, objs[s].slots[i].val, Child(c, i), Start(s, c, i));
      } else {
        LaidArrayKey(objs, s, c, "$ref");
      }
    }
  }

  /** `t`'s children and everything below them hold no `$ref` the walk would follow and no `null` it would stop at. */
  predicate Inert(mode: Mode, t: Json)
    decreases t, 0
  {
    forall k :: 0 <= k < Arity(t) ==> ChildInert(mode, Child(t, k))
  }

  predicate ChildInert(mode: Mode, c: Json)
    decreases c, 1
  {
    (mode == AsWritten ==> !c.JNull?) && !TruthyValue(JsonRef(c)) && (IsContainer(c) ==> Inert(mode, c))
  }

  /** A walk over inert properties succeeds and changes nothing. */
  lemma {:induction false} WalkInert(mode: Mode, objs: seq<Obj>, a: nat, t: Json, k: nat, root: Val, fetch: Fetch, fuel: nat)
    requires Laid(objs, a, t, k) && forall j :: k <= j < Arity(t) ==> ChildInert(mode, Child(t, j))
    ensures Walk(mode, objs, a, t, k, root, fetch, fuel) == Ok(objs)
    decreases t, 1, Arity(t) - k
  {
    if k < Arity(t) {
      WalkPastInert(mode, objs, a, t, k, root, fetch, fuel);
      WalkInert(mode, objs, a, t, k + 1, root, fetch, fuel);
    } else {
      WalkEnd(mode, objs, a, t, k, root, fetch, fuel);
    }
  }

  /** Past the last property of a laid-out container the walk stops with the heap as it is. */
  lemma WalkEnd(mode: Mode, objs: seq<Obj>, a: nat, t: Json, k: nat, root: Val, fetch: Fetch, fuel: nat)
    requires Laid(objs, a, t, k) && k == Arity(t)
    ensures Walk(mode, objs, a, t, k, root, fetch, fuel) == Ok(objs)
  {
  }

  /** `resolveRefs` on a freshly parsed document without references leaves the heap as it was. */
  lemma ResolvedInert(mode: Mode, objs: seq<Obj>, t: Json, root: Option<Val>, fetch: Fetch, fuel: nat)
    requires Inert(mode, t)
    ensures var loaded := Load(objs, t); Resolved(mode, loaded.0, loaded.1, root, fetch, fuel, t) == Ok(loaded.0)
  {
    LoadHolds(objs, t);
    var loaded := Load(objs, t);
    if IsContainer(t) {
      var rootValue := if root.Some? && TruthyVal(root.value) then root.value else loaded.1;
      WalkInert(mode, loaded.0, |objs|, t, 0, rootValue, fetch, fuel);
    }
  }

  /** A document parsed onto an empty heap and resolved against itself, as the generator serialises it. */
  function ResolvedDocument(mode: Mode, doc: Json, fetch: Fetch, fuel: nat): Result<Json> {
    var loaded := Load([], doc);
    var objs :- Resolved(mode, loaded.0, loaded.1, None, fetch, fuel, doc);
    ReadBack(objs, loaded.1, |objs|)
  }

  /** A document without references comes out of resolution unchanged. */
  lemma ResolvedDocumentInert(mode: Mode, doc: Json, fetch: Fetch, fuel: nat)
    requires Inert(mode, doc)
    ensures ResolvedDocument(mode, doc, fetch, fuel) == Ok(doc)
  {
    ResolvedInert(mode, [], doc, None, fetch, fuel);
    LoadReadBack([], doc);
  }

  /** Reading `$ref` on a `null` property throws when the property is read as written. */
  lemma WalkNullThrows(objs: seq<Obj>, a: nat, t: Json, k: nat, root: Val, fetch: Fetch, fuel: nat)
    requires Laid(objs, a, t, k) && k < Arity(t) && Child(t, k).JNull?
    ensures Walk(AsWritten, objs, a, t, k, root, fetch, fuel) == Err(TypeError("Cannot read properties of null (reading '$ref')"))
  {
    assert objs[a].slots[k].val == VNull;
  }

  /** With the null check, a `null` property is passed over like any other primitive. */
  lemma WalkNullSkipped(objs: seq<Obj>, a: nat, t: Json, k: nat, root: Val, fetch: Fetch, fuel: nat)
    requires Laid(objs, a, t, k) && k < Arity(t) && Child(t, k).JNull?
    ensures Walk(NullSafe, objs, a, t, k, root, fetch, fuel) == Walk(NullSafe, objs, a, t, k + 1, root, fetch, fuel)
  {
    assert objs[a].slots[k].val == VNull;
  }

  /**
   * A property that is an object with a string `$ref` pointing into the root
   * (after '#', or starting with '/') is replaced by the value the pointer
   * finds, and the walk goes on with the next property: the replacement is
   * not walked.
   */
  lemma WalkLocalRef(mode: Mode, objs: seq<Obj>, a: nat, t: Json, k: nat, root: Val, fetch: Fetch, fuel: nat, ref: string, p: string)
    requires Laid(objs, a, t, k) && k < Arity(t)
    requires JsonRef(Child(t, k)) == Defined(JStr(ref)) && ref != "" && Classify(ref) == Local(p)
    ensures Walk(mode, objs, a, t, k, root, fetch, fuel) ==
      match Get(objs, root, p)
      case Ok(w) => Walk(mode, SetSlot(objs, a, k, w), a, t, k + 1, root, fetch, fuel)
      case Err(e) => Err(e)
  {
    CountBeforeMono(t, k, Arity(t));
    RefOfHolds(mode, objs, objs[a].slots[k].val, Child(t, k), Start(a, t, k));
    WalkStepRef(mode, objs, a, t, k, root, fetch, fuel, VStr(ref));
  }

  /** The same step once the pointer is known to find `w`. */
  lemma WalkLocalRefTo(mode: Mode, objs: seq<Obj>, a: nat, t: Json, k: nat, root: Val, fetch: Fetch, fuel: nat, ref: string, p: string, w: Val)
    requires Laid(objs, a, t, k) && k < Arity(t)
    requires JsonRef(Child(t, k)) == Defined(JStr(ref)) && ref != "" && Classify(ref) == Local(p)
    requires Get(objs, root, p) == Ok(w)
    ensures Walk(mode, objs, a, t, k, root, fetch, fuel) == Walk(mode, SetSlot(objs, a, k, w), a, t, k + 1, root, fetch, fuel)
  {
    WalkLocalRef(mode, objs, a, t, k, root, fetch, fuel, ref, p);
  }

  /** A `$ref` that is truthy but not a string has no `startsWith`, and the walk throws. */
  lemma WalkRefNotString(mode: Mode, objs: seq<Obj>, a: nat, t: Json, k: nat, root: Val, fetch: Fetch, fuel: nat)
    requires Laid(objs, a, t, k) && k < Arity(t)
    requires TruthyValue(JsonRef(Child(t, k))) && !JsonRef(Child(t, k)).json.JStr?
    ensures Walk(mode, objs, a, t, k, root, fetch, fuel) == Err(TypeError("$ref.startsWith is not a function"))
  {
    CountBeforeMono(t, k, Arity(t));
    var v := objs[a].slots[k].val;
    RefOfHolds(mode, objs, v, Child(t, k), Start(a, t, k));
    WalkStepRef(mode, objs, a, t, k, root, fetch, fuel, RefOf(mode, objs, v).value.value);
  }

  /** A remote document that cannot be fetched aborts the whole walk with the fetch error. */
  lemma WalkFetchFails(mode: Mode, objs: seq<Obj>, a: nat, t: Json, k: nat, root: Val, fetch: Fetch, fuel: nat, ref: string)
    requires Laid(objs, a, t, k) && k < Arity(t)
    requires JsonRef(Child(t, k)) == Defined(JStr(ref)) && ref != "" && Classify(ref).Remote?
    requires fuel > 0 && fetch(Classify(ref).url).None?
    ensures Walk(mode, objs, a, t, k, root, fetch, fuel) == Err(FetchFailed(Classify(ref).url))
  {
    CountBeforeMono(t, k, Arity(t));
    RefOfHolds(mode, objs, objs[a].slots[k].val, Child(t, k), Start(a, t, k));
    WalkStepRef(mode, objs, a, t, k, root, fetch, fuel, VStr(ref));
  }

  /**
   * A property without a `$ref` that is itself an object or array is walked
   * with the same root before the walk goes on.
   */
  lemma WalkIntoChild(mode: Mode, objs: seq<Obj>, a: nat, t: Json, k: nat, root: Val, fetch: Fetch, fuel: nat)
    requires Laid(objs, a, t, k) && k < Arity(t)
    requires IsContainer(Child(t, k)) && !TruthyValue(JsonRef(Child(t, k)))
    ensures var s := Start(a, t, k); var w := Walk(mode, objs, s, Child(t, k), 0, root, fetch, fuel);
      Walk(mode, objs, a, t, k, root, fetch, fuel) == (if w.Ok? then Walk(mode, w.value, a, t, k + 1, root, fetch, fuel) else Err(w.error))
  {
    CountBeforeMono(t, k, Arity(t));
    RefOfHolds(mode, objs, objs[a].slots[k].val, Child(t, k), Start(a, t, k));
    WalkStepChild(mode, objs, a, t, k, root, fetch, fuel);
  }

  /** An inert property is passed over: the walk goes on with the next one, on the same heap. */
  lemma WalkPastInert(mode: Mode, objs: seq<Obj>, a: nat, t: Json, j: nat, root: Val, fetch: Fetch, fuel: nat)
    requires Laid(objs, a, t, j) && j < Arity(t) && ChildInert(mode, Child(t, j))
    ensures Laid(objs, a, t, j + 1)
    ensures Walk(mode, objs, a, t, j, root, fetch, fuel) == Walk(mode, objs, a, t, j + 1, root, fetch, fuel)
    decreases t, 0
  {
    var c := Child(t, j);
    var v := objs[a].slots[j].val;
    CountBeforeMono(t, j, Arity(t));
    RefOfHolds(mode, objs, v, c, Start(a, t, j));
    LaidNext(objs, a, t, j);
    if v.VRef? {
      WalkStepChild(mode, objs, a, t, j, root, fetch, fuel);
      assert IsContainer(c) && Laid(objs, v.addr, c, 0);
      WalkInert(mode, objs, v.addr, c, 0, root, fetch, fuel);
    }
  }

  /** A run of inert properties is passed over: the walk goes on after it, on the same heap. */
  lemma {:induction false} WalkPastInertRun(mode: Mode, objs: seq<Obj>, a: nat, t: Json, j: nat, k: nat, root: Val, fetch: Fetch, fuel: nat)
    requires Laid(objs, a, t, j) && j <= k <= Arity(t)
    requires forall i :: j <= i < k ==> ChildInert(mode, Child(t, i))
    ensures Laid(objs, a, t, k)
    ensures Walk(mode, objs, a, t, j, root, fetch, fuel) == Walk(mode, objs, a, t, k, root, fetch, fuel)
    decreases k - j
  {
    if j < k {
      WalkPastInert(mode, objs, a, t, j, root, fetch, fuel);
      WalkPastInertRun(mode, objs, a, t, j + 1, k, root, fetch, fuel);
    }
  }

  /** As written, a walk that passes over inert properties and then reaches a `null` one throws there. */
  lemma WalkInertThenNull(objs: seq<Obj>, a: nat, t: Json, j: nat, k: nat, root: Val, fetch: Fetch, fuel: nat)
    requires Laid(objs, a, t, j) && j <= k < Arity(t) && Child(t, k).JNull?
    requires forall i :: j <= i < k ==> ChildInert(AsWritten, Child(t, i))
    ensures Walk(AsWritten, objs, a, t, j, root, fetch, fuel) == Err(TypeError("Cannot read properties of null (reading '$ref')"))
  {
    WalkPastInertRun(AsWritten, objs, a, t, j, k, root, fetch, fuel);
    WalkNullThrows(objs, a, t, k, root, fetch, fuel);
  }

  /** As written, a document with a `null` property after properties without references fails to resolve. */
  lemma ResolvedNullMember(doc: Json, k: nat, fetch: Fetch, fuel: nat)
    requires IsContainer(doc) && k < Arity(doc) && Child(doc, k).JNull?
    requires forall i :: 0 <= i < k ==> ChildInert(AsWritten, Child(doc, i))
    ensures var loaded := Load([], doc);
      Resolved(AsWritten, loaded.0, loaded.1, None, fetch, fuel, doc) == Err(TypeError("Cannot read properties of null (reading '$ref')"))
  {
    LoadHolds([], doc);
    var loaded := Load([], doc);
    WalkInertThenNull(loaded.0, 0, doc, 0, k, loaded.1, fetch, fuel);
  }

  /** `{"default": null}`, a schema with a `null` value in it. */
  const NullDefault: Json := JObj([Member("default", JNull)])

  /** As written, resolution throws on the `null` property. */
  lemma NullDefaultAsWritten(fetch: Fetch, fuel: nat)
    ensures ResolvedDocument(AsWritten, NullDefault, fetch, fuel) == Err(TypeError("Cannot read properties of null (reading '$ref')"))
  {
    LoadHolds([], NullDefault);
    var loaded := Load([], NullDefault);
    WalkNullThrows(loaded.0, 0, NullDefault, 0, loaded.1, fetch, fuel);
  }

  /** With the null check, the same schema comes out of resolution as it went in. */
  lemma NullDefaultSafe(fetch: Fetch, fuel: nat)
    ensures ResolvedDocument(NullSafe, NullDefault, fetch, fuel) == Ok(NullDefault)
  {
    assert ChildInert(NullSafe, Child(NullDefault, 0));
    ResolvedDocumentInert(NullSafe, NullDefault, fetch, fuel);
  }

  /** `{"a": {"$ref": "#/b"}, "b": 1}` */
  const LocalRefDoc: Json := JObj([Member("a", JObj([Member("$ref", JStr("#/b"))])), Member("b", JNum(1))])

  /** The walk replaces the property "a" by the number the pointer "/b" finds. */
  lemma LocalRefWalked(mode: Mode, fetch: Fetch, fuel: nat)
    ensures var loaded := Load([], LocalRefDoc);
      loaded.1 == VRef(0) && Laid(loaded.0, 0, LocalRefDoc, 0) && |loaded.0[0].slots| == 2 &&
      Resolved(mode, loaded.0, loaded.1, None, fetch, fuel, LocalRefDoc) == Ok(SetSlot(loaded.0, 0, 0, VNum(1)))
  {
    LoadHolds([], LocalRefDoc);
    var loaded := Load([], LocalRefDoc);
    LocalRefWalk(mode, loaded.0, fetch, fuel);
  }

  /** The same walk over any heap that holds the document at address 0. */
  lemma LocalRefWalk(mode: Mode, objs: seq<Obj>, fetch: Fetch, fuel: nat)
    requires Laid(objs, 0, LocalRefDoc, 0)
    ensures Walk(mode, objs, 0, LocalRefDoc, 0, VRef(0), fetch, fuel) == Ok(SetSlot(objs, 0, 0, VNum(1)))
  {
    var objs1 := SetSlot(objs, 0, 0, VNum(1));
    LocalRefFirst(mode, objs, fetch, fuel);
    LaidAfterSet(objs, 0, LocalRefDoc, 0, VNum(1));
    LocalRefRest(mode, objs1, fetch, fuel);
  }

  /** The property "a" is replaced and the walk goes on with "b". */
  lemma LocalRefFirst(mode: Mode, objs: seq<Obj>, fetch: Fetch, fuel: nat)
    requires Laid(objs, 0, LocalRefDoc, 0)
    ensures Walk(mode, objs, 0, LocalRefDoc, 0, VRef(0), fetch, fuel) ==
      Walk(mode, SetSlot(objs, 0, 0, VNum(1)), 0, LocalRefDoc, 1, VRef(0), fetch, fuel)
  {
    LocalRefChild();
    LocalRefTarget(objs);
    WalkFirstLocal(mode, objs, LocalRefDoc, fetch, fuel);
  }

  /** A root whose first property is `{"$ref": "#/b"}` and whose "/b" is 1 has that property replaced by 1. */
  lemma WalkFirstLocal(mode: Mode, objs: seq<Obj>, t: Json, fetch: Fetch, fuel: nat)
    requires Laid(objs, 0, t, 0) && Arity(t) == 2 && JsonRef(Child(t, 0)) == Defined(JStr("#/b"))
    requires Get(objs, VRef(0), "/b") == Ok(VNum(1))
    ensures Walk(mode, objs, 0, t, 0, VRef(0), fetch, fuel) == Walk(mode, SetSlot(objs, 0, 0, VNum(1)), 0, t, 1, VRef(0), fetch, fuel)
  {
    LocalRefClassified();
    WalkLocalRefTo(mode, objs, 0, t, 0, VRef(0), fetch, fuel, "#/b", "/b", VNum(1));
  }

  /** The number under "b" leaves the heap as it is. */
  lemma LocalRefRest(mode: Mode, objs: seq<Obj>, fetch: Fetch, fuel: nat)
    requires Laid(objs, 0, LocalRefDoc, 1)
    ensures Walk(mode, objs, 0, LocalRefDoc, 1, VRef(0), fetch, fuel) == Ok(objs)
  {
    assert ChildInert(mode, Child(LocalRefDoc, 1));
    WalkInert(mode, objs, 0, LocalRefDoc, 1, VRef(0), fetch, fuel);
  }

  /** The property "a" is an object whose `$ref` is "#/b". */
  lemma LocalRefChild()
    ensures Arity(LocalRefDoc) == 2 && JsonRef(Child(LocalRefDoc, 0)) == Defined(JStr("#/b"))
  {
  }

  /** "#/b" is a pointer into the root, and it finds the number under "b". */
  lemma LocalRefTarget(objs: seq<Obj>)
    requires Laid(objs, 0, LocalRefDoc, 0)
    ensures Classify("#/b") == Local("/b") && Get(objs, VRef(0), "/b") == Ok(VNum(1))
  {
    LocalRefClassified();
    LocalRefSlotB(objs);
    assert "/b" == "/" + Escape("b");
    GetKey(objs, 0, "b");
  }

  /** "#/b" is the pointer "/b" into the root. */
  lemma LocalRefClassified()
    ensures Classify("#/b") == Local("/b")
  {
    assert "#/b" == "#" + "/b";
    ClassifyFragment("/b");
  }

  /** The member "b" is the second slot of the root object, and it holds 1. */
  lemma {:induction false} LocalRefSlotB(objs: seq<Obj>)
    requires Laid(objs, 0, LocalRefDoc, 0)
    ensures |objs[0].slots| == 2 && !objs[0].isArray && objs[0].slots[0].key == "a" && SlotIndex(objs[0].slots, "b") == Some(1) && objs[0].slots[1].val == VNum(1)
  {
    assert objs[0].slots[0].key == "a";
    assert objs[0].slots[1].key == "b";
    assert Holds(objs, objs[0].slots[1].val, Child(LocalRefDoc, 1), Start(0, LocalRefDoc, 1));
  }

  /** ... so `{"a": {"$ref": "#/b"}, "b": 1}` resolves to `{"a": 1, "b": 1}`. */
  lemma LocalRefResolved(mode: Mode, fetch: Fetch, fuel: nat)
    ensures ResolvedDocument(mode, LocalRefDoc, fetch, fuel) == Ok(JObj([Member("a", JNum(1)), Member("b", JNum(1))]))
  {
    LocalRefWalked(mode, fetch, fuel);
    var loaded := Load([], LocalRefDoc);
    LocalRefReadBack(loaded.0);
  }

  /** Once "a" holds 1, the heap reads back as `{"a": 1, "b": 1}`. */
  lemma {:induction false} LocalRefReadBack(objs: seq<Obj>)
    requires Laid(objs, 0, LocalRefDoc, 0)
    ensures ReadBack(SetSlot(objs, 0, 0, VNum(1)), VRef(0), |objs|) == Ok(JObj([Member("a", JNum(1)), Member("b", JNum(1))]))
  {
    var objs1 := SetSlot(objs, 0, 0, VNum(1));
    LocalRefSlotB(objs);
    assert objs1[0].slots == [Slot("a", VNum(1)), Slot("b", VNum(1))];
    ReadBackTwoNumbers(objs1, "a", "b", 1, 1);
  }

  /** An object whose two properties hold numbers reads back as the object of those two numbers. */
  lemma {:induction false} ReadBackTwoNumbers(objs: seq<Obj>, ka: string, kb: string, n: int, m: int)
    requires |objs| >= 1 && !objs[0].isArray && objs[0].slots == [Slot(ka, VNum(n)), Slot(kb, VNum(m))]
    ensures ReadBack(objs, VRef(0), |objs|) == Ok(JObj([Member(ka, JNum(n)), Member(kb, JNum(m))]))
  {
    var d := |objs| - 1;
    assert objs[0].slots == [Slot(ka, VNum(n))] + [Slot(kb, VNum(m))];
    ReadSlotsCons(objs, Slot(kb, VNum(m)), [], d, JNum(m), []);
    assert [Slot(kb, VNum(m))] + [] == [Slot(kb, VNum(m))];
    assert [Member(kb, JNum(m))] + [] == [Member(kb, JNum(m))];
    ReadSlotsCons(objs, Slot(ka, VNum(n)), [Slot(kb, VNum(m))], d, JNum(n), [Member(kb, JNum(m))]);
    assert [Member(ka, JNum(n))] + [Member(kb, JNum(m))] == [Member(ka, JNum(n)), Member(kb, JNum(m))];
  }

  /** Reading a slot list back is reading its first slot, then the rest. */
  lemma {:induction false} ReadSlotsCons(objs: seq<Obj>, s: Slot, rest: seq<Slot>, d: nat, x: Json, ms: seq<Member>)
    requires ReadBack(objs, s.val, d) == Ok(x) && ReadSlots(objs, rest, d) == Ok(ms)
    ensures ReadSlots(objs, [s] + rest, d) == Ok([Member(s.key, x)] + ms)
  {
    assert ([s] + rest)[0] == s && ([s] + rest)[1..] == rest;
  }
}
