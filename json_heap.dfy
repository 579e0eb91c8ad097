/**
 * JSON documents as the JavaScript heap holds them: objects and arrays live at
 * addresses, and a member holds either a primitive or a reference to another
 * object. Replacing a member by a reference makes two members share one object,
 * which is what the `$ref` resolver does.
 */
module JsonHeap {
  import opened Js
  import opened Strings

  /** A JavaScript value of a JSON document: a primitive, or a reference to an object or array. */
  datatype Val = VNull | VBool(b: bool) | VNum(n: int) | VStr(s: string) | VRef(addr: nat)

  /** A property: its key and its value. */
  datatype Slot = Slot(key: string, val: Val)

  /** An object or an array; an array's slots are keyed "0", "1", ... in order. */
  datatype Obj = Obj(isArray: bool, slots: seq<Slot>)

  /** JavaScript truthiness: `null`, `false`, `0` and `""` are falsy, every object is truthy. */
  predicate TruthyVal(v: Val) {
    match v
    case VNull => false
    case VBool(b) => b
    case VNum(n) => n != 0
    case VStr(s) => s != ""
    case VRef(_) => true
  }

  /** The position of the property `key`, if the object has it. */
  function SlotIndex(slots: seq<Slot>, key: string): (r: Option<nat>)
    ensures r.Some? ==> r.value < |slots| && slots[r.value].key == key
    ensures r.Some? ==> forall i :: 0 <= i < r.value ==> slots[i].key != key
    ensures r.None? ==> forall i :: 0 <= i < |slots| ==> slots[i].key != key
    decreases |slots|
  {
    if slots == [] then None
    else if slots[0].key == key then Some(0)
    else match SlotIndex(slots[1..], key)
      case None => None
      case Some(i) => Some(i + 1)
  }

  /** The value of the property `key`, if the object has it. */
  function SlotValue(slots: seq<Slot>, key: string): Option<Val> {
    match SlotIndex(slots, key)
    case None => None
    case Some(i) => Some(slots[i].val)
  }

  /** `node[k] = v` for the `k`-th property of the object at `a`. */
  function SetSlot(objs: seq<Obj>, a: nat, k: nat, v: Val): (r: seq<Obj>)
    requires a < |objs| && k < |objs[a].slots|
    ensures |r| == |objs| && r[a].isArray == objs[a].isArray && |r[a].slots| == |objs[a].slots|
    ensures r[a].slots[k] == Slot(objs[a].slots[k].key, v)
    ensures forall i :: 0 <= i < |objs[a].slots| && i != k ==> r[a].slots[i] == objs[a].slots[i]
    ensures forall x :: 0 <= x < |objs| && x != a ==> r[x] == objs[x]
  {
    objs[a := objs[a].(slots := objs[a].slots[k := Slot(objs[a].slots[k].key, v)])]
  }

  /**
   * `objs'` is `objs` after property updates and allocations: every object is
   * still there with the same kind and the same keys, and new objects come after.
   */
  predicate Keeps(objs: seq<Obj>, objs': seq<Obj>) {
    |objs| <= |objs'| &&
    (forall x :: 0 <= x < |objs| ==> objs'[x].isArray == objs[x].isArray && |objs'[x].slots| == |objs[x].slots|) &&
    (forall x, i :: 0 <= x < |objs| && 0 <= i < |objs[x].slots| ==> objs'[x].slots[i].key == objs[x].slots[i].key)
  }

  lemma KeepsTrans(a: seq<Obj>, b: seq<Obj>, c: seq<Obj>)
    requires Keeps(a, b) && Keeps(b, c)
    ensures Keeps(a, c)
  {
  }

  lemma SetSlotKeeps(objs: seq<Obj>, a: nat, k: nat, v: Val)
    requires a < |objs| && k < |objs[a].slots|
    ensures Keeps(objs, SetSlot(objs, a, k, v))
  {
  }

  lemma PrefixKeeps(objs: seq<Obj>, objs': seq<Obj>)
    requires objs <= objs'
    ensures Keeps(objs, objs')
  {
    forall x | 0 <= x < |objs|
      ensures objs'[x] == objs[x]
    {
    }
  }

  /** A JSON primitive as a heap value; objects and arrays are `null` here (callers never pass them). */
  function Primitive(j: Json): Val {
    match j
    case JNull => VNull
    case JBool(b) => VBool(b)
    case JNum(n) => VNum(n)
    case JStr(s) => VStr(s)
    case _ => VNull
  }

  predicate IsContainer(t: Json) { t.JObj? || t.JArr? }

  /** The number of members of an object or elements of an array. */
  function Arity(t: Json): nat {
    match t
    case JObj(ms) => |ms|
    case JArr(items) => |items|
    case _ => 0
  }

  /** The `k`-th member's value or element. */
  function Child(t: Json, k: nat): Json
    requires k < Arity(t)
  {
    match t
    case JObj(ms) => ms[k].value
    case JArr(items) => items[k]
  }

  /** The key under which the `k`-th child is a property: the member's name, or the index numeral. */
  function ChildKey(t: Json, k: nat): string
    requires k < Arity(t)
  {
    match t
    case JObj(ms) => ms[k].key
    case JArr(_) => DecimalString(k)
  }

  /** The number of objects and arrays in a document. */
  function Count(t: Json): nat
    decreases t, 1
  {
    if IsContainer(t) then 1 + CountBefore(t, Arity(t)) else 0
  }

  /** The number of objects and arrays in the first `i` children. */
  function CountBefore(t: Json, i: nat): nat
    requires i <= Arity(t)
    decreases t, 0, i
  {
    if i == 0 then 0 else CountBefore(t, i - 1) + Count(Child(t, i - 1))
  }

  lemma {:induction false} CountBeforeMono(t: Json, i: nat, j: nat)
    requires i <= j <= Arity(t)
    ensures CountBefore(t, i) + (if j > i then Count(Child(t, i)) else 0) <= CountBefore(t, j)
    decreases j
  {
    if j > i + 1 {
      CountBeforeMono(t, i, j - 1);
    }
  }

  /** Where the `i`-th child of the container at `a` starts when the document is laid out by `Load`. */
  function Start(a: nat, t: Json, i: nat): nat
    requires i <= Arity(t)
  {
    a + 1 + CountBefore(t, i)
  }

  /**
   * The container at `a` holds the document `t` as `Load` lays it out: its
   * objects occupy the addresses `a` to `a + Count(t) - 1` in preorder, and the
   * children from position `k` on still hold their members.
   */
  predicate Laid(objs: seq<Obj>, a: nat, t: Json, k: nat)
    decreases t, 0
  {
    IsContainer(t) && k <= Arity(t) && a + Count(t) <= |objs| &&
    objs[a].isArray == t.JArr? && |objs[a].slots| == Arity(t) &&
    forall j :: k <= j < Arity(t) ==>
      objs[a].slots[j].key == ChildKey(t, j) && Holds(objs, objs[a].slots[j].val, Child(t, j), Start(a, t, j))
  }

  /** The value `v` holds the document `c`, whose containers start at `s`. */
  predicate Holds(objs: seq<Obj>, v: Val, c: Json, s: nat)
    decreases c, 1
  {
    if IsContainer(c) then v == VRef(s) && Laid(objs, s, c, 0) else v == Primitive(c)
  }

  /** A heap that agrees on a document's addresses still holds it. */
  lemma {:induction false} LaidFrame(objs: seq<Obj>, objs': seq<Obj>, a: nat, t: Json, k: nat)
    requires Laid(objs, a, t, k)
    requires a + Count(t) <= |objs'|
    requires forall x :: a <= x < a + Count(t) ==> objs'[x] == objs[x]
    ensures Laid(objs', a, t, k)
    decreases t, 0
  {
    forall j | k <= j < Arity(t)
      ensures Holds(objs', objs[a].slots[j].val, Child(t, j), Start(a, t, j))
    {
      CountBeforeMono(t, j, Arity(t));
      HoldsFrame(objs, objs', objs[a].slots[j].val, Child(t, j), Start(a, t, j));
    }
  }

  lemma {:induction false} HoldsFrame(objs: seq<Obj>, objs': seq<Obj>, v: Val, c: Json, s: nat)
    requires Holds(objs, v, c, s)
    requires s + Count(c) <= |objs| && s + Count(c) <= |objs'|
    requires forall x :: s <= x < s + Count(c) ==> objs'[x] == objs[x]
    ensures Holds(objs', v, c, s)
    decreases c, 1
  {
    if IsContainer(c) {
      LaidFrame(objs, objs', s, c, 0);
    }
  }

  lemma LaidPrefix(objs: seq<Obj>, objs': seq<Obj>, a: nat, t: Json, k: nat)
    requires Laid(objs, a, t, k) && objs <= objs'
    ensures Laid(objs', a, t, k)
  {
    LaidFrame(objs, objs', a, t, k);
  }

  /** A held value is truthy exactly when the document it holds is. */
  lemma HoldsTruthy(objs: seq<Obj>, v: Val, c: Json, s: nat)
    requires Holds(objs, v, c, s)
    ensures TruthyVal(v) == Truthy(c)
    ensures v.VStr? <==> c.JStr?
    ensures c.JStr? ==> v == VStr(c.s)
  {
  }

  /** The first member with a key is the one `MemberValue` reads. */
  lemma {:induction false} MemberValueAt(ms: seq<Member>, key: string, i: nat)
    requires i < |ms| && ms[i].key == key
    requires forall j :: 0 <= j < i ==> ms[j].key != key
    ensures MemberValue(ms, key) == Defined(ms[i].value)
    decreases i
  {
    if i > 0 {
      MemberValueAt(ms[1..], key, i - 1);
    }
  }

  /** Reading a property of a laid-out object finds the member the document has under that key. */
  lemma LaidMember(objs: seq<Obj>, a: nat, t: Json, key: string)
    requires Laid(objs, a, t, 0) && t.JObj?
    ensures SlotIndex(objs[a].slots, key).None? <==> MemberValue(t.members, key).Undefined?
    ensures SlotIndex(objs[a].slots, key).Some? ==> MemberValue(t.members, key) == Defined(Child(t, SlotIndex(objs[a].slots, key).value))
  {
    match SlotIndex(objs[a].slots, key)
    case None =>
      assert forall j :: 0 <= j < |t.members| ==> t.members[j].key == objs[a].slots[j].key;
    case Some(i) =>
      assert forall j :: 0 <= j <= i ==> t.members[j].key == objs[a].slots[j].key;
      MemberValueAt(t.members, key, i);
  }

  /** An array has no property whose name does not start with a digit. */
  lemma LaidArrayKey(objs: seq<Obj>, a: nat, t: Json, key: string)
    requires Laid(objs, a, t, 0) && t.JArr? && key != "" && !IsDigit(key[0])
    ensures SlotIndex(objs[a].slots, key).None?
  {
  }

  /**
   * `JSON.parse` (as `response.json()` does it): the objects of a document are
   * allocated after the existing ones, each object before its members.
   */
  function Load(objs: seq<Obj>, t: Json): (r: (seq<Obj>, Val))
    decreases t
  {
    if IsContainer(t) then
      var base := |objs|;
      var loaded := LoadChildren(objs + [Obj(t.JArr?, [])], t, 0);
      (loaded.0[base := Obj(t.JArr?, loaded.1)], VRef(base))
    else (objs, Primitive(t))
  }

  function LoadChildren(objs: seq<Obj>, t: Json, i: nat): (r: (seq<Obj>, seq<Slot>))
    requires i <= Arity(t)
    ensures |objs| <= |r.0|
    decreases t, Arity(t) - i
  {
    if i == Arity(t) then (objs, [])
    else
      var first := Load(objs, Child(t, i));
      var rest := LoadChildren(first.0, t, i + 1);
      (rest.0, [Slot(ChildKey(t, i), first.1)] + rest.1)
  }

  /** `Load` appends exactly the document's containers, laid out from the old end of the heap. */
  lemma {:induction false} LoadHolds(objs: seq<Obj>, t: Json)
    ensures var r := Load(objs, t); objs <= r.0 && |r.0| == |objs| + Count(t) && Holds(r.0, r.1, t, |objs|)
    decreases t, 1
  {
    if IsContainer(t) {
      var h0 := objs + [Obj(t.JArr?, [])];
      var loaded := LoadChildren(h0, t, 0);
      LoadChildrenHolds(h0, t, 0, |objs|);
      FilledHolds(objs, h0, loaded.0, loaded.1, t);
      LoadContainer(objs, t);
    }
  }

  /** The children loaded after the placeholder, once the placeholder's slots are written, hold the container. */
  lemma FilledHolds(objs: seq<Obj>, h0: seq<Obj>, h1: seq<Obj>, slots: seq<Slot>, t: Json)
    requires IsContainer(t) && h0 == objs + [Obj(t.JArr?, [])] && h0 <= h1
    requires |h1| == Start(|objs|, t, Arity(t)) && ChildrenHold(h1, slots, t, 0, |objs|)
    ensures var h := h1[|objs| := Obj(t.JArr?, slots)];
      objs <= h && |h| == |objs| + Count(t) && Holds(h, VRef(|objs|), t, |objs|)
  {
    ParentFilled(h1, |objs|, t, slots);
    PrefixAfterFill(objs, h1, |objs|, Obj(t.JArr?, slots));
  }

  /** A container is loaded as its children after a placeholder, whose slots are then written. */
  lemma LoadContainer(objs: seq<Obj>, t: Json)
    requires IsContainer(t)
    ensures var loaded := LoadChildren(objs + [Obj(t.JArr?, [])], t, 0);
      Load(objs, t) == (loaded.0[|objs| := Obj(t.JArr?, loaded.1)], VRef(|objs|))
  {
  }

  /** Overwriting the placeholder just after `objs` keeps `objs` as a prefix. */
  lemma PrefixAfterFill(objs: seq<Obj>, h1: seq<Obj>, base: nat, o: Obj)
    requires base == |objs| < |h1| && objs <= h1
    ensures objs <= h1[base := o]
  {
    assert forall x :: 0 <= x < |objs| ==> h1[base := o][x] == h1[x] == objs[x];
  }

  /** Writing the parent's slots after its children were loaded lays out the whole container. */
  lemma ParentFilled(h: seq<Obj>, base: nat, t: Json, slots: seq<Slot>)
    requires IsContainer(t) && |h| == Start(base, t, Arity(t)) && |slots| == Arity(t)
    requires forall j :: 0 <= j < Arity(t) ==>
      slots[j].key == ChildKey(t, j) && Holds(h, slots[j].val, Child(t, j), Start(base, t, j))
    ensures Laid(h[base := Obj(t.JArr?, slots)], base, t, 0)
  {
    var h' := h[base := Obj(t.JArr?, slots)];
    assert |h'| == base + Count(t) && h'[base].slots == slots;
    forall j | 0 <= j < Arity(t)
      ensures h'[base].slots[j].key == ChildKey(t, j) && Holds(h', h'[base].slots[j].val, Child(t, j), Start(base, t, j))
    {
      ChildFilled(h, h', base, t, slots[j].val, j);
    }
  }

  /** The `j`-th child, loaded after the parent's address, is untouched when the parent's slots are written. */
  lemma ChildFilled(h: seq<Obj>, h': seq<Obj>, base: nat, t: Json, v: Val, j: nat)
    requires IsContainer(t) && j < Arity(t) && |h| == Start(base, t, Arity(t)) && |h'| == |h|
    requires forall x :: 0 <= x < |h| && x != base ==> h'[x] == h[x]
    requires Holds(h, v, Child(t, j), Start(base, t, j))
    ensures Holds(h', v, Child(t, j), Start(base, t, j))
  {
    CountBeforeMono(t, j, Arity(t));
    HoldsFrame(h, h', v, Child(t, j), Start(base, t, j));
  }

  /** The slots hold the children of `t` from position `i` on, for a container at `a`. */
  predicate ChildrenHold(h: seq<Obj>, slots: seq<Slot>, t: Json, i: nat, a: nat)
    requires i <= Arity(t)
  {
    |slots| == Arity(t) - i &&
    forall j :: i <= j < Arity(t) ==>
      slots[j - i].key == ChildKey(t, j) && Holds(h, slots[j - i].val, Child(t, j), Start(a, t, j))
  }

  lemma {:induction false} LoadChildrenHolds(objs: seq<Obj>, t: Json, i: nat, a: nat)
    requires i <= Arity(t) && |objs| == Start(a, t, i)
    ensures var r := LoadChildren(objs, t, i);
      objs <= r.0 && |r.0| == Start(a, t, Arity(t)) && ChildrenHold(r.0, r.1, t, i, a)
    decreases t, 0, Arity(t) - i
  {
    if i < Arity(t) {
      var first := Load(objs, Child(t, i));
      LoadHolds(objs, Child(t, i));
      var rest := LoadChildren(first.0, t, i + 1);
      LoadChildrenHolds(first.0, t, i + 1, a);
      CountBeforeMono(t, i, Arity(t));
      HoldsFrame(first.0, rest.0, first.1, Child(t, i), Start(a, t, i));
      ChildrenHoldCons(rest.0, first.1, rest.1, t, i, a);
      assert LoadChildren(objs, t, i) == (rest.0, [Slot(ChildKey(t, i), first.1)] + rest.1);
    }
  }

  /** Putting the slot of child `i` before the slots of the later children. */
  lemma ChildrenHoldCons(h: seq<Obj>, v: Val, rest: seq<Slot>, t: Json, i: nat, a: nat)
    requires i < Arity(t) && ChildrenHold(h, rest, t, i + 1, a)
    requires Holds(h, v, Child(t, i), Start(a, t, i))
    ensures ChildrenHold(h, [Slot(ChildKey(t, i), v)] + rest, t, i, a)
  {
    var r := [Slot(ChildKey(t, i), v)] + rest;
    forall j | i <= j < Arity(t)
      ensures r[j - i].key == ChildKey(t, j) && Holds(h, r[j - i].val, Child(t, j), Start(a, t, j))
    {
      if j == i {
        assert r[j - i] == Slot(ChildKey(t, i), v);
      } else {
        assert r[j - i] == rest[j - (i + 1)];
        assert rest[j - (i + 1)].key == ChildKey(t, j) && Holds(h, rest[j - (i + 1)].val, Child(t, j), Start(a, t, j));
      }
    }
  }

  /**
   * `JSON.stringify` read as a value: the document a heap value denotes. A
   * structure that contains itself has no JSON text ("Converting circular
   * structure to JSON"); the model detects it by bounding the nesting by `depth`.
   */
  function ReadBack(objs: seq<Obj>, v: Val, depth: nat): Result<Json>
    decreases depth, 0
  {
    match v
    case VNull => Ok(JNull)
    case VBool(b) => Ok(JBool(b))
    case VNum(n) => Ok(JNum(n))
    case VStr(s) => Ok(JStr(s))
    case VRef(a) =>
      if depth == 0 then Err(TypeError("Converting circular structure to JSON"))
      else if a >= |objs| then Err(NotModelled("a reference outside the heap"))
      else
        var ms :- ReadSlots(objs, objs[a].slots, depth - 1);
        Ok(if objs[a].isArray then JArr(MemberValues(ms)) else JObj(ms))
  }

  function ReadSlots(objs: seq<Obj>, slots: seq<Slot>, depth: nat): (r: Result<seq<Member>>)
    decreases depth, 1, |slots|
  {
    if slots == [] then Ok([])
    else
      var first :- ReadBack(objs, slots[0].val, depth);
      var rest :- ReadSlots(objs, slots[1..], depth);
      Ok([Member(slots[0].key, first)] + rest)
  }

  function MemberValues(ms: seq<Member>): (r: seq<Json>)
    ensures |r| == |ms| && forall i :: 0 <= i < |ms| ==> r[i] == ms[i].value
  {
    if ms == [] then [] else [ms[0].value] + MemberValues(ms[1..])
  }

  /** The children of a container from position `i` on, as members under their keys. */
  function ChildMembers(t: Json, i: nat): (r: seq<Member>)
    requires i <= Arity(t)
    ensures |r| == Arity(t) - i
    ensures forall j :: 0 <= j < |r| ==> r[j] == Member(ChildKey(t, i + j), Child(t, i + j))
    decreases Arity(t) - i
  {
    if i == Arity(t) then [] else [Member(ChildKey(t, i), Child(t, i))] + ChildMembers(t, i + 1)
  }

  lemma {:induction false} ReadBackHolds(objs: seq<Obj>, v: Val, t: Json, s: nat, depth: nat)
    requires Holds(objs, v, t, s) && Count(t) <= depth
    ensures ReadBack(objs, v, depth) == Ok(t)
    decreases t, 1
  {
    if IsContainer(t) {
      CountBeforeMono(t, 0, Arity(t));
      ReadSlotsHolds(objs, s, t, 0, depth - 1);
      assert objs[s].slots[0..] == objs[s].slots;
      ReadBackContainer(objs, s, t, depth);
    } else {
      ReadBackPrimitive(objs, t, depth);
    }
  }

  lemma ReadBackPrimitive(objs: seq<Obj>, t: Json, depth: nat)
    requires !IsContainer(t)
    ensures ReadBack(objs, Primitive(t), depth) == Ok(t)
  {
  }

  /** A container whose slots read back as the document's children reads back as the document. */
  lemma ReadBackContainer(objs: seq<Obj>, s: nat, t: Json, depth: nat)
    requires IsContainer(t) && s < |objs| && depth > 0 && objs[s].isArray == t.JArr?
    requires ReadSlots(objs, objs[s].slots, depth - 1) == Ok(ChildMembers(t, 0))
    ensures ReadBack(objs, VRef(s), depth) == Ok(t)
  {
    if t.JObj? {
      ChildMembersOfObject(t);
    } else {
      ChildMembersOfArray(t);
    }
  }

  lemma ChildMembersOfObject(t: Json)
    requires t.JObj?
    ensures ChildMembers(t, 0) == t.members
  {
  }

  lemma ChildMembersOfArray(t: Json)
    requires t.JArr?
    ensures MemberValues(ChildMembers(t, 0)) == t.items
  {
  }

  lemma {:induction false} ReadSlotsHolds(objs: seq<Obj>, a: nat, t: Json, i: nat, depth: nat)
    requires Laid(objs, a, t, i) && Count(t) <= depth + 1
    ensures ReadSlots(objs, objs[a].slots[i..], depth) == Ok(ChildMembers(t, i))
    decreases t, 0, Arity(t) - i
  {
    var slots := objs[a].slots[i..];
    if i < Arity(t) {
      assert slots[0] == objs[a].slots[i] && slots[1..] == objs[a].slots[i + 1..];
      CountBeforeMono(t, i, Arity(t));
      ReadBackHolds(objs, slots[0].val, Child(t, i), Start(a, t, i), depth);
      ReadSlotsHolds(objs, a, t, i + 1, depth);
    }
  }

  /** Reading back a loaded document gives the document: `Load` and `ReadBack` are inverse. */
  lemma LoadReadBack(objs: seq<Obj>, t: Json)
    ensures ReadBack(Load(objs, t).0, Load(objs, t).1, |Load(objs, t).0|) == Ok(t)
  {
    LoadHolds(objs, t);
    ReadBackHolds(Load(objs, t).0, Load(objs, t).1, t, |objs|, |Load(objs, t).0|);
  }
}
