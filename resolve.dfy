/**
 * `resolveRefs`: an in-place rewrite of a parsed JSON document. Every property
 * whose value is an object with a truthy `$ref` is overwritten by what that
 * reference points to; every other object or array value is walked in turn. A
 * reference starting with '#' or '/' is a JSON pointer into the root document;
 * any other reference names a remote document, which is fetched, resolved
 * against itself, and then pointed into.
 *
 * The walk is specified by the functions `Walk`, `Target`, `Fetched` and
 * `Resolved` over the heap value; the class `Heap` performs it in place and is
 * proved to agree with them.
 */
module Resolve {
  import opened Js
  import opened Strings
  import opened JsonHeap
  import opened JsonPointer

  /**
   * `AsWritten` reads `node[k].$ref` for every property, so a `null` property
   * throws; `NullSafe` skips `null` as it does every other primitive.
   */
  datatype Mode = AsWritten | NullSafe

  /** A remote document lookup (`fetch(url)` then `.json()`): None when either fails. */
  type Fetch = string -> Option<Json>

  /** `node[k].$ref` when it is truthy: None when it is absent or falsy. */
  function RefOf(mode: Mode, objs: seq<Obj>, v: Val): (r: Result<Option<Val>>)
    ensures r.Err? <==> mode == AsWritten && v.VNull?
    ensures r.Ok? && r.value.Some? ==> v.VRef? && TruthyVal(r.value.value)
  {
    match v
    case VNull =>
      if mode == AsWritten then Err(TypeError("Cannot read properties of null (reading '$ref')")) else Ok(None)
    case VRef(a) =>
      if a < |objs| then
        match SlotValue(objs[a].slots, "$ref")
        case Some(ref) => if TruthyVal(ref) then Ok(Some(ref)) else Ok(None)
        case None => Ok(None)
      else Ok(None)
    case _ => Ok(None)
  }

  /** How a `$ref` string is followed. */
  datatype RefKind = Local(pointer: string) | Remote(url: string, pointer: string)

  /**
   * '#' starts a pointer into the root after the '#'; '/' is itself a pointer
   * into the root; anything else is `url#pointer`, split at '#' (only the first
   * two pieces count, and a missing pointer is the empty pointer).
   */
  function Classify(ref: string): RefKind {
    if |ref| > 0 && ref[0] == '#' then Local(ref[1..])
    else if |ref| > 0 && ref[0] == '/' then Local(ref)
    else
      var pieces := SplitAll(ref, '#');
      Remote(pieces[0], if |pieces| > 1 then pieces[1] else "")
  }

  /** A URL that `Classify` reads back from `url#pointer` or from `url` alone. */
  predicate PlainUrl(url: string) {
    url != "" && url[0] != '/' && forall i :: 0 <= i < |url| ==> url[i] != '#'
  }

  lemma ClassifyFragment(p: string)
    ensures Classify("#" + p) == Local(p)
  {
    assert ("#" + p)[1..] == p;
  }

  /** A `$ref` that starts with `/` is itself the pointer into the root. */
  lemma ClassifyAbsolute(p: string)
    ensures Classify("/" + p) == Local("/" + p)
  {
    assert ("/" + p)[0] == '/';
  }

  lemma ClassifyRemote(url: string, p: string)
    requires PlainUrl(url) && forall i :: 0 <= i < |p| ==> p[i] != '#'
    ensures Classify(url + "#" + p) == Remote(url, p)
    ensures Classify(url) == Remote(url, "")
  {
    assert (url + "#" + p)[0] == url[0];
    assert url + "#" + p == url + ['#'] + p;
    SplitAllAppend(url, p, '#');
    assert IndexOf(url, '#').None?;
    assert IndexOf(p, '#').None?;
  }

  /** Only the first two '#'-pieces are used: `a#b#c` points at `b` in `a`. */
  lemma ClassifyDropsThirdPiece(url: string, p: string, q: string)
    requires PlainUrl(url)
    requires forall i :: 0 <= i < |p| ==> p[i] != '#'
    ensures Classify(url + "#" + p + "#" + q) == Remote(url, p)
  {
    assert (url + "#" + p + "#" + q)[0] == url[0];
    assert url + "#" + p + "#" + q == url + ['#'] + (p + ['#'] + q);
    SplitAllAppend(url, p + ['#'] + q, '#');
    SplitAllAppend(p, q, '#');
    assert IndexOf(url, '#').None?;
    assert IndexOf(p, '#').None?;
  }

  /**
   * The value a truthy `$ref` is replaced by, and the heap after any remote
   * documents it needed were fetched and resolved.
   */
  function Target(mode: Mode, objs: seq<Obj>, ref: Val, root: Val, fetch: Fetch, fuel: nat): (r: Result<(seq<Obj>, Val)>)
    ensures r.Ok? ==> Keeps(objs, r.value.0)
    decreases fuel, 0
  {
    if !ref.VStr? then Err(TypeError("$ref.startsWith is not a function"))
    else match Classify(ref.s)
      case Local(p) =>
        var w :- Get(objs, root, p);
        Ok((objs, w))
      case Remote(url, p) =>
        if fuel == 0 then Err(FetchDepthExceeded(url))
        else
          var doc :- Fetched(mode, objs, url, fetch, fuel - 1);
          var w :- Get(doc.0, doc.1, p);
          Ok((doc.0, w))
  }

  /** `fetchSchema(url)`: the fetched document, parsed onto the heap and resolved against itself. */
  function Fetched(mode: Mode, objs: seq<Obj>, url: string, fetch: Fetch, fuel: nat): (r: Result<(seq<Obj>, Val)>)
    ensures r.Ok? ==> Keeps(objs, r.value.0)
    decreases fuel
  {
    match fetch(url)
    case None => Err(FetchFailed(url))
    case Some(j) =>
      var loaded := Load(objs, j);
      LoadHolds(objs, j);
      PrefixKeeps(objs, loaded.0);
      var objs1 :- Resolved(mode, loaded.0, loaded.1, Some(loaded.1), fetch, fuel, j);
      Ok((objs1, loaded.1))
  }

  /**
   * `resolveRefs(node, root)`: `root` defaults to `node`, and a node that is not
   * an object leaves everything as it is. `t` is the document `node` was parsed
   * from; it only bounds the walk.
   */
  function Resolved(mode: Mode, objs: seq<Obj>, node: Val, root: Option<Val>, fetch: Fetch, fuel: nat, t: Json): (r: Result<seq<Obj>>)
    ensures r.Ok? ==> Keeps(objs, r.value)
    ensures !node.VRef? ==> r == Ok(objs)
    decreases fuel, 1, t, Arity(t) + 1
  {
    var rootValue := if root.Some? && TruthyVal(root.value) then root.value else node;
    if !node.VRef? then Ok(objs) else Walk(mode, objs, node.addr, t, 0, rootValue, fetch, fuel)
  }

  /** The `for…in` loop over the properties of the object at `a`, from the `k`-th on. */
  function Walk(mode: Mode, objs: seq<Obj>, a: nat, t: Json, k: nat, root: Val, fetch: Fetch, fuel: nat): (r: Result<seq<Obj>>)
    requires k <= Arity(t)
    ensures r.Ok? ==> Keeps(objs, r.value)
    decreases fuel, 1, t, Arity(t) - k
  {
    if a >= |objs| || k >= |objs[a].slots| then Ok(objs)
    else if k >= Arity(t) then Err(NotModelled("a heap that does not hold its document"))
    else
      var child := objs[a].slots[k].val;
      var ref :- RefOf(mode, objs, child);
      if ref.None? then
        if child.VRef? then
          var objs1 :- Walk(mode, objs, child.addr, Child(t, k), 0, root, fetch, fuel);
          var rest := Walk(mode, objs1, a, t, k + 1, root, fetch, fuel);
          if rest.Ok? then KeepsTrans(objs, objs1, rest.value); rest else rest
        else Walk(mode, objs, a, t, k + 1, root, fetch, fuel)
      else
        var target :- Target(mode, objs, ref.value, root, fetch, fuel);
        var objs1 := SetSlot(target.0, a, k, target.1);
        SetSlotKeeps(target.0, a, k, target.1);
        KeepsTrans(objs, target.0, objs1);
        var rest := Walk(mode, objs1, a, t, k + 1, root, fetch, fuel);
        if rest.Ok? then KeepsTrans(objs, objs1, rest.value); rest else rest
  }

  /** `objs'` differs from `objs` only at the addresses `lo` to `hi - 1` and in what it appends. */
  predicate Touches(objs: seq<Obj>, objs': seq<Obj>, lo: nat, hi: nat) {
    |objs| <= |objs'| && forall x :: 0 <= x < |objs| && !(lo <= x < hi) ==> objs'[x] == objs[x]
  }

  lemma LaidNext(objs: seq<Obj>, a: nat, t: Json, k: nat)
    requires Laid(objs, a, t, k) && k < Arity(t)
    ensures Laid(objs, a, t, k + 1)
  {
  }

  /** Resolving the `k`-th child changes nothing the later children or the parent hold. */
  lemma LaidAfterChild(objs: seq<Obj>, objs': seq<Obj>, a: nat, t: Json, k: nat)
    requires Laid(objs, a, t, k) && k < Arity(t)
    requires Touches(objs, objs', Start(a, t, k), Start(a, t, k + 1))
    ensures Laid(objs', a, t, k + 1)
  {
    CountBeforeMono(t, k, Arity(t));
    forall j | k + 1 <= j < Arity(t)
      ensures Holds(objs', objs[a].slots[j].val, Child(t, j), Start(a, t, j))
    {
      CountBeforeMono(t, k + 1, j);
      CountBeforeMono(t, j, Arity(t));
      HoldsFrame(objs, objs', objs[a].slots[j].val, Child(t, j), Start(a, t, j));
    }
  }

  /** Overwriting the `k`-th property of the parent changes nothing the later children hold. */
  lemma LaidAfterSet(objs: seq<Obj>, a: nat, t: Json, k: nat, w: Val)
    requires Laid(objs, a, t, k) && k < Arity(t)
    ensures Laid(SetSlot(objs, a, k, w), a, t, k + 1)
  {
    var objs' := SetSlot(objs, a, k, w);
    forall j | k + 1 <= j < Arity(t)
      ensures Holds(objs', objs[a].slots[j].val, Child(t, j), Start(a, t, j))
    {
      CountBeforeMono(t, j, Arity(t));
      HoldsFrame(objs, objs', objs[a].slots[j].val, Child(t, j), Start(a, t, j));
    }
  }

  /** The properties of the object at `a` before the `k`-th are as they were. */
  predicate SlotsKept(objs: seq<Obj>, objs': seq<Obj>, a: nat, k: nat) {
    a < |objs| && a < |objs'| &&
    forall i :: 0 <= i < k && i < |objs[a].slots| ==> i < |objs'[a].slots| && objs'[a].slots[i] == objs[a].slots[i]
  }

  /** A walk of the container at `a` from its `k`-th property writes only inside it and what it appends. */
  predicate Framed(objs: seq<Obj>, r: Result<seq<Obj>>, a: nat, t: Json, k: nat) {
    r.Ok? ==> Touches(objs, r.value, a, a + Count(t)) && SlotsKept(objs, r.value, a, k)
  }

  lemma TouchesTrans(o1: seq<Obj>, o2: seq<Obj>, o3: seq<Obj>, lo: nat, hi: nat, lo': nat, hi': nat)
    requires Touches(o1, o2, lo, hi) && Touches(o2, o3, lo', hi') && lo' <= lo && hi <= hi'
    ensures Touches(o1, o3, lo', hi')
  {
  }

  /**
   * The walk of a laid-out container writes only inside that container's
   * addresses and the documents it fetches, and never the properties it has
   * already passed.
   */
  lemma {:induction false} WalkFrame(mode: Mode, objs: seq<Obj>, a: nat, t: Json, k: nat, root: Val, fetch: Fetch, fuel: nat)
    requires Laid(objs, a, t, k)
    ensures Framed(objs, Walk(mode, objs, a, t, k, root, fetch, fuel), a, t, k)
    decreases fuel, 1, t, Arity(t) - k, 2
  {
    if k < |objs[a].slots| {
      var child := objs[a].slots[k].val;
      var ref := RefOf(mode, objs, child);
      if ref.Ok? && ref.value.None? && child.VRef? {
        WalkFrameChild(mode, objs, a, t, k, root, fetch, fuel);
      } else if ref.Ok? && ref.value.None? {
        WalkFrameSkip(mode, objs, a, t, k, root, fetch, fuel);
      } else if ref.Ok? {
        WalkFrameRef(mode, objs, a, t, k, root, fetch, fuel);
      } else {
        WalkStepErr(mode, objs, a, t, k, root, fetch, fuel);
      }
    }
  }

  /** One step of the walk over a child object with no reference: walk it, then go on. */
  lemma WalkStepChild(mode: Mode, objs: seq<Obj>, a: nat, t: Json, k: nat, root: Val, fetch: Fetch, fuel: nat)
    requires k < Arity(t) && a < |objs| && k < |objs[a].slots|
    requires RefOf(mode, objs, objs[a].slots[k].val) == Ok(None) && objs[a].slots[k].val.VRef?
    ensures var w := Walk(mode, objs, objs[a].slots[k].val.addr, Child(t, k), 0, root, fetch, fuel);
      Walk(mode, objs, a, t, k, root, fetch, fuel) == if w.Ok? then Walk(mode, w.value, a, t, k + 1, root, fetch, fuel) else Err(w.error)
  {
  }

  /** One step of the walk where reading `$ref` throws: the walk fails with that error. */
  lemma WalkStepErr(mode: Mode, objs: seq<Obj>, a: nat, t: Json, k: nat, root: Val, fetch: Fetch, fuel: nat)
    requires k < Arity(t) && a < |objs| && k < |objs[a].slots|
    requires RefOf(mode, objs, objs[a].slots[k].val).Err?
    ensures Walk(mode, objs, a, t, k, root, fetch, fuel) == Err(RefOf(mode, objs, objs[a].slots[k].val).error)
  {
  }

  /** One step of the walk over a primitive: nothing changes, the walk goes on. */
  lemma WalkStepSkip(mode: Mode, objs: seq<Obj>, a: nat, t: Json, k: nat, root: Val, fetch: Fetch, fuel: nat)
    requires k < Arity(t) && a < |objs| && k < |objs[a].slots|
    requires RefOf(mode, objs, objs[a].slots[k].val) == Ok(None) && !objs[a].slots[k].val.VRef?
    ensures Walk(mode, objs, a, t, k, root, fetch, fuel) == Walk(mode, objs, a, t, k + 1, root, fetch, fuel)
  {
  }

  /** One step of the walk over a truthy reference: overwrite the property, then go on without walking it. */
  lemma WalkStepRef(mode: Mode, objs: seq<Obj>, a: nat, t: Json, k: nat, root: Val, fetch: Fetch, fuel: nat, ref: Val)
    requires k < Arity(t) && a < |objs| && k < |objs[a].slots|
    requires RefOf(mode, objs, objs[a].slots[k].val) == Ok(Some(ref))
    ensures var p := Target(mode, objs, ref, root, fetch, fuel);
      Walk(mode, objs, a, t, k, root, fetch, fuel) ==
        if p.Ok? then Walk(mode, SetSlot(p.value.0, a, k, p.value.1), a, t, k + 1, root, fetch, fuel) else Err(p.error)
  {
  }

  /** The frames of a child's walk and of the rest of the parent's walk compose. */
  lemma FramedAfterChild(objs: seq<Obj>, w: seq<Obj>, r: Result<seq<Obj>>, a: nat, t: Json, k: nat, lo: nat, hi: nat)
    requires a < lo && hi <= a + Count(t) && a < |objs|
    requires Touches(objs, w, lo, hi) && Framed(w, r, a, t, k + 1)
    ensures Framed(objs, r, a, t, k)
  {
    if r.Ok? {
      TouchesTrans(objs, w, r.value, lo, hi, a, a + Count(t));
      assert w[a] == objs[a];
      SlotsKeptAfterChild(objs, w, r.value, a, k);
    }
  }

  lemma {:induction false} SlotsKeptAfterChild(objs: seq<Obj>, w: seq<Obj>, r: seq<Obj>, a: nat, k: nat)
    requires a < |objs| && a < |w| && w[a] == objs[a] && SlotsKept(w, r, a, k + 1)
    ensures SlotsKept(objs, r, a, k)
  {
    // the kept slot with the highest index bounds the length of the result's slots
    var last := if k < |objs[a].slots| then k else |objs[a].slots|;
    if last > 0 {
      assert w[a].slots[last - 1] == objs[a].slots[last - 1];
      assert last - 1 < |r[a].slots|;
    }
    forall i | 0 <= i < k && i < |objs[a].slots|
      ensures i < |r[a].slots| && r[a].slots[i] == objs[a].slots[i]
    {
      assert w[a].slots[i] == objs[a].slots[i];
    }
  }

  lemma {:induction false} WalkFrameChild(mode: Mode, objs: seq<Obj>, a: nat, t: Json, k: nat, root: Val, fetch: Fetch, fuel: nat)
    requires Laid(objs, a, t, k) && k < Arity(t)
    requires RefOf(mode, objs, objs[a].slots[k].val) == Ok(None) && objs[a].slots[k].val.VRef?
    ensures Framed(objs, Walk(mode, objs, a, t, k, root, fetch, fuel), a, t, k)
    decreases fuel, 1, t, Arity(t) - k, 1
  {
    var child := objs[a].slots[k].val;
    CountBeforeMono(t, k, Arity(t));
    var w := Walk(mode, objs, child.addr, Child(t, k), 0, root, fetch, fuel);
    WalkStepChild(mode, objs, a, t, k, root, fetch, fuel);
    WalkFrame(mode, objs, child.addr, Child(t, k), 0, root, fetch, fuel);
    if w.Ok? {
      RestFramedAfterChild(mode, objs, w.value, a, t, k, root, fetch, fuel);
    }
  }

  /** Passing over a primitive property keeps the walk inside the parent's frame. */
  lemma {:induction false} WalkFrameSkip(mode: Mode, objs: seq<Obj>, a: nat, t: Json, k: nat, root: Val, fetch: Fetch, fuel: nat)
    requires Laid(objs, a, t, k) && k < Arity(t)
    requires RefOf(mode, objs, objs[a].slots[k].val) == Ok(None) && !objs[a].slots[k].val.VRef?
    ensures Framed(objs, Walk(mode, objs, a, t, k, root, fetch, fuel), a, t, k)
    decreases fuel, 1, t, Arity(t) - k, 1
  {
    LaidNext(objs, a, t, k);
    var r := Walk(mode, objs, a, t, k + 1, root, fetch, fuel);
    WalkFrame(mode, objs, a, t, k + 1, root, fetch, fuel);
    WalkStepSkip(mode, objs, a, t, k, root, fetch, fuel);
    FramedEarlier(objs, r, a, t, k);
  }

  /** A walk that keeps the properties before the `k+1`-th keeps those before the `k`-th. */
  lemma FramedEarlier(objs: seq<Obj>, r: Result<seq<Obj>>, a: nat, t: Json, k: nat)
    requires Framed(objs, r, a, t, k + 1)
    ensures Framed(objs, r, a, t, k)
  {
  }

  /** Once the `k`-th child has been walked inside its own addresses, the rest of the walk stays inside the parent's frame. */
  lemma {:induction false} RestFramedAfterChild(mode: Mode, objs: seq<Obj>, w: seq<Obj>, a: nat, t: Json, k: nat, root: Val, fetch: Fetch, fuel: nat)
    requires Laid(objs, a, t, k) && k < Arity(t)
    requires Touches(objs, w, Start(a, t, k), Start(a, t, k) + Count(Child(t, k)))
    ensures Framed(objs, Walk(mode, w, a, t, k + 1, root, fetch, fuel), a, t, k)
    decreases fuel, 1, t, Arity(t) - k, 0
  {
    CountBeforeMono(t, k + 1, Arity(t));
    assert Start(a, t, k + 1) == Start(a, t, k) + Count(Child(t, k));
    LaidAfterChild(objs, w, a, t, k);
    WalkFrame(mode, w, a, t, k + 1, root, fetch, fuel);
    FramedAfterChild(objs, w, Walk(mode, w, a, t, k + 1, root, fetch, fuel), a, t, k, Start(a, t, k), Start(a, t, k + 1));
  }

  lemma {:induction false} WalkFrameRef(mode: Mode, objs: seq<Obj>, a: nat, t: Json, k: nat, root: Val, fetch: Fetch, fuel: nat)
    requires Laid(objs, a, t, k) && k < Arity(t)
    requires RefOf(mode, objs, objs[a].slots[k].val).Ok? && RefOf(mode, objs, objs[a].slots[k].val).value.Some?
    ensures Framed(objs, Walk(mode, objs, a, t, k, root, fetch, fuel), a, t, k)
    decreases fuel, 1, t, Arity(t) - k, 1
  {
    var ref := RefOf(mode, objs, objs[a].slots[k].val).value.value;
    var target := Target(mode, objs, ref, root, fetch, fuel);
    WalkStepRef(mode, objs, a, t, k, root, fetch, fuel, ref);
    if target.Ok? {
      TargetPrefix(mode, objs, ref, root, fetch, fuel);
      RestFramedAfterRef(mode, objs, target.value.0, target.value.1, a, t, k, root, fetch, fuel);
    }
  }

  /** Once the `k`-th property is overwritten on a heap that only grew, the rest of the walk stays inside the parent's frame. */
  lemma {:induction false} RestFramedAfterRef(mode: Mode, objs: seq<Obj>, h: seq<Obj>, v: Val, a: nat, t: Json, k: nat, root: Val, fetch: Fetch, fuel: nat)
    requires Laid(objs, a, t, k) && k < Arity(t) && objs <= h
    ensures a < |h| && k < |h[a].slots|
    ensures Framed(objs, Walk(mode, SetSlot(h, a, k, v), a, t, k + 1, root, fetch, fuel), a, t, k)
    decreases fuel, 1, t, Arity(t) - k, 0
  {
    LaidPrefix(objs, h, a, t, k);
    var objs1 := SetSlot(h, a, k, v);
    LaidAfterSet(h, a, t, k, v);
    WalkFrame(mode, objs1, a, t, k + 1, root, fetch, fuel);
    FramedAfterSet(objs, h, v, Walk(mode, objs1, a, t, k + 1, root, fetch, fuel), a, t, k);
  }

  /** Overwriting the `k`-th property and then walking the rest stays inside the parent's frame. */
  lemma FramedAfterSet(objs: seq<Obj>, h: seq<Obj>, v: Val, r: Result<seq<Obj>>, a: nat, t: Json, k: nat)
    requires a < |objs| && objs <= h && k < |h[a].slots| && 1 <= Count(t)
    requires Framed(SetSlot(h, a, k, v), r, a, t, k + 1)
    ensures Framed(objs, r, a, t, k)
  {
    if r.Ok? {
      var objs1 := SetSlot(h, a, k, v);
      assert Touches(objs, objs1, a, a + 1);
      TouchesTrans(objs, objs1, r.value, a, a + 1, a, a + Count(t));
    }
  }

  /** After the walk of the `k`-th child succeeds, the rest of the parent is still laid out and walked from `k + 1`. */
  lemma ChildStepped(mode: Mode, objs: seq<Obj>, after: seq<Obj>, a: nat, t: Json, k: nat, root: Val, fetch: Fetch, fuel: nat)
    requires Laid(objs, a, t, k) && k < Arity(t)
    requires RefOf(mode, objs, objs[a].slots[k].val) == Ok(None) && objs[a].slots[k].val.VRef?
    requires Walk(mode, objs, objs[a].slots[k].val.addr, Child(t, k), 0, root, fetch, fuel) == Ok(after)
    ensures Laid(after, a, t, k + 1)
    ensures Walk(mode, objs, a, t, k, root, fetch, fuel) == Walk(mode, after, a, t, k + 1, root, fetch, fuel)
  {
    CountBeforeMono(t, k, Arity(t));
    WalkStepChild(mode, objs, a, t, k, root, fetch, fuel);
    WalkFrame(mode, objs, objs[a].slots[k].val.addr, Child(t, k), 0, root, fetch, fuel);
    LaidAfterChild(objs, after, a, t, k);
  }

  /** After a truthy reference is followed, the rest of the parent is still laid out and walked from `k + 1`. */
  lemma RefStepped(mode: Mode, objs: seq<Obj>, h: seq<Obj>, v: Val, a: nat, t: Json, k: nat, root: Val, fetch: Fetch, fuel: nat, ref: Val)
    requires Laid(objs, a, t, k) && k < Arity(t)
    requires RefOf(mode, objs, objs[a].slots[k].val) == Ok(Some(ref))
    requires Target(mode, objs, ref, root, fetch, fuel) == Ok((h, v))
    ensures a < |h| && k < |h[a].slots| && Laid(SetSlot(h, a, k, v), a, t, k + 1)
    ensures Walk(mode, objs, a, t, k, root, fetch, fuel) == Walk(mode, SetSlot(h, a, k, v), a, t, k + 1, root, fetch, fuel)
  {
    WalkStepRef(mode, objs, a, t, k, root, fetch, fuel, ref);
    TargetPrefix(mode, objs, ref, root, fetch, fuel);
    LaidPrefix(objs, h, a, t, k);
    LaidAfterSet(h, a, t, k, v);
  }

  /** Following a reference only appends to the heap. */
  lemma {:induction false} TargetPrefix(mode: Mode, objs: seq<Obj>, ref: Val, root: Val, fetch: Fetch, fuel: nat)
    ensures var r := Target(mode, objs, ref, root, fetch, fuel); r.Ok? ==> objs <= r.value.0
    decreases fuel, 0
  {
    if ref.VStr? && Classify(ref.s).Remote? && fuel > 0 {
      FetchedPrefix(mode, objs, Classify(ref.s).url, fetch, fuel - 1);
    }
  }

  /** Fetching and resolving a remote document only appends to the heap. */
  lemma {:induction false} FetchedPrefix(mode: Mode, objs: seq<Obj>, url: string, fetch: Fetch, fuel: nat)
    ensures var r := Fetched(mode, objs, url, fetch, fuel); r.Ok? ==> objs <= r.value.0
    decreases fuel
  {
    match fetch(url)
    case None =>
    case Some(j) =>
      var loaded := Load(objs, j);
      LoadHolds(objs, j);
      if loaded.1.VRef? {
        WalkFrame(mode, loaded.0, loaded.1.addr, j, 0, loaded.1, fetch, fuel);
        var r := Walk(mode, loaded.0, loaded.1.addr, j, 0, loaded.1, fetch, fuel);
        if r.Ok? {
          assert Fetched(mode, objs, url, fetch, fuel) == Ok((r.value, loaded.1));
          assert forall x :: 0 <= x < |objs| ==> r.value[x] == loaded.0[x] == objs[x];
        }
      }
  }

  /** A walk's result, as the in-place walk reports it: the new heap on success, the error otherwise. */
  predicate Reflects(r: Result<seq<Obj>>, o: Outcome, objs: seq<Obj>) {
    match r
    case Ok(h) => o == Pass && objs == h
    case Err(e) => o == Fail(e)
  }

  /** The JavaScript heap holding the documents: `resolveRefs` rewrites its objects in place. */
  class Heap {
    var objs: seq<Obj>

    constructor (objs0: seq<Obj>)
      ensures objs == objs0
    {
      objs := objs0;
    }

    /** `resolveRefs(node, root)`; `t` is the document `node` was parsed from. */
    method ResolveRefs(mode: Mode, node: Val, root: Option<Val>, fetch: Fetch, fuel: nat, ghost t: Json) returns (o: Outcome)
      requires node.VRef? ==> Laid(objs, node.addr, t, 0)
      modifies this
      ensures Reflects(Resolved(mode, old(objs), node, root, fetch, fuel, t), o, objs)
      decreases fuel, 1, t, 1
    {
      var rootValue := if root.Some? && TruthyVal(root.value) then root.value else node;
      if !node.VRef? {
        return Pass;
      }
      o := ResolveObject(mode, node.addr, rootValue, fetch, fuel, t);
    }

    /** The `for…in` loop of `resolveRefs` over the object at `a`. */
    method ResolveObject(mode: Mode, a: nat, root: Val, fetch: Fetch, fuel: nat, ghost t: Json) returns (o: Outcome)
      requires Laid(objs, a, t, 0)
      modifies this
      ensures Reflects(Walk(mode, old(objs), a, t, 0, root, fetch, fuel), o, objs)
      decreases fuel, 1, t, 0
    {
      var n := |objs[a].slots|;
      var k := 0;
      while k < n
        invariant k <= n && n == Arity(t)
        invariant Laid(objs, a, t, k)
        invariant Walk(mode, old(objs), a, t, 0, root, fetch, fuel) == Walk(mode, objs, a, t, k, root, fetch, fuel)
        decreases n - k
      {
        o := ResolveProperty(mode, a, k, root, fetch, fuel, t);
        if o.Fail? {
          return;
        }
        k := k + 1;
      }
      o := Pass;
    }

    /** One pass of the loop of `resolveRefs`: the `k`-th property of the object at `a`. */
    method ResolveProperty(mode: Mode, a: nat, k: nat, root: Val, fetch: Fetch, fuel: nat, ghost t: Json) returns (o: Outcome)
      requires Laid(objs, a, t, k) && k < Arity(t)
      modifies this
      ensures o.Pass? ==> Laid(objs, a, t, k + 1)
      ensures o.Pass? ==> Walk(mode, old(objs), a, t, k, root, fetch, fuel) == Walk(mode, objs, a, t, k + 1, root, fetch, fuel)
      ensures o.Fail? ==> Walk(mode, old(objs), a, t, k, root, fetch, fuel) == Err(o.error)
      decreases fuel, 1, t, 0, k
    {
      var child := objs[a].slots[k].val;
      var ref := RefOf(mode, objs, child);
      if ref.Err? {
        WalkStepErr(mode, objs, a, t, k, root, fetch, fuel);
        return Fail(ref.error);
      }
      ghost var before := objs;
      if ref.value.None? {
        if child.VRef? {
          CountBeforeMono(t, k, Arity(t));
          WalkStepChild(mode, before, a, t, k, root, fetch, fuel);
          o := ResolveObject(mode, child.addr, root, fetch, fuel, Child(t, k));
          if o.Pass? {
            ChildStepped(mode, before, objs, a, t, k, root, fetch, fuel);
          }
        } else {
          WalkStepSkip(mode, objs, a, t, k, root, fetch, fuel);
          LaidNext(objs, a, t, k);
          o := Pass;
        }
      } else {
        WalkStepRef(mode, before, a, t, k, root, fetch, fuel, ref.value.value);
        var w := ResolveTarget(mode, ref.value.value, root, fetch, fuel);
        if w.Err? {
          return Fail(w.error);
        }
        RefStepped(mode, before, objs, w.value, a, t, k, root, fetch, fuel, ref.value.value);
        objs := SetSlot(objs, a, k, w.value);
        o := Pass;
      }
    }

    /** Lines 10-21 of `resolveRefs`: the value a truthy `$ref` is replaced by. */
    method ResolveTarget(mode: Mode, ref: Val, root: Val, fetch: Fetch, fuel: nat) returns (r: Result<Val>)
      modifies this
      ensures match Target(mode, old(objs), ref, root, fetch, fuel)
        case Ok(p) => r == Ok(p.1) && objs == p.0
        case Err(e) => r == Err(e)
      ensures r.Ok? ==> old(objs) <= objs
      decreases fuel, 0
    {
      TargetPrefix(mode, objs, ref, root, fetch, fuel);
      if !ref.VStr? {
        return Err(TypeError("$ref.startsWith is not a function"));
      }
      match Classify(ref.s) {
        case Local(p) =>
          r := Get(objs, root, p);
        case Remote(url, p) =>
          if fuel == 0 {
            return Err(FetchDepthExceeded(url));
          }
          var doc := FetchSchema(mode, url, fetch, fuel - 1);
          if doc.Err? {
            return Err(doc.error);
          }
          r := Get(objs, doc.value, p);
      }
    }

    /** `fetchSchema(url)`: fetch, parse onto the heap, resolve against itself. */
    method FetchSchema(mode: Mode, url: string, fetch: Fetch, fuel: nat) returns (r: Result<Val>)
      modifies this
      ensures match Fetched(mode, old(objs), url, fetch, fuel)
        case Ok(p) => r == Ok(p.1) && objs == p.0
        case Err(e) => r == Err(e)
      decreases fuel
    {
      var doc := fetch(url);
      if doc.None? {
        return Err(FetchFailed(url));
      }
      var loaded := Load(objs, doc.value);
      LoadHolds(objs, doc.value);
      objs := loaded.0;
      var o := ResolveRefs(mode, loaded.1, Some(loaded.1), fetch, fuel, doc.value);
      if o.Fail? {
        return Err(o.error);
      }
      r := Ok(loaded.1);
    }
  }
}
