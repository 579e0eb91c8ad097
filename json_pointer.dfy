/**
 * JSON Pointer (RFC 6901) evaluated against a document on the heap, as the
 * `json-pointer` package's `get` does it: the pointer is split into reference
 * tokens at '/', each token is unescaped ("~1" to "/", then "~0" to "~", section
 * 4 of RFC 6901), and each token selects a property of the current value with
 * JavaScript's `in` operator deciding whether the property exists.
 */
module JsonPointer {
  import opened Js
  import opened Strings
  import opened JsonHeap

  /** `str.replace(/~1/g, '/').replace(/~0/g, '~')`. */
  function Unescape(tok: string): string {
    ReplaceAll(ReplaceAll(tok, "~1", "/"), "~0", "~")
  }

  /** The reference token for a key: '~' is written "~0" and '/' is written "~1". */
  function Escape(key: string): (r: string)
    ensures forall i :: 0 <= i < |r| ==> r[i] != '/'
    decreases |key|
  {
    if key == [] then []
    else EscapeChar(key[0]) + Escape(key[1..])
  }

  function EscapeChar(c: char): (r: string)
    ensures forall i :: 0 <= i < |r| ==> r[i] != '/'
  {
    if c == '~' then "~0" else if c == '/' then "~1" else [c]
  }

  /** `Escape` after the first replacement: '/' is back, '~' is still "~0". */
  function HalfEscape(key: string): string
    decreases |key|
  {
    if key == [] then []
    else (if key[0] == '~' then "~0" else [key[0]]) + HalfEscape(key[1..])
  }

  /** A character that does not start the pattern passes through `ReplaceAll` unchanged. */
  lemma ReplaceAllSkip(c: char, s: string, pat: string, rep: string)
    requires pat != [] && c != pat[0]
    ensures ReplaceAll([c] + s, pat, rep) == [c] + ReplaceAll(s, pat, rep)
  {
    var t := [c] + s;
    assert t[1..] == s;
    if |t| < |pat| {
      assert ReplaceAll(s, pat, rep) == s;
    } else {
      assert !(pat <= t) by { assert t[0] != pat[0]; }
    }
  }

  /** An occurrence of the pattern at the front is replaced. */
  lemma ReplaceAllFront(s: string, pat: string, rep: string)
    requires pat != []
    ensures ReplaceAll(pat + s, pat, rep) == rep + ReplaceAll(s, pat, rep)
  {
    var t := pat + s;
    assert pat <= t;
    assert t[|pat|..] == s;
  }

  lemma {:induction false} FirstPass(key: string)
    ensures ReplaceAll(Escape(key), "~1", "/") == HalfEscape(key)
    decreases |key|
  {
    if key != [] {
      var c, rest := key[0], Escape(key[1..]);
      FirstPass(key[1..]);
      if c == '~' {
        calc {
          ReplaceAll(Escape(key), "~1", "/");
          { assert Escape(key) == ['~'] + (['0'] + rest); }
          ReplaceAll(['~'] + (['0'] + rest), "~1", "/");
          { ReplaceAllFrontTilde(rest); }
          "~0" + ReplaceAll(rest, "~1", "/");
        }
      } else if c == '/' {
        assert Escape(key) == "~1" + rest;
        ReplaceAllFront(rest, "~1", "/");
      } else {
        assert Escape(key) == [c] + rest;
        ReplaceAllSkip(c, rest, "~1", "/");
      }
    }
  }

  /** "~0" is not "~1": both of its characters pass through the first replacement. */
  lemma ReplaceAllFrontTilde(rest: string)
    ensures ReplaceAll(['~'] + (['0'] + rest), "~1", "/") == "~0" + ReplaceAll(rest, "~1", "/")
  {
    var t := ['~'] + (['0'] + rest);
    assert t[1..] == ['0'] + rest;
    assert !("~1" <= t) by { assert t[1] == '0'; }
    ReplaceAllSkip('0', rest, "~1", "/");
  }

  lemma {:induction false} SecondPass(key: string)
    ensures ReplaceAll(HalfEscape(key), "~0", "~") == key
    decreases |key|
  {
    if key != [] {
      var c, rest := key[0], HalfEscape(key[1..]);
      SecondPass(key[1..]);
      if c == '~' {
        assert HalfEscape(key) == "~0" + rest;
        ReplaceAllFront(rest, "~0", "~");
      } else {
        assert HalfEscape(key) == [c] + rest;
        ReplaceAllSkip(c, rest, "~0", "~");
      }
      assert key == [c] + key[1..];
    }
  }

  /** Unescaping the escaped token of a key gives the key back (section 4 of RFC 6901). */
  lemma UnescapeEscape(key: string)
    ensures Unescape(Escape(key)) == key
  {
    FirstPass(key);
    SecondPass(key);
  }

  /** `api.parse(pointer)`: the unescaped reference tokens, or the library's "Invalid JSON pointer". */
  function Tokens(p: string): (r: Result<seq<string>>)
    ensures r.Err? <==> p != "" && p[0] != '/'
    ensures r.Err? ==> r.error == InvalidPointer(p)
    ensures p == "" ==> r == Ok([])
  {
    if p == "" then Ok([])
    else if p[0] != '/' then Err(InvalidPointer(p))
    else Ok(UnescapeAll(SplitAll(p[1..], '/')))
  }

  function UnescapeAll(pieces: seq<string>): (r: seq<string>)
    ensures |r| == |pieces| && forall i :: 0 <= i < |pieces| ==> r[i] == Unescape(pieces[i])
    decreases |pieces|
  {
    if pieces == [] then [] else [Unescape(pieces[0])] + UnescapeAll(pieces[1..])
  }

  /** The members that every array inherits from `Array.prototype`, which `in` also finds. */
  const ArrayPrototypeNames: set<string> := {
    "at", "concat", "copyWithin", "entries", "every", "fill", "filter", "find", "findIndex",
    "findLast", "findLastIndex", "flat", "flatMap", "forEach", "includes", "indexOf", "join",
    "keys", "lastIndexOf", "map", "pop", "push", "reduce", "reduceRight", "reverse", "shift",
    "slice", "some", "sort", "splice", "toLocaleString", "toReversed", "toSorted", "toSpliced",
    "toString", "unshift", "values", "with"}

  /**
   * One step of `get`: `typeof obj == 'object' && tok in obj` must hold, then the
   * value is `obj[tok]`. `tok in null` throws; a primitive has no reference tokens.
   */
  function Step(objs: seq<Obj>, v: Val, tok: string): (r: Result<Val>)
    ensures v.VNull? ==> r.Err? && r.error.TypeError?
    ensures !v.VNull? && !v.VRef? ==> r == Err(InvalidReferenceToken(tok))
    ensures v.VRef? && v.addr < |objs| && SlotIndex(objs[v.addr].slots, tok).Some? ==>
      r == Ok(objs[v.addr].slots[SlotIndex(objs[v.addr].slots, tok).value].val)
  {
    match v
    case VNull => Err(TypeError("Cannot use 'in' operator to search for '" + tok + "' in null"))
    case VRef(a) =>
      if a >= |objs| then Err(NotModelled("a reference outside the heap"))
      else
        var o := objs[a];
        (match SlotIndex(o.slots, tok)
         case Some(i) => Ok(o.slots[i].val)
         case None =>
           if o.isArray && tok == "length" then Ok(VNum(|o.slots|))
           else if tok in ObjectPrototypeNames || (o.isArray && tok in ArrayPrototypeNames) then
             Err(NotModelled("a member inherited from a prototype"))
           else Err(InvalidReferenceToken(tok)))
    case _ => Err(InvalidReferenceToken(tok))
  }

  /** `get` with the tokens already parsed: each token steps into the value the previous one selected. */
  function GetTokens(objs: seq<Obj>, v: Val, toks: seq<string>): Result<Val>
    decreases |toks|
  {
    if toks == [] then Ok(v)
    else
      var w :- Step(objs, v, toks[0]);
      GetTokens(objs, w, toks[1..])
  }

  /** `pointerlib.get(obj, pointer)`. */
  function Get(objs: seq<Obj>, v: Val, p: string): Result<Val> {
    var toks :- Tokens(p);
    GetTokens(objs, v, toks)
  }

  /** The empty pointer is the whole document. */
  lemma GetEmpty(objs: seq<Obj>, v: Val)
    ensures Get(objs, v, "") == Ok(v)
  {
  }

  lemma GetOneToken(objs: seq<Obj>, v: Val, tok: string)
    ensures GetTokens(objs, v, [tok]) == Step(objs, v, tok)
  {
    assert [tok][1..] == [];
  }

  /** A string without '/' and '~' is a single token that stands for itself. */
  lemma {:induction false} PlainToken(s: string)
    requires forall i :: 0 <= i < |s| ==> s[i] != '/' && s[i] != '~'
    ensures Tokens("/" + s) == Ok([s])
  {
    assert ("/" + s)[1..] == s;
    assert IndexOf(s, '/').None?;
    assert SplitAll(s, '/') == [s];
    NoTilde(s, "~1");
    ReplaceAllIdentity(s, "~1", "/");
    NoTilde(s, "~0");
    ReplaceAllIdentity(s, "~0", "~");
    assert Unescape(s) == s;
    assert UnescapeAll([s]) == [s];
  }

  lemma NoTilde(s: string, pat: string)
    requires forall i :: 0 <= i < |s| ==> s[i] != '~'
    requires pat != [] && pat[0] == '~'
    ensures NoOccurrence(s, pat)
  {
    forall k | 0 <= k <= |s|
      ensures !(pat <= s[k..])
    {
      if k < |s| {
        assert s[k..][0] == s[k];
      }
    }
  }

  /** "/" followed by the escaped key selects that property of an object (section 4 of RFC 6901). */
  lemma {:induction false} GetKey(objs: seq<Obj>, a: nat, key: string)
    requires a < |objs| && SlotIndex(objs[a].slots, key).Some?
    ensures Get(objs, VRef(a), "/" + Escape(key)) == Ok(SlotValue(objs[a].slots, key).value)
  {
    var p := "/" + Escape(key);
    assert p[1..] == Escape(key);
    assert IndexOf(Escape(key), '/').None?;
    assert SplitAll(p[1..], '/') == [Escape(key)];
    UnescapeEscape(key);
    assert UnescapeAll([Escape(key)]) == [key];
    assert Tokens(p) == Ok([key]);
    GetOneToken(objs, VRef(a), key);
  }

  /** An array's slots are keyed by the decimal numerals of their positions. */
  predicate IndexedArray(o: Obj) {
    o.isArray && forall i :: 0 <= i < |o.slots| ==> o.slots[i].key == DecimalString(i)
  }

  lemma IndexedSlot(o: Obj, i: nat)
    requires IndexedArray(o) && i < |o.slots|
    ensures SlotIndex(o.slots, DecimalString(i)) == Some(i)
  {
    var r := SlotIndex(o.slots, DecimalString(i));
    assert o.slots[i].key == DecimalString(i);
    if r.Some? {
      assert o.slots[r.value].key == DecimalString(r.value);
      DecimalStringInjective(r.value, i);
    }
  }

  /** "/i" selects the element at position `i` of an array. */
  lemma GetIndex(objs: seq<Obj>, a: nat, i: nat)
    requires a < |objs| && IndexedArray(objs[a]) && i < |objs[a].slots|
    ensures Get(objs, VRef(a), "/" + DecimalString(i)) == Ok(objs[a].slots[i].val)
  {
    var d := DecimalString(i);
    PlainToken(d);
    IndexedSlot(objs[a], i);
    GetOneToken(objs, VRef(a), d);
  }

  /** A token that is not an index of the array names nothing on it (and it is no inherited name). */
  lemma NotAnIndex(objs: seq<Obj>, a: nat, tok: string)
    requires a < |objs| && IndexedArray(objs[a])
    requires forall i :: 0 <= i < |objs[a].slots| ==> tok != DecimalString(i)
    requires tok != "length" && tok !in ObjectPrototypeNames && tok !in ArrayPrototypeNames
    requires forall i :: 0 <= i < |tok| ==> tok[i] != '/' && tok[i] != '~'
    ensures Get(objs, VRef(a), "/" + tok) == Err(InvalidReferenceToken(tok))
  {
    PlainToken(tok);
    GetOneToken(objs, VRef(a), tok);
    assert SlotIndex(objs[a].slots, tok).None?;
  }

  /** "-", the element after the last one, never exists here: `get` rejects it. */
  lemma DashRejected(objs: seq<Obj>, a: nat)
    requires a < |objs| && IndexedArray(objs[a])
    ensures Get(objs, VRef(a), "/-") == Err(InvalidReferenceToken("-"))
  {
    forall i | 0 <= i < |objs[a].slots|
      ensures "-" != DecimalString(i)
    {
      assert IsDigit(DecimalString(i)[0]);
    }
    NotAnIndex(objs, a, "-");
  }

  /** No inherited name starts with a digit. */
  lemma DigitFirstNotInherited(tok: string)
    requires tok != [] && IsDigit(tok[0])
    ensures tok != "length" && tok !in ObjectPrototypeNames && tok !in ArrayPrototypeNames
  {
  }

  /** A numeral with a leading zero is not an array index. */
  lemma LeadingZeroRejected(objs: seq<Obj>, a: nat, digits: string)
    requires a < |objs| && IndexedArray(objs[a])
    requires forall i :: 0 <= i < |digits| ==> IsDigit(digits[i])
    ensures Get(objs, VRef(a), "/0" + digits) == Err(InvalidReferenceToken("0" + digits)) || digits == ""
  {
    if digits != "" {
      var tok := "0" + digits;
      forall i | 0 <= i < |objs[a].slots|
        ensures tok != DecimalString(i)
      {
        assert |tok| > 1 && tok[0] == '0';
      }
      assert "/0" + digits == "/" + tok;
      DigitFirstNotInherited(tok);
      NotAnIndex(objs, a, tok);
    }
  }

  lemma {:induction false} GetTokensAppend(objs: seq<Obj>, v: Val, s: seq<string>, t: seq<string>)
    ensures GetTokens(objs, v, s + t) ==
      match GetTokens(objs, v, s)
      case Ok(w) => GetTokens(objs, w, t)
      case Err(e) => Err(e)
    decreases |s|
  {
    if s != [] {
      assert (s + t)[0] == s[0] && (s + t)[1..] == s[1..] + t;
      match Step(objs, v, s[0])
      case Ok(w) => GetTokensAppend(objs, w, s[1..], t);
      case Err(_) =>
    } else {
      assert s + t == t;
    }
  }

  lemma UnescapeAllAppend(s: seq<string>, t: seq<string>)
    ensures UnescapeAll(s + t) == UnescapeAll(s) + UnescapeAll(t)
  {
  }

  /**
   * Pointers compose: evaluating `p + q` is evaluating `p` and then `q` from the
   * value `p` selects, when `q` is a non-empty pointer.
   */
  lemma GetConcat(objs: seq<Obj>, v: Val, p: string, q: string)
    requires p == "" || p[0] == '/'
    requires q != "" && q[0] == '/'
    ensures Get(objs, v, p + q) ==
      match Get(objs, v, p)
      case Ok(w) => Get(objs, w, q)
      case Err(e) => Err(e)
  {
    if p == "" {
      assert p + q == q;
    } else {
      var x, y := p[1..], q[1..];
      assert (p + q)[1..] == x + ['/'] + y;
      SplitAllAppend(x, y, '/');
      UnescapeAllAppend(SplitAll(x, '/'), SplitAll(y, '/'));
      GetTokensAppend(objs, v, UnescapeAll(SplitAll(x, '/')), UnescapeAll(SplitAll(y, '/')));
    }
  }
}
