/**
 * The parts of the JavaScript runtime that the generator's behaviour depends on:
 * optional values, the errors that abort a generation, JSON data, and JavaScript's
 * truthiness rule as the source applies it to JSON data.
 */
module Js {

  datatype Option<T> = None | Some(value: T) {
    function GetOr(default: T): T {
      match this
      case Some(v) => v
      case None => default
    }
  }

  /** Every error the core can raise. Each aborts the current document. */
  datatype Error =
    | TypeError(reason: string)               // a property read on undefined or null, or a call of a missing method
    | InvalidEnvironment(env: string)         // src/generate.ts:21
    | UnknownSchemaType                       // src/generate.ts:60 and index.js:48
    | MissingEmitterSignature(event: string)  // src/generate.ts:180
    | ArrayParametersTodo                     // index.js:131
    | InvalidPointer(pointer: string)         // a JSON pointer that is neither empty nor starts with '/'
    | InvalidReferenceToken(token: string)    // a JSON pointer token that names nothing
    | FetchFailed(url: string)                // resolve-refs.js:34, the fetch error rethrown
    | FetchDepthExceeded(url: string)         // remote documents nested deeper than the model's fuel
    | NotModelled(what: string)               // a JavaScript coercion that the model leaves out

  datatype Result<T> = Ok(value: T) | Err(error: Error) {
    predicate IsFailure() { Err? }
    function PropagateFailure<U>(): Result<U>
      requires Err?
    {
      Err(error)
    }
    function Extract(): T
      requires Ok?
    {
      value
    }
  }

  /** An outcome that carries no value. */
  datatype Outcome = Pass | Fail(error: Error)

  /** JSON data; numbers are modelled as integers. */
  datatype Json =
    | JNull
    | JBool(b: bool)
    | JNum(n: int)
    | JStr(s: string)
    | JArr(items: seq<Json>)
    | JObj(members: seq<Member>)

  datatype Member = Member(key: string, value: Json)

  /** A property read: `undefined` when the property is absent. */
  datatype JsValue = Undefined | Defined(json: Json)

  /** The properties every plain object inherits from `Object.prototype`, which `in` also finds. */
  const ObjectPrototypeNames: set<string> := {
    "constructor", "hasOwnProperty", "isPrototypeOf", "propertyIsEnumerable", "toLocaleString",
    "toString", "valueOf", "__proto__", "__defineGetter__", "__defineSetter__",
    "__lookupGetter__", "__lookupSetter__"}

  /** JavaScript's truthiness on JSON data: null, false, 0 and "" are falsy. */
  predicate Truthy(j: Json) {
    match j
    case JNull => false
    case JBool(b) => b
    case JNum(n) => n != 0
    case JStr(s) => s != ""
    case _ => true
  }

  predicate TruthyValue(v: JsValue) {
    v.Defined? && Truthy(v.json)
  }

  /** `o[key]` on a JSON object; the first member with that key. */
  function MemberValue(members: seq<Member>, key: string): (r: JsValue)
    ensures r.Defined? <==> exists i :: 0 <= i < |members| && members[i].key == key
  {
    if members == [] then Undefined
    else if members[0].key == key then Defined(members[0].value)
    else MemberValue(members[1..], key)
  }

  /** `o[key] = v` on a JSON object: an existing member keeps its place, a new one goes last. */
  function SetMember(members: seq<Member>, key: string, v: Json): (r: seq<Member>)
    ensures MemberValue(r, key) == Defined(v)
    ensures forall k :: k != key ==> MemberValue(r, k) == MemberValue(members, k)
  {
    if members == [] then [Member(key, v)]
    else if members[0].key == key then [Member(key, v)] + members[1..]
    else [members[0]] + SetMember(members[1..], key, v)
  }

  // ---------------------------------------------------------------------------
  // Sequence concatenation

  lemma AppendAssoc<X>(a: seq<X>, b: seq<X>, c: seq<X>)
    ensures a + b + c == a + (b + c)
  {
  }

  lemma AppendAssoc3<X>(a: seq<X>, b: seq<X>, c: seq<X>, d: seq<X>)
    ensures a + b + c + d == a + (b + c + d)
  {
  }
}
