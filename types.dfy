/**
 * The data shapes of src/types.ts: the target environment, the generation
 * options, the export map that links RPC names to schema definitions, and the
 * parsed document.
 */
module Types {
  import opened Js
  import opened Dicts
  import Ast

  /** `EnvEnum`. */
  datatype Env = DenoUserland | NodeUserland | Host

  function EnvName(e: Env): string {
    match e
    case DenoUserland => "deno-userland"
    case NodeUserland => "node-userland"
    case Host => "host"
  }

  /** The member of `EnvEnum` whose value is `s`, if any. */
  function ParseEnv(s: string): (r: Option<Env>)
    ensures r.Some? ==> EnvName(r.value) == s
  {
    if s == "deno-userland" then Some(DenoUserland)
    else if s == "node-userland" then Some(NodeUserland)
    else if s == "host" then Some(Host)
    else None
  }

  /** `EnvEnum` has exactly three members, with three distinct values. */
  lemma EnvEnumMembers(s: string)
    ensures ParseEnv(s).Some? <==> s == "deno-userland" || s == "node-userland" || s == "host"
    ensures forall e :: ParseEnv(EnvName(e)) == Some(e)
    ensures forall e1, e2 :: EnvName(e1) == EnvName(e2) ==> e1 == e2
  {
    forall e ensures ParseEnv(EnvName(e)) == Some(e) {
      match e
      case DenoUserland =>
      case NodeUserland =>
      case Host =>
    }
  }

  /**
   * `GenerateOpts`: `env` is optional; JavaScript does not check that a given value
   * belongs to `EnvEnum`, so it is any string here.
   */
  datatype GenerateOpts = GenerateOpts(env: Option<string>)

  /** The contents of an `ExportMap`: method name to definition pointer, and interface to event to pointer. */
  datatype ExportMapValue = ExportMapValue(methods: Dict<string>, events: Dict<Dict<string>>)

  const EmptyExportMap: ExportMapValue := ExportMapValue(Dict([]), Dict([]))

  /** An `ExportMap` object, filled in place by the API shape transformer. */
  class ExportMap {
    var methods: Dict<string>
    var events: Dict<Dict<string>>

    /** `{methods: {}, events: {}}`. */
    constructor ()
      ensures methods == Dict([]) && events == Dict([])
    {
      methods := Dict([]);
      events := Dict([]);
    }

    function Value(): ExportMapValue
      reads this
    {
      ExportMapValue(methods, events)
    }
  }

  /** A dictionary as JSON data: one member per entry, in key order, each value written by `f`. */
  function DictJson<X>(d: Dict<X>, f: X -> Json): (j: Json)
    ensures j.JObj? && |j.members| == |d.entries|
  {
    JObj(seq(|d.entries|, i requires 0 <= i < |d.entries| => Member(d.entries[i].0, f(d.entries[i].1))))
  }

  /** Reading key `k` of the JSON object gives `f(d[k])`, and `undefined` exactly when `d` has no key `k`. */
  lemma {:induction false} DictJsonLookup<X>(d: Dict<X>, f: X -> Json, k: string)
    ensures MemberValue(DictJson(d, f).members, k) ==
      match Get(d, k)
      case Some(x) => Defined(f(x))
      case None => Undefined
    decreases |d.entries|
  {
    if d.entries != [] {
      var tail := Dict(d.entries[1..]);
      assert DictJson(d, f).members[1..] == DictJson(tail, f).members;
      if d.entries[0].0 != k {
        DictJsonLookup(tail, f, k);
        match KeyIndex(tail, k)
        case Some(i) =>
          assert d.entries[i + 1] == tail.entries[i];
        case None =>
      }
    }
  }

  /** A string dictionary as JSON data, as `JSON.stringify` sees it. */
  function StringDictJson(d: Dict<string>): (j: Json)
    ensures j.JObj? && |j.members| == |d.entries|
  {
    DictJson(d, (s: string) => JStr(s))
  }

  /** Reading key `k` of a string dictionary as JSON gives the string `d[k]`, or `undefined` when it is absent. */
  lemma StringDictJsonLookup(d: Dict<string>, k: string)
    ensures MemberValue(StringDictJson(d).members, k) ==
      match Get(d, k)
      case Some(s) => Defined(JStr(s))
      case None => Undefined
  {
    DictJsonLookup(d, (s: string) => JStr(s), k);
  }

  /** The export map as JSON data, as `JSON.stringify` sees it. */
  function ExportMapJson(v: ExportMapValue): (j: Json)
    ensures j.JObj? && |j.members| == 2
    ensures MemberValue(j.members, "methods") == Defined(StringDictJson(v.methods))
    ensures MemberValue(j.members, "events") == Defined(DictJson(v.events, StringDictJson))
  {
    JObj([Member("methods", StringDictJson(v.methods)), Member("events", DictJson(v.events, StringDictJson))])
  }

  /**
   * `EXPORT_MAP.methods[m]` is the schema name recorded for method `m`, and
   * `EXPORT_MAP.events[I][e]` the one recorded for event `e` of interface `I`;
   * each is `undefined` exactly when nothing was recorded.
   */
  lemma ExportMapJsonLookup(v: ExportMapValue, m: string, iface: string, e: string)
    ensures MemberValue(ExportMapJson(v).members, "methods").json.JObj?
    ensures MemberValue(MemberValue(ExportMapJson(v).members, "methods").json.members, m) ==
      match Get(v.methods, m)
      case Some(s) => Defined(JStr(s))
      case None => Undefined
    ensures MemberValue(ExportMapJson(v).members, "events").json.JObj?
    ensures MemberValue(MemberValue(ExportMapJson(v).members, "events").json.members, iface) ==
      match Get(v.events, iface)
      case Some(d) => Defined(StringDictJson(d))
      case None => Undefined
    ensures Get(v.events, iface).Some? ==>
      MemberValue(StringDictJson(Get(v.events, iface).value).members, e) ==
        match Get(Get(v.events, iface).value, e)
        case Some(s) => Defined(JStr(s))
        case None => Undefined
  {
    StringDictJsonLookup(v.methods, m);
    DictJsonLookup(v.events, StringDictJson, iface);
    if Get(v.events, iface).Some? {
      StringDictJsonLookup(Get(v.events, iface).value, e);
    }
  }

  /**
   * `ParsedDTS`. The declared type says metadata values are strings, but the
   * front matter is arbitrary YAML and the generator reads `templates` as an
   * object, so metadata is a JSON object here.
   */
  datatype ParsedDts = ParsedDts(
    metadata: seq<Member>,
    primaryInterfaceName: Option<string>,
    text: string,
    ast: Ast.SourceFile)
}
