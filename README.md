# tsgen core, modelled in Dafny

This project models the core of **tsgen** and proves properties of that model. tsgen is Atek's generator that turns an
interface document (a `.d.ts` file with a YAML front matter) into RPC client and server stubs, or into a
record-table binding. It also models the older JSON-schema-driven generator that still ships with it.

The model covers:

- **String utilities** (`src/util.ts`, module `Util`):
  - `toSafeString`, as its seven regular-expression steps;
  - `removeImport`;
  - `removeGenerics`, with its `while` loop;
  - `removeQuotes`.
- **Front-matter parsing and schema set-up** (`src/parse.ts`, module `Parse`):
  - the first comment is sliced, trimmed and assigned into the metadata;
  - the primary interface is the last one marked `default`;
  - the export map starts empty;
  - `api` documents are re-parsed and transformed;
  - only record documents get the root `$ref`;
  - only the buffer recognisers are registered.
- **API shape transformer** (`src/hack-transform-api-for-schema-gen.ts`, module `Transform`). Every method of every
  interface becomes an appended `api_<I>_<M>` interface, or an `evt_<I>_<E>` interface for `emit`. The methods mutate
  the source file and the export map in place.
- **Emission engine** (`src/generate.ts`, modules `Generate` and `GenerateProps`):
  - the environment check;
  - output names;
  - the per-environment import and base-class table;
  - exported constants;
  - client methods that forward to `_rpc` or `_subscribe`;
  - emitter `on` signatures;
  - the copy and skip rules;
  - the `Date`/`Uint8Array` rewriting;
  - the record table class.

  Each generated file is a list of statements built step by step on a `SourceFile` object, not printed text.
- **Scalar recognisers** (`src/schema/buffer.ts`, `src/schema/url.ts`, modules `BufferSchema`, `UrlSchema`,
  `SchemaTypes`).
- **`$ref` resolver** (`resolve-refs.js`, modules `JsonHeap`, `JsonPointer`, `Resolve`, `ResolveProps`). The JSON
  document lives as objects on a heap (a `Heap` class whose `objs` field the methods update). `resolveRefs` overwrites
  properties in place, so a resolved reference aliases the object it points to. Local references are evaluated as
  JSON Pointers, as section 4 of RFC 6901 describes. Remote documents come from a fetch oracle that may fail.
- **Legacy generator** (`index.js`, modules `Legacy`, `LegacyProps`):
  - `jsonSchemaToParams`;
  - the rules of `generateParamType`;
  - default parameter names `arg<i>`;
  - class naming;
  - the client and server files;
  - the split by `type`.
- **Data types** (`src/types.ts`, module `Types`):
  - `EnvEnum`;
  - `GenerateOpts`;
  - `ParsedDTS`;
  - `ExportMap`, a class whose two dictionaries the transformer fills.

Helper modules:

- `Js`: JavaScript values, truthiness, errors and `Result`;
- `Dicts`: objects used as insertion-ordered dictionaries;
- `Strings`: character classes, `replace(/…/g)`, `join`, `trim`, `split`, decimal numerals;
- `Ast`: the ts-morph tree, as statements, interfaces, methods, classes and the `SourceFile` class.

A type text produced by the TypeScript type checker is an opaque string supplied from outside. So are the payload
properties of an `emit` and the schema produced by ts-json-schema-generator.

## Model

| member | source | states |
|---|---|---|
| Util.LeadMatchLength | src/util.ts:5 | the `^\s*[^a-zA-Z_$]` alternative matches nothing exactly when the text is empty or starts with an identifier start |
| Util.BlankOthers | src/util.ts:5 | blanking non-identifier characters keeps the length |
| Util.SafeStringChars | src/util.ts:2-18 | `toSafeString` yields only `[A-Za-z0-9_$]` characters: no white space, no punctuation |
| Util.SafeStringShape | src/util.ts:2-18 | `toSafeString` never lengthens its input and never starts with a lower-case letter |
| Util.PascalCaseIsFixpoint | src/util.ts:2-18 | an ASCII-letter name starting with a capital comes back unchanged |
| Util.MatchRunsIsPointwise | src/util.ts:11-13 | the regular-expression engine's greedy scan of steps 4 and 5 equals the pointwise reference: a letter right after a digit/`$` run (or a space run) is upper-cased, nothing else changes |
| Util.UpperAfterRunIsPointwise | src/util.ts:11-13 | the one-pass scan the chain of replacements uses for steps 4 and 5 equals the same pointwise reference |
| Util.MatchRunsIsScan | src/util.ts:11-13 | the greedy regular-expression scan and the one-pass scan compute the same text on every input |
| Util.RemoveSpaces | src/util.ts:15 | the text does not grow |
| Util.RemoveSpacesLeavesNone | src/util.ts:15 | no white space is left |
| Util.RemoveImport | src/util.ts:20-23 | the result is never longer than the input |
| Util.RemoveImportIdentity | src/util.ts:20-23 | a text without `import("` is returned unchanged |
| Util.RemoveImportDropsQualifier | src/util.ts:20-23 | a leading qualifier `import("p").` with a non-empty quote-free path is deleted whole; the rest is processed as if it stood alone |
| Util.RemoveImportKeepsPrefix | src/util.ts:20-23 | text at none of whose positions a qualifier starts is copied as it is, and the rest is processed as if it stood alone; with the lemma above this is the global left-to-right replacement |
| Util.CaptureFrom | src/util.ts:25 | a capture found from position i is at least two characters shorter than what is left from i |
| Util.CaptureFromSpec | src/util.ts:25 | the capture found from position i is that of some closed `<…>` at or after i; none is found exactly when no such wrapper exists |
| Util.CaptureFromFirst | src/util.ts:25 | the capture is that of the first `<` that opens a closed wrapper |
| Util.WrapperCapture | src/util.ts:25-29 | a capture is at least two characters shorter than the text, which is why the loop ends |
| Util.WrapperCaptureIff | src/util.ts:27 | the loop test holds exactly when some `<` is followed by a non-empty run of non-`>` closed by `>` |
| Util.Unwrapped | src/util.ts:26-32 | the end result has no wrapper left and is no longer than the input |
| Util.RemoveGenerics | src/util.ts:26-32 | the `while` loop computes `Unwrapped(s)`, and no wrapper is left |
| Util.UnwrappedWithoutAngle | src/util.ts:26-32 | a text without `<` is returned unchanged |
| Util.RemoveQuotes | src/util.ts:34-39 | a text that is not at least two characters long with a quote at each end and no line terminator is unchanged; otherwise the leading quotes (all of them except one the trailing group needs) and exactly the last character are dropped |
| Util.RemoveQuotesRoundTrip | src/util.ts:34-39 | putting any two quote characters around a text that does not start with a quote and has no line terminator, then removing the quotes, gives the text back |
| UtilExamples.FooBarExample | src/util.ts:2-18 | `toSafeString("foo_bar")` is `FooBar` |
| UtilExamples.FooSpaceBarExample | src/util.ts:2-18 | `toSafeString("foo bar")` is `FooBar` |
| UtilExamples.AppendExample | src/util.ts:2-18 | `toSafeString("append")` is `Append` |
| UtilExamples.UnderscoreGetExample | src/util.ts:7 | `toSafeString("_get")` is `_Get`: the leading underscore stays |
| UtilExamples.LeadingDigitsExample | src/util.ts:5 | `toSafeString("12abc")` is `2Abc`: only the first digit is blanked |
| UtilExamples.LeadingDigitAgainExample | src/util.ts:5 | `toSafeString("2Abc")` is `Abc`, so the function is not idempotent |
| UtilExamples.RemoveImportExample | src/util.ts:20-23 | `import("/definition").Foo` becomes `Foo` |
| UtilExamples.RemoveImportInsideExample | src/util.ts:20-23 | `Promise<import("p").t>` becomes `Promise<t>` for every non-empty quote-free path `p` and every `t` without `import("`: a qualifier after other text is deleted too |
| UtilExamples.RemoveImportInsideFoo | src/util.ts:20-23 | `Promise<import("/x").Foo>` becomes `Promise<Foo>` |
| UtilExamples.PromiseOfArrayCapture | src/util.ts:25 | the capture of `Promise<Array<Foo>>` is `Array<Foo`, because `[^>]+` stops at the first `>` |
| UtilExamples.RemoveGenericsExample | src/util.ts:26-32 | `removeGenerics("Promise<Uint8Array>")` is `Uint8Array` |
| UtilExamples.RemoveGenericsNestedExample | src/util.ts:26-32 | `removeGenerics("Promise<Array<Foo>>")` is `Array<Foo` |
| UtilExamples.RemoveQuotesExamples | src/util.ts:34-39 | `'append'` becomes `append`; unquoted texts are unchanged |
| Types.ParseEnv | src/types.ts:15-19 | the member found has exactly the given value |
| Types.EnvEnumMembers | src/types.ts:15-19 | `EnvEnum` has exactly the three values `deno-userland`, `node-userland`, `host`; value and member determine each other |
| Types.ExportMap.constructor | src/parse.ts:40 | a new export map is `{methods: {}, events: {}}` |
| Types.ExportMapJson | src/types.ts:21-30 | the export map as JSON is an object of two members: `methods` holding the methods dictionary, and `events` holding one string dictionary per interface |
| Types.ExportMapJsonLookup | src/types.ts:21-30 | `EXPORT_MAP.methods[m]` is the schema name recorded for `m`, `EXPORT_MAP.events[I]` holds the events recorded for `I` and `events[I][e]` the name recorded for `e`; each is `undefined` exactly when nothing was recorded |
| Types.StringDictJson | src/types.ts:21-30 | a string dictionary as JSON is an object with one member per entry |
| Types.StringDictJsonLookup | src/types.ts:21-30 | reading key `k` of a string dictionary as JSON gives the string `d[k]`, and `undefined` exactly when `d` has no key `k` |
| Types.DictJsonLookup | src/types.ts:21-30 | reading key `k` of any dictionary as JSON gives the JSON of `d[k]`, and `undefined` exactly when `d` has no key `k` |
| Dicts.Get | src/types.ts:21-30 | a lookup finds a value exactly when the key is present |
| Dicts.PutSpec | src/hack-transform-api-for-schema-gen.ts:92 | after `d[k] = v`, k maps to v, other keys keep their values, and k is appended to the key order only when new |
| Dicts.KeyIndexAppend | src/hack-transform-api-for-schema-gen.ts:69 | a new entry does not move any key already present |
| Dicts.PutKeepsKeysDistinct | src/hack-transform-api-for-schema-gen.ts:70 | assignment keeps keys distinct |
| Js.MemberValue | src/parse.ts:42 | a property read finds a value exactly when some member has the key |
| Js.SetMember | src/parse.ts:62 | assignment sets the key and leaves every other key's value alone |
| Ast.Interfaces | src/hack-transform-api-for-schema-gen.ts:56 | `getChildrenOfKind(InterfaceDeclaration)` lists exactly the interface statements |
| Ast.InterfacesAppend | src/hack-transform-api-for-schema-gen.ts:73 | the interfaces of appended statements follow the earlier ones |
| Ast.SourceFile.constructor | src/generate.ts:41 | a new source file holds the given statements |
| Ast.SourceFile.AddInterface | src/hack-transform-api-for-schema-gen.ts:73 | `addInterface` appends after every existing statement |
| Ast.SourceFile.AddStatement | src/generate.ts:69-72 | `addImportDeclaration`, `addVariableStatement`, `addClass`, `addTypeAlias`, `addEnum` append |
| Ast.SourceFile.AddStatements | index.js:151-155 | the compiled declarations are appended |
| Ast.SourceFile.AddMethod | src/generate.ts:153 | the class at the position gets the method after its existing ones; nothing else changes |
| Ast.SourceFile.AddProperty | src/hack-transform-api-for-schema-gen.ts:81-84 | the interface at the position gets the property after its existing ones; nothing else changes |
| Transform.PayloadPropsInPlace | src/hack-transform-api-for-schema-gen.ts:77-85 | the loop of `addProperty` calls appends exactly those properties to the event interface and changes no other statement |
| Transform.ParamsTextOf | src/hack-transform-api-for-schema-gen.ts:100-109 | the `params` text is `[` + the `removeImport`ed parameter types, each with `?` if optional, joined by `, ` + `]` |
| Transform.VisitEmit | src/hack-transform-api-for-schema-gen.ts:62-85 | for `emit`: it fails (TypeError) exactly when the method has fewer than two parameters; otherwise the file and the export map are the reference step's result |
| Transform.VisitApi | src/hack-transform-api-for-schema-gen.ts:86-122 | any other method: the file and the export map are the reference step's result |
| Transform.TransformIface | src/hack-transform-api-for-schema-gen.ts:59-124 | the loop over one interface's methods equals the reference transform of its visits, and fails exactly when that does |
| Transform.TransformAst | src/hack-transform-api-for-schema-gen.ts:55-57 | visiting the interfaces present before the call, in order, equals the reference transform, which fails exactly when a visited `emit` is malformed |
| Transform.TransformedSingle | src/hack-transform-api-for-schema-gen.ts:61-122 | one visit appends its shape and records its pointer, or fails for a malformed `emit` |
| Transform.TransformedAppend | src/hack-transform-api-for-schema-gen.ts:56 | transforming `a + b` is transforming `a`, then `b` from where `a` left off |
| Transform.ShapesFollowOriginals | src/hack-transform-api-for-schema-gen.ts:56-97 | the original statements are kept in place, and exactly one synthesized interface per visited method follows, in visit order |
| Transform.MethodsAfterIsLast | src/hack-transform-api-for-schema-gen.ts:92 | `methods[n]` holds the pointer of the last contribution for n; every other entry keeps its value |
| Transform.MethodsPointToLastShape | src/hack-transform-api-for-schema-gen.ts:91-92 | `methods[n]` points to `#/definitions/api_<I>_<toSafeString(n)>` for the last interface I with a non-`emit` method n (a later interface overwrites); with no such method the earlier entry stays; `emit` never gets an entry |
| Transform.EventStepEntry | src/hack-transform-api-for-schema-gen.ts:69-70 | one event sets only `events[I][e]` of its own interface and event, creating `events[I]` when missing; nothing else changes |
| Transform.EventsAfterIsLast | src/hack-transform-api-for-schema-gen.ts:69-70 | `events[I][e]` holds the last pointer recorded for it, or its earlier value when none was recorded; `events[I]` exists exactly when it did before or some event of I was recorded |
| Transform.EventsPointToShapes | src/hack-transform-api-for-schema-gen.ts:62-70 | `events[I][e]` points to `#/definitions/evt_<I>_<toSafeString(e)>` exactly when some `emit` of I has event `removeQuotes(first type) == e`, and otherwise keeps its earlier value; `events[I]` exists exactly when it did before or I has some `emit` |
| Transform.LastApiIndex | src/hack-transform-api-for-schema-gen.ts:92 | the position found is the last contribution for the name, or there is none |
| Parse.FirstCommentIndex | src/parse.ts:12 | the position found is the first comment statement, and none is found exactly when there is no comment |
| Parse.FrontMatterOfComment | src/parse.ts:14 | the front matter of `/*body*/` is the trimmed body |
| Parse.OwnEntries | src/parse.ts:16 | `Object.assign` copies one entry per array item and one per string character |
| Parse.AssignFresh | src/parse.ts:16 | assigning entries with distinct new keys appends them in order |
| Parse.MetadataOfMapping | src/parse.ts:11-20 | a YAML mapping with distinct keys becomes the metadata as it is |
| Parse.MetadataOfString | src/parse.ts:16 | a plain-string front matter is spread as members `"0"`, `"1"`, …, one character each |
| Parse.MetadataEmpty | src/parse.ts:11-20 | with no comment, or a front matter whose load fails or yields nothing to copy, the metadata is empty |
| Parse.MetadataFromFirstComment | src/parse.ts:12-16 | only the first comment is read; later statements do not matter |
| Parse.LastDefaultIndex | src/parse.ts:22-28 | the position found holds the last default interface, and none is found exactly when there is no default |
| Parse.ParseDocument | src/parse.ts:8-36 | `parse`, with its loop over the interfaces, yields the reference parse result |
| Parse.PrimaryNameIsLastDefault | src/parse.ts:22-28 | a primary name exists exactly when some interface is default, and it names the last such interface; several defaults raise no error |
| Parse.LaterDefaultWins | src/parse.ts:24-27 | a default interface after all the others decides the name, whatever came before |
| Parse.TwoDefaultsDisagree | src/parse.ts:24-27 | with two defaults, `parse` names the second while `generate` (`find`) builds from the first |
| Parse.UrlNotRegistered | src/parse.ts:53-58 | no registered parser claims `URL`, though the URL recogniser would; every buffer name is claimed |
| Parse.GenerateInterfaceSchemas | src/parse.ts:38-65 | the method yields the reference schema and export map, or the reference error |
| Parse.ExportMapOnlyForApi | src/parse.ts:40-46 | outside `api` documents nothing fails and the export map stays `{methods: {}, events: {}}` |
| Parse.ApiExportMap | src/parse.ts:42-46 | for `api`, the export map is what the transformer leaves after a pass over a new parse of the text; the generator reads that transformed program; a malformed `emit` aborts |
| Parse.RootRef | src/parse.ts:48-63 | every key of the schema except `$ref` is the generator's; `$ref` becomes `#/definitions/<primary>` for a record document with a non-empty primary name and is otherwise left as generated |
| Parse.RecordUsesDocument | src/parse.ts:39-46 | a record document is read as parsed, with an empty export map |
| SchemaTypes.TypeId | src/schema/buffer.ts:13-17 | the custom types answer `buffer` and `url` |
| SchemaTypes.CustomIdsDistinct | src/schema/url.ts:4-8 | the two ids differ |
| BufferSchema.SupportsNode | src/schema/buffer.ts:4-22 | true exactly for a type reference whose text is one of the six typed-array names |
| BufferSchema.OtherNamesRejected | src/schema/buffer.ts:4-11 | `Float32Array`, `Float64Array`, `Uint8ClampedArray`, `Buffer`, `uint8array` are not claimed |
| BufferSchema.OnlyTypeReferences | src/schema/buffer.ts:20-22 | nodes of other kinds are never claimed |
| BufferSchema.CreateType | src/schema/buffer.ts:23-25 | always a buffer type, whatever the node, context and reference |
| BufferSchema.SupportsType | src/schema/buffer.ts:29-31 | accepts exactly the buffer type |
| BufferSchema.Definition | src/schema/buffer.ts:33-39 | exactly `{type: 'string', contentEncoding: 'base64'}` |
| BufferSchema.Children | src/schema/buffer.ts:41-43 | no children |
| BufferSchema.CreatedTypesFormatted | src/schema/buffer.ts:20-43 | the formatter accepts every type the parser creates and writes it as a base64 string with no children |
| UrlSchema.SupportsNode | src/schema/url.ts:11-13 | true exactly for a type reference whose text is `URL` |
| UrlSchema.CaseSensitive | src/schema/url.ts:12 | `url`, `Url`, `URL ` and `globalThis.URL` are not claimed |
| UrlSchema.CreateType | src/schema/url.ts:14-16 | always the URL type |
| UrlSchema.SupportsType | src/schema/url.ts:20-22 | accepts exactly the URL type, whose id is `url` |
| UrlSchema.Definition | src/schema/url.ts:24-30 | exactly `{type: 'string', format: 'uri'}` |
| UrlSchema.Children | src/schema/url.ts:32-34 | no children |
| UrlSchema.CreatedTypesFormatted | src/schema/url.ts:11-34 | the formatter accepts every type the parser creates and rejects the buffer type |
| Generate.ResolveEnv | src/generate.ts:19-23 | fails exactly when an environment is given that is none of the three, with that value in the error; a given valid one is used; none means Deno |
| Generate.GenerateRejectsEnv | src/generate.ts:19-23 | an invalid environment fails before any file is produced |
| Generate.PreludeAsWritten | src/generate.ts:41 | reading `opts.env` fails exactly when the options are omitted; otherwise the prelude names the given environment |
| Generate.IdOf | src/generate.ts:38 | `split` is callable exactly on a string id |
| Generate.FirstDefault | src/generate.ts:65 | the first default interface, or none when no interface is default |
| Generate.FirstNamed | src/generate.ts:171 | the first interface with the name, or none when no interface has it |
| Generate.ClassStem | src/generate.ts:134 | the primary interface's name wins when non-empty; with no name, title or id the stem is `Api` |
| Generate.ClientMethod | src/generate.ts:152-167 | same name and parameters, each with its written type, question token and rest marker; the parameter names are forwarded in order; `subscribe` calls `_subscribe` and returns the event keys joined by ` \| `; any other method calls `_rpc` under its name and returns `Promise<removeImport(removeGenerics(ret))>` |
| Generate.FindEmitterMethod | src/generate.ts:179-180 | a found method has the event as `removeQuotes` of its first parameter type; "Failed to find emitter interface signature" exactly when every method has a first parameter and none matches; any other failure is a TypeError |
| Generate.OnMethod | src/generate.ts:182-190 | the `on` signature exists exactly when the source method has a second parameter |
| Generate.OnMethods | src/generate.ts:178-191 | one `on` signature per event |
| Generate.EmitterIfaces | src/generate.ts:170-192 | one emitter interface per entry of `exportMap.events` |
| Generate.IfaceTypesReplaced | src/generate.ts:408-421 | fails exactly when some property has no type |
| Generate.TransformIfaceTypes | src/generate.ts:408-421 | the loop that overwrites each property's type yields the reference rewrite |
| Generate.AddEnvImports | src/generate.ts:67-95 | appends exactly the environment's imports of the given names |
| Generate.ForwardedParams | src/generate.ts:155-159 | one name and one structure per parameter, in order; each structure (`getStructure()`) copies the parameter's name, written type, question token and rest marker |
| Generate.ClientMethodOf | src/generate.ts:152-167 | one pass of the loop builds `ClientMethod` |
| Generate.ClientMethodsOf | src/generate.ts:152-168 | the loop builds `ClientMethods` |
| Generate.OnMethodsOf | src/generate.ts:178-191 | the loop over one emitter's events yields `OnMethods` |
| Generate.AddEmitterIfaces | src/generate.ts:170-192 | succeeds exactly when `EmitterIfaces` does, with its error otherwise, and then appends exactly those interfaces |
| Generate.AddCopies | src/generate.ts:195-213 | succeeds exactly when the copy does, with its error otherwise, and then appends exactly the copies |
| Generate.AddApiConsts | src/generate.ts:97-131 | appends `ID`, `REVISION`, `SCHEMAS`, `EXPORT_MAP` |
| Generate.AddRecordConsts | src/generate.ts:340-374 | appends `ID`, `REVISION`, `JSON_SCHEMA`, `TEMPLATES` |
| Generate.GenerateApiClient | src/generate.ts:63-214 | succeeds exactly when the reference client file exists, with its error otherwise, and then appends exactly its statements |
| Generate.AddClientTail | src/generate.ts:133-213 | the class, the emitter interfaces and the copies, as the reference defines them |
| Generate.GenerateApiServer | src/generate.ts:216-306 | succeeds exactly when the reference server file exists, and then appends exactly its statements |
| Generate.AddServerClass | src/generate.ts:285-305 | the server class, as the reference defines it |
| Generate.GenerateRecordInterface | src/generate.ts:308-406 | succeeds exactly when the reference record file exists, and then appends exactly its statements |
| Generate.AddRecordTail | src/generate.ts:376-405 | the copies, then the table class |
| Generate.AddRecordTable | src/generate.ts:392-405 | fails with the TypeError `mainIface is undefined` exactly when the file has no default interface; otherwise appends exactly the class `<Main>Table` for the first default |
| Generate.Generate | src/generate.ts:18-61 | `generate` as written yields the reference artifacts, the prelude read as `opts.env`: an invalid environment fails first; omitted options throw for an `api` or `adb-record` document |
| Generate.GenerateIn | src/generate.ts:38-60 | with a valid environment, a document whose `id` is not a string fails before any file is made, and otherwise the artifacts are those of its type, with the prelude as written |
| Generate.GenerateKind | src/generate.ts:40-60 | an `api` document gives the client and server files, an `adb-record` document the record file, each failing if the prelude does; any other type is refused as unknown before the prelude is read |
| Generate.GenerateApi | src/generate.ts:40-51 | the `api` branch: a client file, then a server file |
| Generate.GenerateRecord | src/generate.ts:52-59 | the `adb-record` branch: one record file |
| Generate.GeneratedIs | src/generate.ts:18-61 | once the environment and the id are checked, `generate` with a given prelude assembles the three reference files by type |
| Generate.AssembleFiles | src/generate.ts:40-60 | a success means a known type and a prelude; the files are `name.ts` and `name.server.ts` for `api`, `name.ts` for `adb-record`; each starts with the prelude |
| Generate.GenerateRejectsType | src/generate.ts:60 | any other type fails with "Unknown schema type" |
| GenerateProps.ReplacedTypeRemoves | src/generate.ts:413-418 | a rewritten type never mentions `Date`; outside Deno it never mentions `Uint8Array` |
| GenerateProps.ReplacedTypeKeepsClean | src/generate.ts:413-418 | a type that mentions neither name is unchanged |
| GenerateProps.ReplacedTypeIdempotent | src/generate.ts:413-418 | rewriting twice is rewriting once |
| GenerateProps.IfaceTypesReplacedShape | src/generate.ts:408-421 | the interface keeps its name, flags, methods, property names and optionality; every property is typed and no type mentions `Date` |
| GenerateProps.CopiesOkIff | src/generate.ts:195-213 | the copy fails exactly when an interface it does not skip has an untyped property |
| GenerateProps.CopiesHoldOnly | src/generate.ts:195-213 | the copy holds only unskipped interfaces and the document's own aliases and enums |
| GenerateProps.CopiesKeep | src/generate.ts:195-213 | every alias and enum is copied unchanged; every unskipped interface is copied with its types rewritten |
| GenerateProps.CopiedInterfaces | src/generate.ts:377-390 | with nothing skipped, the copied interfaces match the document's one for one, with the same names and flags |
| GenerateProps.FirstDefaultAligned | src/generate.ts:393 | interfaces with the same flags have their first default at the same place |
| GenerateProps.RecordTableName | src/generate.ts:392-397 | when every copied interface is typed, the record tail fails exactly when the document has no default interface, and otherwise ends with `<Main>Table` for its first one |
| GenerateProps.OnMethodListens | src/generate.ts:182-190 | `on(name: "<e>", handler: (evt: removeImport(T)) => void): void`, T being the source method's second parameter type |
| GenerateProps.OnMethodsShape | src/generate.ts:178-191 | one `on` per event, in order, and only when the emitter's source interface exists and declares a method for the event |
| GenerateProps.EmitterIfacesShape | src/generate.ts:170-192 | one exported, non-default, property-free interface per emitter entry, in order, named after it, with those `on` methods |
| GenerateProps.EmittersListen | src/generate.ts:170-191 | every event of every emitter is answered by an `on` signature backed by a declaring method of the document |
| GenerateProps.EnvImportsShape | src/generate.ts:67-95 | `URL` comes from `url` exactly outside Deno; the runtime module's names are always imported, every given name is imported, and nothing but imports is added |
| GenerateProps.ClientEnvTable | src/generate.ts:67-141 | Deno imports `AtekRpcClient` from its URL; Node imports `URL`, then node-rpc; the host imports `URL`, then the API broker; the base is `ApiBrokerClient` exactly for the host |
| GenerateProps.ConstantsOfMetadata | src/generate.ts:340-374 | in the record file, the exported `ID` is the JSON id; `REVISION` is the revision, verbatim, when truthy, else `undefined`; `TEMPLATES` is the templates when truthy, else `{}`; the API file's first two constants are the same |
| GenerateProps.ApiConstsDeclare | src/generate.ts:115-131 | `SCHEMAS` and `EXPORT_MAP` are declared, and nothing but constants is added |
| GenerateProps.RecordConstsDeclare | src/generate.ts:340-374 | `ID`, `REVISION`, `JSON_SCHEMA`, `TEMPLATES` are declared, and nothing but constants is added |
| GenerateProps.ClientFileClass | src/generate.ts:133-168 | exactly one class, `<Stem>Client`, the default export; it extends the imported runtime class; its constructor passes only declared constants; it has one method per primary method, with the same names |
| GenerateProps.ServerFileClass | src/generate.ts:285-305 | exactly one class, `<Stem>Server`, the default export; it extends the imported server class; it takes the imported handler type and passes only declared constants and `handlers` |
| GenerateProps.RecordFileClass | src/generate.ts:392-405 | the file ends with its only class, `<Main>Table`; `AtekDbRecordClient` and `AtekDbApiClient` are imported; the constructor passes only declared constants and its own parameters |
| GenerateProps.OutputNameOf | src/generate.ts:38 | the output name is the text between the first and second `/` of the id |
| GenerateProps.OutputNameWithoutSlash | src/generate.ts:38 | an id without `/` names the files `undefined.ts` and `undefined.server.ts` |
| Generate.GeneratedFiles | src/generate.ts:38-60 | a success means a string id and a known type; `api` gives exactly `name.ts` and `name.server.ts`, `adb-record` exactly `name.ts`; every file starts with the prelude of the resolved environment |
| GenerateProps.OmittedOptions | src/generate.ts:18-61 | with the corrected prelude, omitting the options equals options without an environment |
| GenerateProps.OmittedOptionsAsWritten | src/generate.ts:41 | as written, omitting the options throws the TypeError `opts is undefined` for every document with a string id and a known type |
| GenerateProps.GivenOptionsAgree | src/generate.ts:41 | with options given, the written and corrected preludes agree |
| JsonHeap.SlotIndex | resolve-refs.js:7-8 | the position of the first property with the key, or none |
| JsonHeap.SetSlot | resolve-refs.js:22 | `node[k] = v` changes exactly that property of that object |
| JsonHeap.LoadHolds | resolve-refs.js:32 | parsing a document appends exactly its containers to the heap, laid out from the old end |
| JsonHeap.LaidMember | resolve-refs.js:8 | reading a property of a loaded object finds the document's member under that key |
| JsonHeap.HoldsTruthy | resolve-refs.js:8 | a loaded value is truthy exactly when its document is |
| JsonHeap.LoadReadBack | index.js:65 | reading a loaded document back (`JSON.stringify`) gives the document |
| JsonPointer.Escape | resolve-refs.js:22 | an escaped reference token has no `/` |
| JsonPointer.UnescapeEscape | resolve-refs.js:22 | unescaping the escaped token of a key gives the key back (section 4 of RFC 6901) |
| JsonPointer.Tokens | resolve-refs.js:22 | a non-empty pointer not starting with `/` is invalid; the empty pointer has no tokens |
| JsonPointer.Step | resolve-refs.js:22 | stepping into `null` throws a TypeError; any other primitive rejects the token; an object gives the value of its property |
| JsonPointer.PlainToken | resolve-refs.js:22 | `/` followed by a text without `/` or `~` is the one token that text |
| JsonPointer.GetEmpty | resolve-refs.js:14 | the empty pointer (`$ref` `#`) is the whole root |
| JsonPointer.GetKey | resolve-refs.js:22 | `/` + the escaped key selects that property |
| JsonPointer.GetIndex | resolve-refs.js:22 | `/i` selects element i of an array |
| JsonPointer.NotAnIndex | resolve-refs.js:22 | on an array, a plain token that is no index, not `length` and no inherited name is rejected |
| JsonPointer.DashRejected | resolve-refs.js:22 | `-` is rejected |
| JsonPointer.LeadingZeroRejected | resolve-refs.js:22 | `0` followed by one or more digits is rejected on an array |
| JsonPointer.GetConcat | resolve-refs.js:22 | evaluating `p + q` is evaluating q from what p selects |
| Resolve.RefOf | resolve-refs.js:8 | reading `node[k].$ref` fails exactly on a null property (as written); a truthy `$ref` comes from an object |
| Resolve.ClassifyFragment | resolve-refs.js:13-14 | `#p` is the local pointer `p` |
| Resolve.ClassifyAbsolute | resolve-refs.js:15-16 | a `$ref` starting with `/` is a pointer into the root, kept whole |
| Resolve.ClassifyRemote | resolve-refs.js:17-20 | `url#p` is the pointer p in `url`; a bare URL has the empty pointer |
| Resolve.ClassifyDropsThirdPiece | resolve-refs.js:18 | only the first two `#`-pieces are used |
| Resolve.Target | resolve-refs.js:10-22 | following a reference keeps every existing object's kind and keys and only appends objects |
| Resolve.Fetched | resolve-refs.js:29-38 | fetching keeps every existing object's kind and keys and only appends objects |
| Resolve.Resolved | resolve-refs.js:4-27 | a node that is not an object changes nothing; otherwise every existing object keeps its kind and keys (only property values change) |
| Resolve.Walk | resolve-refs.js:7-26 | the `for…in` walk keeps every existing object's kind and keys |
| Resolve.WalkFrame | resolve-refs.js:7-26 | the walk of a laid-out document from property k writes only inside that document's own objects and the objects it appends, and leaves the container's properties before k alone |
| Resolve.TargetPrefix | resolve-refs.js:19 | following a reference leaves every existing object exactly as it was and only appends |
| Resolve.FetchedPrefix | resolve-refs.js:29-38 | fetching leaves every existing object exactly as it was and only appends |
| Resolve.Heap.ResolveRefs | resolve-refs.js:4-27 | the in-place `resolveRefs` leaves the heap and outcome the reference resolution defines |
| Resolve.Heap.ResolveObject | resolve-refs.js:7-26 | the loop over the object's properties equals the reference walk |
| Resolve.Heap.ResolveProperty | resolve-refs.js:8-25 | one pass keeps the layout of the unvisited properties and advances the reference walk by one, or fails with the walk's error |
| Resolve.Heap.ResolveTarget | resolve-refs.js:10-22 | the replacement value and heap are the reference target; the heap only grows |
| Resolve.Heap.FetchSchema | resolve-refs.js:29-38 | the fetched document is loaded and resolved against itself, as the reference defines |
| ResolveProps.RefOfHolds | resolve-refs.js:8 | the `$ref` test on a loaded value agrees with the document: null fails (as written), truthiness and string-ness carry over |
| ResolveProps.WalkInert | resolve-refs.js:7-26 | a walk over properties whose values hold no references (and, as written, no `null`) changes nothing |
| ResolveProps.ResolvedInert | resolve-refs.js:4-27 | a loaded document without references is left as it was |
| ResolveProps.ResolvedDocumentInert | resolve-refs.js:4-27 | a document without references comes out unchanged |
| ResolveProps.WalkNullThrows | resolve-refs.js:8 | as written, a null property throws "Cannot read properties of null" |
| ResolveProps.WalkNullSkipped | resolve-refs.js:6-8 | with the null check, a null property is passed over |
| ResolveProps.WalkLocalRef | resolve-refs.js:13-22 | a property with a local string `$ref` is overwritten with what the pointer finds in the root and the walk goes on with the next property, so the replacement is not walked; a pointer error aborts the walk |
| ResolveProps.WalkRefNotString | resolve-refs.js:13 | a truthy non-string `$ref` throws (`startsWith` is not a function) |
| ResolveProps.WalkFetchFails | resolve-refs.js:31-36 | a remote `$ref` whose fetch fails aborts the whole walk with the fetch error |
| ResolveProps.WalkIntoChild | resolve-refs.js:24 | a child object without `$ref` is walked with the same root before the walk goes on |
| ResolveProps.NullDefaultAsWritten | resolve-refs.js:8 | as written, `{"default": null}` throws |
| ResolveProps.NullDefaultSafe | resolve-refs.js:6-8 | with the null check, `{"default": null}` comes out unchanged |
| ResolveProps.WalkPastInert | resolve-refs.js:7-25 | a property with no reference anywhere in it (and, as written, no `null`) is passed over, the heap unchanged |
| ResolveProps.WalkPastInertRun | resolve-refs.js:7-25 | a run of such properties is passed over, the heap unchanged |
| ResolveProps.WalkInertThenNull | resolve-refs.js:7-8 | as written, the loop reaches a `null` property past such a run and throws reading its `$ref` |
| ResolveProps.ResolvedNullMember | resolve-refs.js:4-8 | as written, a document with a `null` property after properties without references fails to resolve |
| ResolveProps.LocalRefWalked | resolve-refs.js:13-22 | in `{"a": {"$ref": "#/b"}, "b": 1}` the walk overwrites `a` with 1 in place |
| ResolveProps.LocalRefResolved | resolve-refs.js:4-27 | `{"a": {"$ref": "#/b"}, "b": 1}` resolves to `{"a": 1, "b": 1}` |
| Legacy.ReadProp | index.js:68 | reading a property fails exactly on `undefined` and `null`, and otherwise gives the property's value |
| Legacy.HeapReadProp | index.js:58 | reading a property of a heap value fails exactly on `null`, and otherwise gives the property's value (absent for primitives) |
| Legacy.SafeStringOf | index.js:58 | `toSafeString` of the candidate succeeds exactly on a string |
| Legacy.ParamsOf | index.js:120-127 | a falsy definition gives `undefined`; an array is kept as it is |
| Legacy.ParamElements | index.js:77 | the elements the loop up to `params.length` visits: the array's items, in order |
| Legacy.ParamName | index.js:78 | fails exactly on an `undefined` or `null` element or a truthy name that is not a string |
| Legacy.ParamType | index.js:129-145 | a falsy schema gives type `undefined` and no declarations; `type: 'array'` throws "Array parameters TODO"; whenever declarations are made, the type is the generated name `toSafeString(method_param)` and they are that one compiled declaration |
| Legacy.AddParam | index.js:78-81 | one parameter: its name and type, with the generated type declarations appended |
| Legacy.AddParams | index.js:75-82 | the parameter loop collects the reference parameters, in order, and their names |
| Legacy.AddClientMethod | index.js:68-84 | the class gets the reference method appended, and the declarations follow |
| Legacy.AddClientMethods | index.js:67-85 | the loop over `definition.methods` leaves the class with the reference methods, in order, and the declarations after it |
| Legacy.GenerateApiClient | index.js:52-99 | succeeds exactly when the reference client file exists, with its error otherwise, and appends exactly its statements |
| Legacy.GenerateApiServer | index.js:101-118 | succeeds exactly when the reference server file exists, and appends exactly its statements |
| Legacy.GenerateSchema | index.js:12-50 | `generate` resolves references as written (reading `$ref` of a `null` member throws), then yields the reference files |
| LegacyProps.CollectItems | index.js:67-85 | the loops succeed exactly when every turn does; they keep one item per turn, in order; otherwise they fail with the first failing turn's error |
| LegacyProps.MethodOfName | index.js:69 | each client method is named after its key |
| LegacyProps.MethodParams | index.js:75-84 | one parameter per parameter schema, named `params[i].name \|\| 'arg' + i`; the body passes them, in order, to `_rpc` under the method's name; the return type is the one computed from the response |
| LegacyProps.DefaultNamesDistinct | index.js:78 | `arg0`, `arg1`, … are pairwise distinct |
| LegacyProps.UnnamedParam | index.js:78 | a parameter without a truthy name is `arg<i>` |
| LegacyProps.ParamsOfShapes | index.js:120-127 | a falsy definition gives no parameters; an array lists its items; an object of `type: 'array'` gives its `items`; any other object is the only parameter |
| LegacyProps.ParamTypeGenerates | index.js:134-143 | declarations are generated exactly for an object schema whose type is `object`, or that has a `oneOf` and whose type is not `array` |
| LegacyProps.ParamTypeOwn | index.js:144 | any other schema is typed by its own `type`, with no declaration |
| LegacyProps.TypeNameIsIdentifier | index.js:135 | generated type names are identifiers that do not start with a lower-case letter |
| LegacyProps.NoResponse | index.js:72-73 | without `response` the method returns `Promise<undefined>` and declares nothing |
| LegacyProps.ObjectResponse | index.js:72-73 | an object response is declared as `<Method>Response`, and the method returns a promise of it |
| LegacyProps.ClassNamesAreIdentifiers | index.js:58 | `<Stem>Client` and `<Stem>Server` are identifiers |
| LegacyProps.ClientShape | index.js:52-98 | the import of `JsonRpcClient` comes first; then a class extending it whose constructor passes the schema; one method per `definition.methods` entry, in order; the client instance and its export come last |
| LegacyProps.ServerShape | index.js:101-118 | exactly the import of `JsonRpcServer` and its handler type, then a default-exported class without methods passing the schema and `handlers` |
| LegacyProps.FilesByType | index.js:30-48 | `api` gives `<id>.ts` and `<id>.server.ts`; `adb-record` gives `<id>.ts` alone; each file starts with the prelude |
| LegacyProps.UnknownType | index.js:49 | any other type throws "Unknown schema type" |
| LegacyProps.LoadedField | index.js:30 | reading a member of a loaded document: absent stays absent; a string stays that string |
| LegacyProps.UnknownDocument | index.js:27-49 | an object document without references or `null` members whose type is unknown is refused with "Unknown schema type" |
| LegacyProps.ApiDocument | index.js:27-117 | the client and server classes of an `api` document pass the document, with references resolved, to their base classes |
| LegacyProps.ApiDocumentInert | index.js:27-117 | for a document without references or `null` members, that document itself is passed |
| LegacyProps.NullMemberRefused | index.js:27 | a document with a `null` member, and no reference or `null` before it, is refused with the TypeError of reading `$ref` of `null` |
| LegacyProps.NullRecordRefused | index.js:27 | `{"type": "adb-record", "id": "x", "title": "T", "default": null}` is refused that way |
| LegacyProps.NullMemberSafe | index.js:27 | with the null check, a document without references is generated from as it was loaded, `null` members included |
| Strings.SplitFirst | src/generate.ts:38 | the first piece holds no separator; the second is absent exactly when the text has none, and otherwise is the separator-free text after the first separator, up to the next one |
| Strings.SplitAll | resolve-refs.js:18 | `split` gives at least one piece, and no piece holds the separator |
| Strings.Join | src/hack-transform-api-for-schema-gen.ts:108 | joining no parts gives the empty text, and joining one part gives that part |
| Strings.DecimalString | index.js:78 | `String(i)` of a natural number is a non-empty run of digits without a leading zero |
| Strings.DecimalRoundTrip | index.js:78 | decimal numerals read back to their number |
| Strings.DecimalStringInjective | index.js:78 | distinct numbers have distinct numerals |
| Strings.Trim | src/parse.ts:14 | the trimmed text is no longer than the input and neither starts nor ends with white space |
| Strings.TrimStart | src/parse.ts:14 | a suffix of the input, before which every character is white space, not starting with white space |
| Strings.TrimEnd | src/parse.ts:14 | a prefix of the input, after which every character is white space, not ending with white space |
| Strings.TrimSpec | src/parse.ts:14 | the trimmed text is the slice of the input left once the white space before and after it is removed |
| Strings.TrimUnique | src/parse.ts:14 | any such slice that neither starts nor ends with white space is the trimmed text, so `trim` removes exactly the leading and trailing white space |
| Strings.JoinSplitAll | src/hack-transform-api-for-schema-gen.ts:108 | joining the pieces of a split at c, with c between them, gives the text back |

## Left out

- The ts-morph tree, the TypeScript type checker, ts-json-schema-generator and json-schema-to-dts are foreign libraries.
  - Type texts, payload properties and the generated schema are inputs.
  - The declarations json-schema-to-dts compiles are an opaque statement.
  - Printing and formatting of source text is not modelled.
- YAML parsing (js-yaml) is a function parameter that may report failure. `console.log` and `console.error` are dropped.
- The network fetch (node-fetch) is a `fetch` oracle that may fail. Everything async is modelled as sequential.
- `JSON.stringify` formatting is not modelled. A stringified value is kept as JSON data.
- `bin.ts`, `bin.js`, `test.ts` and `test.js` hold file-system I/O and scripts only.
- `Resolve.Resolved`: the nesting of remote fetches is bounded by a `fuel` count. JavaScript recurses without bound on
  documents that reference each other remotely.
- `Resolve.Heap.ResolveRefs`: requires that the node is laid out on the heap as a loaded document. This always holds
  for a freshly parsed schema. It is not modelled for objects already shared by earlier replacements.
- JSON-pointer evaluation follows the json-pointer library's `get`, which is not part of this model. The model agrees
  with section 4 of RFC 6901 for objects and arrays. Inherited property names count as present only for the names listed.
- `for…in` order is insertion order. The JavaScript rule that integer-like keys come first is not modelled, and
  neither are duplicate keys in JSON text.
- On failure the models return the error. The partly built file, or the partly resolved heap, is not described.
- `Generate.GenerateApiClient`: takes the environment and id that `generate` validated. The source recomputes
  `opts?.env || DENO_USERLAND`, with the same result.
- `Generate.GenerateApiClient`: builds the class methods and `on` methods before appending the class or interface, while
  ts-morph adds first and then fills. The final file is the same.
- `Legacy.AddClientMethod`: appends the method after computing its parameters. The source adds it first (index.js:69).
  The final file is the same. The method's `async` modifier (index.js:70) is not represented.
- `Legacy.ValText`: an array inside a template literal is reported as not modelled rather than converted to text.
- `Legacy.ParamName`: a parameter name that is truthy but not a string is reported as not modelled rather than coerced.
- `Legacy.ParamAt` and `Legacy.AddParam`: a parameter type that is not a string is reported as not modelled. ts-morph's
  `setType` already throws on such a value, so the error stands in for that exception.
- `Legacy.ParamElements`: a `params` object that has a `length` property is reported as not modelled rather than read
  as an array-like object.
- `Legacy.RecordTail`: a circular record definition is reported as not modelled; json-schema-to-dts is foreign.
- `Legacy.Stringified`: reading back the resolved document is bounded by the heap size. This stands in for
  `JSON.stringify`'s cycle error.
- `Legacy.Collect`: carries no ensures of its own. Its properties are stated in `LegacyProps.CollectItems`.
- The `adb-record` branch of index.js creates a client file and a server file (index.js:39-40) that it never returns;
  they are not modelled.
- The `toSafeString` of index.js:157-173 is character-for-character the one in src/util.ts:2-18, so the legacy model
  uses `Util.ToSafeString`.
- `Util.ToSafeString`: upper-casing is modelled on ASCII letters only. That is exact: step 1 (src/util.ts:5) has already
  blanked every character outside `[a-zA-Z_$\d]` when `toUpperCase` runs. `\s` is the full ECMAScript white-space and
  line-terminator set.
- `Transform.VisitEmit`, `Transform.EventStepEntry`, `Transform.AddEvent` and `Parse.Assign`: a key equal to an
  `Object.prototype` member name (`Js.ObjectPrototypeNames`, such as `toString` or `__proto__`) behaves as an own,
  ordinary key of the dictionary.
  - In the source, `exportMap.events[I] || {}` (src/hack-transform-api-for-schema-gen.ts:69) finds the inherited
    function for an interface named `toString`. The events are then stored on that function, and `JSON.stringify`
    omits them from `EXPORT_MAP` (src/generate.ts:126-130).
  - `exportMap.methods['__proto__'] = …` (src/hack-transform-api-for-schema-gen.ts:92) and `Object.assign` of a
    `__proto__` member (src/parse.ts:16) set the prototype instead of adding a key.
- `Transform.EventStepEntry`: "creating `events[I]` when missing" holds for interface names outside
  `Js.ObjectPrototypeNames`. For those names the source reuses the inherited value instead (see the line above).
- JSON numbers are integers (`Js.JNum`, the heap's `VNum`). Fractional and exponent numbers are not modelled; no
  operation of the core computes with a number.
- `Types.ParsedDts`: the `project` field is not represented. The metadata is a list of JSON members rather than a map
  of strings, because the YAML front matter may hold any value.

## Findings

| source | as written | input that shows it | evidently intended | confidence | as-written member | corrected member |
|---|---|---|---|---|---|---|
| src/generate.ts:41 | `PRELUDE(opts.env)` reads `env` of `opts`, which the signature makes optional and the check at line 19 tolerates omitting | `generate(dts, schema, exportMap)` with no options, for an `api` or `adb-record` document | `PRELUDE(opts?.env)`, as every other use of `opts` is guarded | not executed | GenerateProps.OmittedOptionsAsWritten | GenerateProps.OmittedOptions |
| resolve-refs.js:8 | `node[k].$ref` is read on every property, including `null` ones | the schema `{"default": null}` | skip `null` like any other primitive, as line 6 does for the node itself | not executed | ResolveProps.NullDefaultAsWritten | ResolveProps.NullDefaultSafe |
| index.js:27 | `generate` resolves with that resolver, so a schema with a `null` member is refused | `{"type": "adb-record", "id": "x", "title": "T", "default": null}` | generate the record file, passing `null` members over | not executed | LegacyProps.NullRecordRefused | LegacyProps.NullMemberSafe |
