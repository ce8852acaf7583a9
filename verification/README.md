# swagger-ts-api translation core, modelled in Dafny

The program turns already-parsed Swagger/OpenAPI nodes into an internal type
model. This project models three parts of it:

- **The data model** (`types.dfy`, module `Types`): the Swagger input shapes
  (`SwaggerSchemaProperty`, `SwaggerSchema`, `SwaggerMethod` and their nested
  request/response content maps), the `BasicType` string enumeration, the
  recursive `PropertyType` union (basic, array, enum, object, link, error),
  with one constructor per interface, `ObjectProperty`, `Schema`, the closed
  `HttpMethod` set, the `Method` record, and `isEmptyModel`. Optional fields
  are `Option` values. Output object maps (`ObjectType.properties`,
  `Schema.properties`) are entry sequences in insertion order, with own-key
  lookup and assignment. The Swagger input `properties` maps are plain Dafny
  maps, so their declaration order is not kept. Enum values are a
  `seq<string>`, so order and duplicates are kept.
- **The type-resolution dispatcher** (`type_factory.dfy`, module
  `TypeFactory`): `translateType` tries a sequence of processors in order. The
  first processor that claims the node decides its type. When none claims it,
  the dispatcher sets the error flag and returns an error value. A processor
  is an abstract function from a node and a type name to an optional type,
  plus a flag saying whether it raised an error itself. The default order is
  Model, Link, Object, Enum, Array, Basic.
- **Per-operation translation** (`path_processor.dfy`, module
  `PathProcessor`): `translatePath` builds one `Method` record per operation.
  A missing tag becomes `"NoTags"` and a missing method name becomes
  `"NoMethod"`. A missing JSON request schema or JSON 200-response schema
  becomes a null payload. Each of these writes a diagnostic line and sets the
  error flag. Both payloads are requested from the schema factory under the
  same name, `<tag><Capitalized name>Request`. That looks like a copy-paste
  slip in the program, but the model keeps it as written, and
  `RequestResponseShareName` shows what follows from it.

The error flag (`ctx.hasErrors` in the program) is threaded through every
call. Each function takes the flag in and returns it with its result.

Collaborators are parameters, so the model is self-contained:

- the six concrete processors;
- the schema factory's `translateSchema`, a function from a name and a schema
  to a `Schema` plus an error flag;
- `JSON.stringify` of a node;
- the locale's upper-casing of one character.

Every assignment to `hasErrors` in the modelled code writes `true`
(`typePropcessor.ts:26`, and `pathProcessor.ts:24,30,40,46,59,65,71`).
Each collaborator is therefore assumed to do the same: it may set the flag
but never clears it.

`translateType` does not tie the flag to whether the produced type contains
an `ErrorType`. A processor may return an error value without raising the
flag, or raise the flag and still claim the node with a good type. The model
states only what the dispatcher itself does (`TranslateType`,
`MatchKeepsFlag`).

## Model

| member | source | states |
|---|---|---|
| Types.TagRoundTrip | src/lib/types.ts:70-97 | Reading back any `BasicType` member's string value gives that member. |
| Types.ParseBasicTypeSound | src/lib/types.ts:70-97 | A string parses only to the member whose string value it is. |
| Types.TagInjective | src/lib/types.ts:70-97 | No two `BasicType` members share a string value. |
| Types.ArrayNesting | src/lib/types.ts:99-123 | Every `PropertyType` is a non-array type inside finitely many array wrappers. Unwrapping all of them and wrapping again gives the original type. |
| Types.Lookup | src/lib/types.ts:132-135 | Looking up a key in an object map finds an entry carrying that key and its value, or reports absence exactly when no entry has the key. |
| Types.SetPropertyLookup | src/lib/types.ts:132-135 | After storing `v` under `k`, `k` maps to `v` and every other key maps to what it did before. |
| Types.SetPropertyKeys | src/lib/types.ts:132-135 | Storing under an existing key keeps the key order. A new key goes last. |
| Types.SetPropertyUnique | src/lib/types.ts:132-135 | Storing a property never creates a second entry for a key. |
| Types.HttpMethodsClosed | src/lib/types.ts:141 | The method names are exactly `get`, `post`, `put` and `delete`. Each name and each method reads back as itself. |
| Types.IsEmptyModel | src/lib/types.ts:160-162 | A falsy value is an empty model. A truthy primitive is not. A schema is empty exactly when no key has a property. |
| Types.AddingPropertyMakesNonEmpty | src/lib/types.ts:160-162 | A schema with any property stored into it is not an empty model. |
| TypeFactory.TranslateType | src/lib/PropertyTypeProcessors/typePropcessor.ts:19-28 | The result is the type from the first processor that claims the node. If none claims it, the result is `Unknown type or property <json> <typeName>` and the flag is set. The flag afterwards is set exactly when it was set before, or a processor the chain reached raised it, or no processor claimed the node. |
| TypeFactory.UnknownTypeMessageShape | src/lib/PropertyTypeProcessors/typePropcessor.ts:27 | Unfolds the fallback message's definition: it starts with `Unknown type or property `, then holds the node's JSON text, then ends with a space and the type name. |
| TypeFactory.EmptyChainFallsBack | src/lib/PropertyTypeProcessors/typePropcessor.ts:17-28 | With an empty processor list every node gets the fallback error value, and the flag is set. |
| TypeFactory.MatchKeepsFlag | src/lib/PropertyTypeProcessors/typePropcessor.ts:20-25 | When some processor claims the node and no processor raises, the flag comes out as it went in, and the type is one a processor produced. |
| TypeFactory.FirstClaim | src/lib/PropertyTypeProcessors/typePropcessor.ts:20-25 | If any processor claims the node, a first claiming processor exists at or before it. |
| TypeFactory.LaterProcessorsIgnored | src/lib/PropertyTypeProcessors/typePropcessor.ts:20-25 | Once a processor in the chain claims the node, appending any further processors changes neither the type nor the flag. |
| TypeFactory.ModelBeforeObject | src/lib/PropertyTypeProcessors/typePropcessor.ts:41-48 | Under the default order, a node the Model processor claims gets the Model processor's type. The result is the same whatever the Object processor would return. |
| PathProcessor.TranslatePath | src/lib/pathsProcessor/pathProcessor.ts:13-91 | The tag is the first tag when present and non-empty; otherwise it is `NoTags`, an error and a diagnostic. The name is `x-metadata.method` when present and non-empty; otherwise it is `NoMethod`, an error and a diagnostic. Both are non-empty. The request and response are the JSON schemas translated under `<tag><Cap name>Request`; otherwise each is null, an error and a diagnostic. A set flag stays set. The flag stays clear when nothing is missing and the schema factory raises nothing. |
| PathProcessor.CapitalizeKeepsRest | src/lib/pathsProcessor/pathProcessor.ts:33 | Unfolds the definition: the upper-cased first character comes first, followed by the rest of the name unchanged. Beyond that, a name whose first character upper-cases to itself is left as it is. |
| PathProcessor.MessageNamesKind | src/lib/pathsProcessor/pathProcessor.ts:22-70 | For one method and URL, two diagnostic lines (`Message`, wording and the "has to tags" typo kept) have the same text only when they report the same missing piece. |
| PathProcessor.RoutingPassesThrough | src/lib/pathsProcessor/pathProcessor.ts:81-90 | The URL and HTTP method pass through. A missing description or summary becomes `""`. No form is produced. The request is never the `'link'` literal. |
| PathProcessor.SchemaFactoryErrorsPropagate | src/lib/pathsProcessor/pathProcessor.ts:48-76 | An error the schema factory raises while building either payload is set in the result. |
| PathProcessor.OneLinePerMissingPiece | src/lib/pathsProcessor/pathProcessor.ts:21-79 | The log has one line per missing piece (tag, name, request schema, response schema), and each line names this operation's method and URL. |
| PathProcessor.Diagnostics | src/lib/pathsProcessor/pathProcessor.ts:21-79 | Each kind of diagnostic line is in the log exactly when its piece is missing. The log length is the number of missing pieces. |
| PathProcessor.RequestResponseShareName | src/lib/pathsProcessor/pathProcessor.ts:48-76 | An operation whose request and 200 response carry the same JSON schema gets the same translated schema for both, because both use one name. |
| PathProcessor.NamingScenario | src/lib/pathsProcessor/pathProcessor.ts:33-76 | Tag `User` and method name `create` make both schemas be requested as `UserCreateRequest`. |
| PathProcessor.DegradedOperation | src/lib/pathsProcessor/pathProcessor.ts:18-79 | An operation with an empty tag list, no method name, no request body and an empty response map gives `NoMethod`, `NoTags` and two null payloads. The flag is set and the log holds four lines, in check order. |

## Left out

- The six concrete processors (Model, Link, Object, Enum, Array, Basic) and `getErrorType`: their code is not part of this model. Processors are abstract functions, and the error value is the `ErrorType` constructor.
- The processor context's other fields (`propertyName`, the node, the factory reference): processors are closures and capture whatever they need.
- `SchemaFactory.translateSchema`: not part of this model. It is a pure function parameter from a name and a JSON schema to a schema and an error flag. Its result is modelled as independent of `ctx` and of earlier calls. A factory that records or deduplicates schemas by name could make the response call (made under the same name right after the request call) depend on the request call. The response clause of `TranslatePath` and `RequestResponseShareName` hold only under this stateless reading.
- `console.error`: modelled as the `Diagnostic` records in the result log. `Message` gives their text, typo included. Writing to the console is I/O and is left out.
- `JSON.stringify` of a node: an opaque `serialize` function parameter.
- `toLocaleUpperCase`: locale-dependent. It is an abstract function from one character to a string, which may be longer than one character.
- `charAt` and `slice` work on UTF-16 code units. The model works on Dafny characters, so a name starting with a surrogate pair is not modelled exactly.
- Object key order and prototype keys: output object maps keep plain insertion order. JavaScript lists integer-like keys first, in numeric order; that is not modelled. The Swagger input `properties` maps (`SwaggerSchemaProperty.properties`, `SwaggerSchema.properties`) are unordered Dafny maps, so their declaration order is dropped. `Lookup` and `SetProperty` treat an object as a plain own-key dictionary. Keys on the prototype chain are not modelled. In JavaScript, assigning to `"__proto__"` adds no own key, and reading an inherited name such as `"constructor"` is never `undefined`. `AddingPropertyMakesNonEmpty` and the `obj[k]` reading of `Lookup` hold for every other key.
- `PropertyType` inherited `basicType` field: in the program, `ArrayType`, `EnumType`, `ObjectType`, `LinkType` and `ErrorType` each extend `PropertyBasicType`, so each carries a `basicType` value beside its payload. The model represents that field by the constructor alone. A value whose `basicType` disagrees with its payload shape (say `STRING` with an `arrayType`) has no counterpart, and which `basicType` an error value carries is not recorded.
- `isEmptyModel` on an object without a `properties` field throws a `TypeError`. The model only accepts falsy values, truthy primitives and schemas.
- The `Schema[]` and `'link'` payload forms and the `form` field exist in the `Method` type, but `translatePath` never produces them. The model records that the form is always absent.
- Non-JSON media types (`multipart/mixed`, `image/png`, `image/jpeg`, `*/*`) are fields the translation never reads.
- `SwaggerPaths`, `Paths` and `AllSchemas` are declared as types only; no operation in the modelled code works on them.
- Recursion depth and cycle detection: not present in the modelled code.
- Whether the flag is set exactly when the produced type contains an error value depends on the concrete processors, so it is not stated.
