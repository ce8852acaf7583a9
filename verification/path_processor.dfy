/** Per-operation translation: one Swagger operation becomes one `Method`
    record. Every missing piece (tag, method name, JSON request schema, JSON
    200-response schema) is logged, replaced by a placeholder or a null
    payload, and sets the error flag; a record is always produced. */
module PathProcessor {
  import opened Wrappers
  import opened Types

  /** What the schema factory returned for one named schema, and whether it
      set the error flag while building it. */
  datatype SchemaTranslation = SchemaTranslation(schema: Schema, raised: bool)

  /** The code this translation calls but does not own: the schema factory's
      `translateSchema`, and the locale's upper-casing of one character
      (which may yield more than one character). */
  datatype Collaborators = Collaborators(
    translateSchema: (string, SwaggerSchema) -> SchemaTranslation,
    upperCase: char -> string)

  datatype DiagnosticKind = NoTag | NoMethodName | NoRequestSchema | NoResponseSchema

  /** One line written to the error console. */
  datatype Diagnostic = Diagnostic(kind: DiagnosticKind, httpMethod: HttpMethod, url: string)

  /** The text of a diagnostic line, wording kept as the program writes it. */
  function Message(d: Diagnostic): string {
    "Method " + HttpMethodName(d.httpMethod) + " " + d.url + Reason(d.kind)
  }

  /** What a diagnostic line says after naming the operation. */
  function Reason(k: DiagnosticKind): string {
    match k
    case NoTag => " has to tags"
    case NoMethodName => " has to x-metadata.method"
    case NoRequestSchema => " has no request body schema"
    case NoResponseSchema => " has no 200 response schema"
  }

  /** For one operation the four kinds of diagnostic read differently, so
      the text of a line tells which piece was missing. */
  lemma {:induction false} MessageNamesKind(k1: DiagnosticKind, k2: DiagnosticKind, httpMethod: HttpMethod, url: string)
    ensures Message(Diagnostic(k1, httpMethod, url)) == Message(Diagnostic(k2, httpMethod, url)) ==> k1 == k2
  {
    var prefix := "Method " + HttpMethodName(httpMethod) + " " + url;
    if Message(Diagnostic(k1, httpMethod, url)) == Message(Diagnostic(k2, httpMethod, url)) {
      assert (prefix + Reason(k1))[|prefix|..] == Reason(k1);
      assert (prefix + Reason(k2))[|prefix|..] == Reason(k2);
    }
  }

  /** The translated operation, the error flag afterwards, and the
      diagnostics written, in order. */
  datatype Translated = Translated(operation: Method, hasErrors: bool, log: seq<Diagnostic>)

  const NoTagsPlaceholder := "NoTags"
  const NoMethodPlaceholder := "NoMethod"

  /** `tags && tags[0]`, kept only when truthy (present and non-empty). */
  function FirstTag(sm: SwaggerMethod): Option<string> {
    if sm.tags.Some? && |sm.tags.value| > 0 && sm.tags.value[0] != "" then Some(sm.tags.value[0]) else None
  }

  /** `x-metadata && x-metadata.method`, kept only when truthy. */
  function OperationName(sm: SwaggerMethod): Option<string> {
    if sm.xMetadata.Some? && sm.xMetadata.value.methodName.Some? && sm.xMetadata.value.methodName.value != ""
    then sm.xMetadata.value.methodName
    else None
  }

  /** The schema under `requestBody.content["application/json"]`. */
  function RequestJsonSchema(sm: SwaggerMethod): (r: Option<SwaggerSchema>)
    ensures r.Some? <==>
      && sm.requestBody.Some? && sm.requestBody.value.content.Some?
      && sm.requestBody.value.content.value.json.Some?
      && sm.requestBody.value.content.value.json.value.schema.Some?
    ensures r.Some? ==> r.value == sm.requestBody.value.content.value.json.value.schema.value
  {
    match sm.requestBody
    case None => None
    case Some(body) =>
      match body.content
      case None => None
      case Some(content) =>
        match content.json
        case None => None
        case Some(media) => media.schema
  }

  /** The schema under `responses["200"].content["application/json"]`. */
  function ResponseJsonSchema(sm: SwaggerMethod): (r: Option<SwaggerSchema>)
    ensures r.Some? <==>
      && sm.responses.Some? && sm.responses.value.ok.Some?
      && sm.responses.value.ok.value.content.Some?
      && sm.responses.value.ok.value.content.value.json.Some?
      && sm.responses.value.ok.value.content.value.json.value.schema.Some?
    ensures r.Some? ==> r.value == sm.responses.value.ok.value.content.value.json.value.schema.value
  {
    match sm.responses
    case None => None
    case Some(responses) =>
      match responses.ok
      case None => None
      case Some(ok) =>
        match ok.content
        case None => None
        case Some(content) =>
          match content.json
          case None => None
          case Some(media) => media.schema
  }

  /** First character upper-cased, the rest as it is. */
  function Capitalize(upperCase: char -> string, s: string): string {
    if |s| == 0 then "" else upperCase(s[0]) + s[1..]
  }

  /** Capitalizing changes at most the first character: the rest of the
      name follows the upper-cased first character unchanged, and a name
      that already starts upper-case is left as it is. */
  lemma CapitalizeKeepsRest(upperCase: char -> string, s: string)
    requires |s| > 0
    ensures var c := Capitalize(upperCase, s);
      && c[..|upperCase(s[0])|] == upperCase(s[0])
      && c[|upperCase(s[0])|..] == s[1..]
    ensures upperCase(s[0]) == [s[0]] ==> Capitalize(upperCase, s) == s
  {
  }

  /** A translated payload with its error flag. */
  datatype Payload = Payload(body: Body, raised: bool)

  /** A payload translated under `name`, or a null payload when absent. */
  function TranslateBody(c: Collaborators, name: string, schema: Option<SwaggerSchema>): Payload
  {
    match schema
    case None => Payload(NoBody, false)
    case Some(s) =>
      var t := c.translateSchema(name, s);
      Payload(OneSchema(t.schema), t.raised)
  }

  /** `translatePath`: builds the `Method` record of one operation. */
  function TranslatePath(
    c: Collaborators,
    url: string,
    httpMethod: HttpMethod,
    sm: SwaggerMethod,
    hasErrors: bool
  ): (r: Translated)
    // tag: the first tag when truthy, otherwise the placeholder and an error
    ensures sm.tags.Some? && |sm.tags.value| > 0 && sm.tags.value[0] != "" ==>
      r.operation.tag == sm.tags.value[0] && Diagnostic(NoTag, httpMethod, url) !in r.log
    ensures !(sm.tags.Some? && |sm.tags.value| > 0 && sm.tags.value[0] != "") ==>
      r.operation.tag == "NoTags" && r.hasErrors && Diagnostic(NoTag, httpMethod, url) in r.log
    // name: x-metadata.method when truthy, otherwise the placeholder and an error
    ensures sm.xMetadata.Some? && sm.xMetadata.value.methodName.Some? && sm.xMetadata.value.methodName.value != "" ==>
      r.operation.name == sm.xMetadata.value.methodName.value && Diagnostic(NoMethodName, httpMethod, url) !in r.log
    ensures !(sm.xMetadata.Some? && sm.xMetadata.value.methodName.Some? && sm.xMetadata.value.methodName.value != "") ==>
      r.operation.name == "NoMethod" && r.hasErrors && Diagnostic(NoMethodName, httpMethod, url) in r.log
    ensures |r.operation.tag| > 0 && |r.operation.name| > 0
    // request: the JSON request schema translated under <tag><Name>Request, or null and an error
    ensures RequestJsonSchema(sm).Some? ==>
      && r.operation.request == OneSchema(c.translateSchema(
           r.operation.tag + Capitalize(c.upperCase, r.operation.name) + "Request", RequestJsonSchema(sm).value).schema)
      && Diagnostic(NoRequestSchema, httpMethod, url) !in r.log
    ensures RequestJsonSchema(sm).None? ==>
      r.operation.request == NoBody && r.hasErrors && Diagnostic(NoRequestSchema, httpMethod, url) in r.log
    // response: the JSON 200 schema translated under the same <tag><Name>Request, or null and an error
    ensures ResponseJsonSchema(sm).Some? ==>
      && r.operation.response == OneSchema(c.translateSchema(
           r.operation.tag + Capitalize(c.upperCase, r.operation.name) + "Request", ResponseJsonSchema(sm).value).schema)
      && Diagnostic(NoResponseSchema, httpMethod, url) !in r.log
    ensures ResponseJsonSchema(sm).None? ==>
      r.operation.response == NoBody && r.hasErrors && Diagnostic(NoResponseSchema, httpMethod, url) in r.log
    // the flag is only ever set, never cleared
    ensures hasErrors ==> r.hasErrors
    // it stays clear when nothing was missing and the schema factory raised nothing
    ensures
      var schemaName := r.operation.tag + Capitalize(c.upperCase, r.operation.name) + "Request";
      (!hasErrors && |r.log| == 0
       && (RequestJsonSchema(sm).Some? ==> !c.translateSchema(schemaName, RequestJsonSchema(sm).value).raised)
       && (ResponseJsonSchema(sm).Some? ==> !c.translateSchema(schemaName, ResponseJsonSchema(sm).value).raised))
      ==> !r.hasErrors
  {
    var tag := FirstTag(sm).GetOr(NoTagsPlaceholder);
    var name := OperationName(sm).GetOr(NoMethodPlaceholder);
    var schemaName := tag + Capitalize(c.upperCase, name) + "Request";
    var request := TranslateBody(c, schemaName, RequestJsonSchema(sm));
    var response := TranslateBody(c, schemaName, ResponseJsonSchema(sm));
    var log := Diagnostics(httpMethod, url,
      FirstTag(sm).None?, OperationName(sm).None?, RequestJsonSchema(sm).None?, ResponseJsonSchema(sm).None?);
    Translated(
      Method(name, tag, url, httpMethod,
             sm.description.GetOr(""), sm.summary.GetOr(""),
             request.body, None, response.body),
      hasErrors || |log| > 0 || request.raised || response.raised,
      log)
  }

  /** Routing data passes through unchanged, absent texts become `""`, the
      form is never filled in, and the request is never the `'link'` literal. */
  lemma RoutingPassesThrough(c: Collaborators, url: string, httpMethod: HttpMethod, sm: SwaggerMethod, hasErrors: bool)
    ensures var m := TranslatePath(c, url, httpMethod, sm, hasErrors).operation;
      && m.url == url && m.httpMethod == httpMethod
      && m.description == (if sm.description.Some? then sm.description.value else "")
      && m.summary == (if sm.summary.Some? then sm.summary.value else "")
      && m.form.None? && WellTypedMethod(m)
  {
  }

  /** An error the schema factory flags while building either payload
      stays flagged in the result. */
  lemma SchemaFactoryErrorsPropagate(c: Collaborators, url: string, httpMethod: HttpMethod, sm: SwaggerMethod, hasErrors: bool)
    ensures var r := TranslatePath(c, url, httpMethod, sm, hasErrors);
      var schemaName := r.operation.tag + Capitalize(c.upperCase, r.operation.name) + "Request";
      && (RequestJsonSchema(sm).Some? && c.translateSchema(schemaName, RequestJsonSchema(sm).value).raised ==> r.hasErrors)
      && (ResponseJsonSchema(sm).Some? && c.translateSchema(schemaName, ResponseJsonSchema(sm).value).raised ==> r.hasErrors)
  {
  }

  /** One diagnostic line per missing piece, each naming this operation. */
  lemma OneLinePerMissingPiece(c: Collaborators, url: string, httpMethod: HttpMethod, sm: SwaggerMethod, hasErrors: bool)
    ensures var log := TranslatePath(c, url, httpMethod, sm, hasErrors).log;
      && |log| == Count(FirstTag(sm).None?) + Count(OperationName(sm).None?)
                  + Count(RequestJsonSchema(sm).None?) + Count(ResponseJsonSchema(sm).None?)
      && forall d :: d in log ==> d.httpMethod == httpMethod && d.url == url
  {
  }

  /** Request and response schemas are requested under one and the same
      name, so an operation whose request and 200 response carry the same
      JSON schema gets the very same schema for both. */
  lemma RequestResponseShareName(c: Collaborators, url: string, httpMethod: HttpMethod, sm: SwaggerMethod, hasErrors: bool)
    requires RequestJsonSchema(sm).Some? && RequestJsonSchema(sm) == ResponseJsonSchema(sm)
    ensures var m := TranslatePath(c, url, httpMethod, sm, hasErrors).operation;
      m.request.OneSchema? && m.request == m.response
  {
  }

  /** An operation tagged `User` with method name `create` has both its
      schemas requested under the name `UserCreateRequest`. */
  lemma NamingScenario(c: Collaborators, url: string, httpMethod: HttpMethod, sm: SwaggerMethod, hasErrors: bool)
    requires sm.tags.Some? && |sm.tags.value| > 0 && sm.tags.value[0] == "User"
    requires sm.xMetadata == Some(MethodMetadata(Some("create")))
    requires c.upperCase('c') == "C"
    requires RequestJsonSchema(sm).Some? && ResponseJsonSchema(sm).Some?
    ensures var m := TranslatePath(c, url, httpMethod, sm, hasErrors).operation;
      && m.request == OneSchema(c.translateSchema("UserCreateRequest", RequestJsonSchema(sm).value).schema)
      && m.response == OneSchema(c.translateSchema("UserCreateRequest", ResponseJsonSchema(sm).value).schema)
  {
    assert FirstTag(sm) == Some("User");
    assert OperationName(sm) == Some("create");
    assert Capitalize(c.upperCase, "create") == "C" + "reate";
    assert "User" + ("C" + "reate") + "Request" == "UserCreateRequest";
  }

  /** An operation with an empty tag list, no method name, no request body
      and an empty response map is still translated: placeholders, null
      payloads, the error flag, and four distinct diagnostic lines. */
  lemma DegradedOperation(c: Collaborators, url: string, httpMethod: HttpMethod, sm: SwaggerMethod, hasErrors: bool)
    requires sm.tags == Some([])
    requires sm.xMetadata.None? || sm.xMetadata.value.methodName.None?
    requires sm.requestBody.None?
    requires sm.responses == Some(Responses(None))
    ensures var r := TranslatePath(c, url, httpMethod, sm, hasErrors);
      && r.operation.name == "NoMethod" && r.operation.tag == "NoTags"
      && r.operation.request == NoBody && r.operation.response == NoBody
      && r.hasErrors
      && r.log == [Diagnostic(NoTag, httpMethod, url), Diagnostic(NoMethodName, httpMethod, url),
                   Diagnostic(NoRequestSchema, httpMethod, url), Diagnostic(NoResponseSchema, httpMethod, url)]
  {
  }

  /** The lines written for an operation: one per missing piece, in the
      order the checks run, each naming the operation's method and URL. */
  function Diagnostics(httpMethod: HttpMethod, url: string, noTag: bool, noName: bool, noRequest: bool, noResponse: bool): (r: seq<Diagnostic>)
    ensures Diagnostic(NoTag, httpMethod, url) in r <==> noTag
    ensures Diagnostic(NoMethodName, httpMethod, url) in r <==> noName
    ensures Diagnostic(NoRequestSchema, httpMethod, url) in r <==> noRequest
    ensures Diagnostic(NoResponseSchema, httpMethod, url) in r <==> noResponse
    ensures |r| == Count(noTag) + Count(noName) + Count(noRequest) + Count(noResponse)
    ensures forall d :: d in r ==> d.httpMethod == httpMethod && d.url == url
  {
    var log := LogIf([], noTag, Diagnostic(NoTag, httpMethod, url));
    var log := LogIf(log, noName, Diagnostic(NoMethodName, httpMethod, url));
    var log := LogIf(log, noRequest, Diagnostic(NoRequestSchema, httpMethod, url));
    LogIf(log, noResponse, Diagnostic(NoResponseSchema, httpMethod, url))
  }

  /** Writes line `d` after `log` when `missing` holds. */
  function LogIf(log: seq<Diagnostic>, missing: bool, d: Diagnostic): (r: seq<Diagnostic>)
    ensures forall x :: x in r <==> x in log || (missing && x == d)
    ensures |r| == |log| + Count(missing)
  {
    if missing then log + [d] else log
  }

  function Count(b: bool): nat {
    if b then 1 else 0
  }
}
