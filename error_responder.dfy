/**
 * The two Express error handlers of the patched Indiekit: `notFound`, which
 * forwards a not-found error to the next handler, and `internalServer`, which
 * picks the status, negotiates HTML, then JSON, then plain text, and keeps the
 * stack trace and the cause object out of every response in production.
 *
 * The localisation lookup (`response.locals.__`) and `clean-stack` are
 * uninterpreted function parameters; whether the request accepts HTML or
 * JSON is given as two booleans, and `NODE_ENV` as an optional string.
 */
module ErrorResponder {
  import opened Wrappers
  import opened JsEnv

  /** The underlying cause: an object (always truthy) that may carry a message. */
  datatype Cause = Cause(name: Option<string>, message: Option<string>)

  /** The fields of the error object the handlers read. */
  datatype HttpError = HttpError(
    name: string,
    message: string,
    code: Option<string>,
    uri: Option<string>,
    scope: Option<string>,
    cause: Option<Cause>,
    status: Option<int>,
    stack: string)

  /** The keys of the JSON body, in the order the object literal writes them. */
  datatype Key = ErrorKey | DescriptionKey | UriKey | ScopeKey | StackKey | CauseKey

  /** The property name each key is serialised under. */
  function KeyName(k: Key): string {
    match k
    case ErrorKey => "error"
    case DescriptionKey => "error_description"
    case UriKey => "error_uri"
    case ScopeKey => "scope"
    case StackKey => "stack"
    case CauseKey => "cause"
  }

  function KeyRank(k: Key): nat {
    match k
    case ErrorKey => 0
    case DescriptionKey => 1
    case UriKey => 2
    case ScopeKey => 3
    case StackKey => 4
    case CauseKey => 5
  }

  datatype JsonValue = JString(s: string) | JCause(c: Cause)

  /** A JSON object as the ordered list of its properties. */
  type JsonObject = seq<(Key, JsonValue)>

  /** The locals of the `error` view. */
  datatype ViewModel = ViewModel(
    title: string,
    content: string,
    name: string,
    stack: Option<string>,
    status: int,
    uri: Option<string>)

  datatype Body = Html(view: string, locals: ViewModel) | Json(fields: JsonObject) | Text(text: string)

  datatype Response = Response(status: int, body: Body)

  /** What a handler does with the request: answer it, or pass an error to `next`. */
  datatype Handled = Sent(response: Response) | Forwarded(error: HttpError)

  /** `error.status || 500`: a missing or zero status becomes 500. */
  function StatusOf(e: HttpError): (s: int)
    ensures s != 0
    ensures e.status.Some? && e.status.value != 0 ==> s == e.status.value
    ensures e.status.None? || e.status.value == 0 ==> s == 500
  {
    if e.status.Some? && e.status.value != 0 then e.status.value else 500
  }

  /** `process.env.NODE_ENV !== "production"`: unset counts as development. */
  predicate IsDev(nodeEnv: Option<string>) {
    nodeEnv != Some("production")
  }

  /**
   * `Error.prototype.toString` (section 20.5.3.4 of ECMA-262): the name and
   * the message joined by `": "`, either alone when the other is empty.
   */
  function ErrorToString(e: HttpError): (r: string)
    ensures e.name <= r
    ensures |e.message| <= |r| && r[|r| - |e.message|..] == e.message
    ensures e.name != "" && e.message != "" ==> r == e.name + ": " + e.message
    ensures e.message == "" ==> r == e.name
    ensures e.name == "" ==> r == e.message
  {
    if e.name == "" then e.message
    else if e.message == "" then e.name
    else e.name + ": " + e.message
  }

  /** `error.message || error.cause?.message`; `undefined` when neither is there. */
  function Description(e: HttpError): (r: Option<string>)
    ensures e.message != "" ==> r == Some(e.message)
    ensures e.message == "" ==> r == (if e.cause.Some? then e.cause.value.message else None)
    ensures r.None? <==> e.message == "" && (e.cause.None? || e.cause.value.message.None?)
  {
    if e.message != "" then Some(e.message)
    else if e.cause.Some? then e.cause.value.message
    else None
  }

  /** The value of the first property named `k`. */
  function Lookup(fields: JsonObject, k: Key): Option<JsonValue> {
    if |fields| == 0 then None
    else if fields[0].0 == k then Some(fields[0].1)
    else Lookup(fields[1..], k)
  }

  function Keys(fields: JsonObject): seq<Key> {
    seq(|fields|, i requires 0 <= i < |fields| => fields[i].0)
  }

  /**
   * The JSON body: `error` and `error_description` always written (the latter
   * dropped by serialisation when `undefined`), `error_uri` and `scope` only
   * when truthy, and in development the cleaned stack and the cause object.
   */
  function JsonBody(e: HttpError, dev: bool, cleanStack: string -> string): JsonObject {
    Properties(
      JString(if Truthy(e.code) then e.code.value else e.name),
      if Description(e).Some? then Some(JString(Description(e).value)) else None,
      if Truthy(e.uri) then Some(JString(e.uri.value)) else None,
      if Truthy(e.scope) then Some(JString(e.scope.value)) else None,
      if dev then Some(JString(cleanStack(e.stack))) else None,
      if dev && e.cause.Some? then Some(JCause(e.cause.value)) else None)
  }

  /** The object literal's layout: `error` always, then the five optional properties in order. */
  function Properties(error: JsonValue, description: Option<JsonValue>, uri: Option<JsonValue>,
                      scope: Option<JsonValue>, stack: Option<JsonValue>, cause: Option<JsonValue>): JsonObject {
    [(ErrorKey, error)]
    + (Property(DescriptionKey, description)
    + (Property(UriKey, uri)
    + (Property(ScopeKey, scope)
    + (Property(StackKey, stack)
    + Property(CauseKey, cause)))))
  }

  /** A property the serialiser writes only when its value is defined. */
  function Property(k: Key, v: Option<JsonValue>): JsonObject {
    if v.Some? then [(k, v.value)] else []
  }

  /** The locals of the error page; the raw stack only in development. */
  function ErrorView(e: HttpError, dev: bool, localize: string -> string): ViewModel {
    ViewModel(
      title := localize(e.name + ".title:" + e.name),
      content := e.message,
      name := e.name,
      stack := if dev then Some(e.stack) else None,
      status := StatusOf(e),
      uri := e.uri)
  }

  /**
   * `internalServer`: the status first, then HTML if it is accepted, else
   * JSON if it is accepted, else the error's string form.
   */
  function InternalServer(e: HttpError, acceptsHtml: bool, acceptsJson: bool, nodeEnv: Option<string>,
                          localize: string -> string, cleanStack: string -> string): (r: Response)
    ensures r.status == StatusOf(e)
    ensures r.body.Html? <==> acceptsHtml
    ensures r.body.Json? <==> !acceptsHtml && acceptsJson
    ensures r.body.Text? <==> !acceptsHtml && !acceptsJson
    ensures r.body.Html? ==> (
      && r.body.view == "error"
      && r.body.locals.title == localize(e.name + ".title:" + e.name)
      && r.body.locals.content == e.message && r.body.locals.name == e.name
      && r.body.locals.status == r.status && r.body.locals.uri == e.uri
      && (r.body.locals.stack.Some? <==> IsDev(nodeEnv))
      && r.body.locals.stack == (if IsDev(nodeEnv) then Some(e.stack) else None))
    ensures r.body.Json? ==> r.body.fields == JsonBody(e, IsDev(nodeEnv), cleanStack)
    ensures r.body.Text? ==> r.body.text == ErrorToString(e)
  {
    var dev := IsDev(nodeEnv);
    var status := StatusOf(e);
    if acceptsHtml then Response(status, Html("error", ErrorView(e, dev, localize)))
    else if acceptsJson then Response(status, Json(JsonBody(e, dev, cleanStack)))
    else Response(status, Text(ErrorToString(e)))
  }

  /** `notFound`: nothing is sent; a not-found error with the localised page message goes to `next`. */
  function NotFound(localize: string -> string): (h: Handled)
    ensures h.Forwarded? && h.error.message == localize("NotFoundError.page")
  {
    Forwarded(NotFoundError(localize("NotFoundError.page")))
  }

  /**
   * `IndiekitError.notFound(message)`. The error class is not part of this
   * model; its name and status are taken as `NotFoundError` and 404.
   */
  function NotFoundError(message: string): HttpError {
    HttpError(name := "NotFoundError", message := message, code := None, uri := None,
              scope := None, cause := None, status := Some(404), stack := "")
  }

  // ---------------------------------------------------------------------
  // Properties

  /** A key missing from the list has no value. */
  lemma {:induction false} LookupAbsent(fields: JsonObject, k: Key)
    ensures Lookup(fields, k).None? <==> k !in Keys(fields)
  {
    if |fields| > 0 {
      LookupAbsent(fields[1..], k);
      assert Keys(fields) == [fields[0].0] + Keys(fields[1..]);
    }
  }

  /**
   * The JSON body read as a map from keys to values: `error` is the code or
   * else the name; `error_description` the message or else the cause's
   * message; `error_uri` and `scope` only when truthy; the cleaned stack only
   * in development; the cause object only in development when there is one.
   */
  function Field(e: HttpError, dev: bool, cleanStack: string -> string, k: Key): Option<JsonValue> {
    match k
    case ErrorKey => Some(JString(if Truthy(e.code) then e.code.value else e.name))
    case DescriptionKey => if Description(e).Some? then Some(JString(Description(e).value)) else None
    case UriKey => if Truthy(e.uri) then Some(JString(e.uri.value)) else None
    case ScopeKey => if Truthy(e.scope) then Some(JString(e.scope.value)) else None
    case StackKey => if dev then Some(JString(cleanStack(e.stack))) else None
    case CauseKey => if dev && e.cause.Some? then Some(JCause(e.cause.value)) else None
  }

  /** Looking past one optional property. */
  lemma LookupProperty(key: Key, v: Option<JsonValue>, q: JsonObject, k: Key)
    ensures Lookup(Property(key, v) + q, k) == if key == k && v.Some? then v else Lookup(q, k)
  {
    if v.Some? {
      assert (Property(key, v) + q)[1..] == q;
    } else {
      assert Property(key, v) + q == q;
    }
  }

  /** Looking up a key in the literal's layout gives the value written for it, if any. */
  lemma LookupProperties(v0: JsonValue, v1: Option<JsonValue>, v2: Option<JsonValue>, v3: Option<JsonValue>,
                         v4: Option<JsonValue>, v5: Option<JsonValue>, k: Key)
    ensures Lookup(Properties(v0, v1, v2, v3, v4, v5), k)
      == match k
         case ErrorKey => Some(v0)
         case DescriptionKey => v1
         case UriKey => v2
         case ScopeKey => v3
         case StackKey => v4
         case CauseKey => v5
  {
    var q5 := Property(CauseKey, v5);
    var q4 := Property(StackKey, v4) + q5;
    var q3 := Property(ScopeKey, v3) + q4;
    var q2 := Property(UriKey, v2) + q3;
    var q1 := Property(DescriptionKey, v1) + q2;
    assert ([(ErrorKey, v0)] + q1)[1..] == q1;
    LookupProperty(CauseKey, v5, [], k);
    assert q5 + [] == q5;
    LookupProperty(StackKey, v4, q5, k);
    LookupProperty(ScopeKey, v3, q4, k);
    LookupProperty(UriKey, v2, q3, k);
    LookupProperty(DescriptionKey, v1, q2, k);
  }

  /** Every property of the body has the value `Field` gives it, and no other key is present. */
  lemma JsonBodyLookup(e: HttpError, dev: bool, cleanStack: string -> string, k: Key)
    ensures Lookup(JsonBody(e, dev, cleanStack), k) == Field(e, dev, cleanStack, k)
  {
    LookupProperties(JString(if Truthy(e.code) then e.code.value else e.name),
                     if Description(e).Some? then Some(JString(Description(e).value)) else None,
                     if Truthy(e.uri) then Some(JString(e.uri.value)) else None,
                     if Truthy(e.scope) then Some(JString(e.scope.value)) else None,
                     if dev then Some(JString(cleanStack(e.stack))) else None,
                     if dev && e.cause.Some? then Some(JCause(e.cause.value)) else None, k);
  }

  /** The literal writes its keys in rank order, so none repeats. */
  lemma PropertiesOrdered(v0: JsonValue, v1: Option<JsonValue>, v2: Option<JsonValue>, v3: Option<JsonValue>,
                          v4: Option<JsonValue>, v5: Option<JsonValue>)
    ensures var r := Properties(v0, v1, v2, v3, v4, v5);
      forall i, j :: 0 <= i < j < |r| ==> KeyRank(r[i].0) < KeyRank(r[j].0)
  {
  }

  /** Different keys are serialised under different property names. */
  lemma KeyNameInjective()
    ensures forall k1, k2 :: KeyName(k1) == KeyName(k2) ==> k1 == k2
  {
  }

  /**
   * The keys come in the declared order, so none repeats, and the serialised
   * object never writes the same property name twice.
   */
  lemma JsonBodyOrdered(e: HttpError, dev: bool, cleanStack: string -> string)
    ensures var r := JsonBody(e, dev, cleanStack);
      forall i, j :: 0 <= i < j < |r| ==> KeyRank(r[i].0) < KeyRank(r[j].0)
    ensures var r := JsonBody(e, dev, cleanStack);
      forall i, j :: 0 <= i < j < |r| ==> KeyName(r[i].0) != KeyName(r[j].0)
  {
    KeyNameInjective();
    PropertiesOrdered(JString(if Truthy(e.code) then e.code.value else e.name),
                      if Description(e).Some? then Some(JString(Description(e).value)) else None,
                      if Truthy(e.uri) then Some(JString(e.uri.value)) else None,
                      if Truthy(e.scope) then Some(JString(e.scope.value)) else None,
                      if dev then Some(JString(cleanStack(e.stack))) else None,
                      if dev && e.cause.Some? then Some(JCause(e.cause.value)) else None);
  }

  /**
   * The disclosure rule: under `NODE_ENV=production` no representation holds
   * the stack trace or the cause object: the page has no stack, the JSON body
   * has neither key, and the text form is built from name and message only.
   */
  lemma ProductionHidesDiagnostics(e: HttpError, acceptsHtml: bool, acceptsJson: bool,
                                   localize: string -> string, cleanStack: string -> string)
    ensures var r := InternalServer(e, acceptsHtml, acceptsJson, Some("production"), localize, cleanStack);
      && (r.body.Html? ==> r.body.locals.stack.None?)
      && (r.body.Json? ==> StackKey !in Keys(r.body.fields) && CauseKey !in Keys(r.body.fields))
      && (r.body.Text? ==> r.body.text == ErrorToString(e))
  {
    var r := InternalServer(e, acceptsHtml, acceptsJson, Some("production"), localize, cleanStack);
    if r.body.Json? {
      JsonBodyLookup(e, false, cleanStack, StackKey);
      JsonBodyLookup(e, false, cleanStack, CauseKey);
      LookupAbsent(r.body.fields, StackKey);
      LookupAbsent(r.body.fields, CauseKey);
    }
  }

  /**
   * Non-interference: in production, two errors that differ only in their
   * stack, and in causes with the same message, get the same response.
   */
  lemma ProductionIgnoresStackAndCause(e1: HttpError, e2: HttpError, acceptsHtml: bool, acceptsJson: bool,
                                       localize: string -> string, cleanStack: string -> string)
    requires e1.(stack := e2.stack, cause := e2.cause) == e2
    requires e1.cause.Some? == e2.cause.Some?
    requires e1.cause.Some? ==> e1.cause.value.message == e2.cause.value.message
    ensures InternalServer(e1, acceptsHtml, acceptsJson, Some("production"), localize, cleanStack)
         == InternalServer(e2, acceptsHtml, acceptsJson, Some("production"), localize, cleanStack)
  {
    assert Description(e1) == Description(e2);
  }

  /**
   * Outside production the cleaned stack is in the JSON body and the raw one
   * on the page; an unset `NODE_ENV` counts as development.
   */
  lemma DevelopmentShowsStack(e: HttpError, nodeEnv: Option<string>, localize: string -> string, cleanStack: string -> string)
    requires nodeEnv != Some("production")
    ensures InternalServer(e, true, false, nodeEnv, localize, cleanStack).body.locals.stack == Some(e.stack)
    ensures Lookup(InternalServer(e, false, true, nodeEnv, localize, cleanStack).body.fields, StackKey)
         == Some(JString(cleanStack(e.stack)))
    ensures IsDev(None)
  {
    JsonBodyLookup(e, true, cleanStack, StackKey);
  }

  /**
   * The cause's MESSAGE is not covered by the disclosure rule: in production,
   * an error with an empty message still shows its cause's message as
   * `error_description`.
   */
  lemma ProductionShowsCauseMessage(e: HttpError, localize: string -> string, cleanStack: string -> string)
    requires e.message == "" && e.cause.Some? && e.cause.value.message.Some?
    ensures Lookup(InternalServer(e, false, true, Some("production"), localize, cleanStack).body.fields, DescriptionKey)
         == Some(JString(e.cause.value.message.value))
  {
    JsonBodyLookup(e, false, cleanStack, DescriptionKey);
  }
}
