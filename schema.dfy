/** The wire schema of a Bugsnag report and the initialisers that build its
    records from an error, the request being served and the caller's
    annotations. Every record is an immutable value built once per report.

    What Foundation, Vapor and NIO compute (an error's localized description,
    a request's debug description, a status's reason phrase, the remote peer's
    host name and description, the URL and method strings) enters as data
    fields of the input values; UTF-8 decoding of the body enters as a
    function parameter. */
module Schema {
  import opened Wrappers
  import opened Severities

  // ---------------------------------------------------------------------
  // Inputs: the error and the HTTP request, as the initialisers see them
  // ---------------------------------------------------------------------

  /** An HTTP status: its numeric code and its reason phrase. */
  datatype Status = Status(code: int, reasonPhrase: string)

  /** `HTTPResponseStatus.internalServerError`. */
  const InternalServerError: Status := Status(500, "Internal Server Error")

  /** What an `AbortError` exposes beyond a plain `Error`. */
  datatype Abort = Abort(reason: string, status: Status)

  /** A Swift `Error`. `abort` is the result of the cast `error as? AbortError`. */
  datatype ErrorValue = ErrorValue(localizedDescription: string, abort: Option<Abort>)

  /** The remote end of the connection. */
  datatype RemotePeer = RemotePeer(hostname: Option<string>, description: string)

  /** The parts of an `HTTPRequest` the initialisers read. `headers` keeps the
      header lines in order, duplicates included. */
  datatype HttpRequest = HttpRequest(
    bodyData: Option<seq<bv8>>,
    remotePeer: RemotePeer,
    headers: seq<(string, string)>,
    methodString: string,
    urlString: string,
    debugDescription: string)

  /** A `CustomStringConvertible` value: only its `description` is observed. */
  datatype Describable = Describable(description: string)

  /** A `CustomDebugStringConvertible` value: only its `debugDescription` is observed. */
  datatype DebugDescribable = DebugDescribable(debugDescription: string)

  // ---------------------------------------------------------------------
  // The wire records
  // ---------------------------------------------------------------------

  datatype Notifier = Notifier(name: string, url: string, version: string)

  datatype App = App(releaseStage: string)

  datatype MetaData = MetaData(meta: map<string, string>)

  datatype User = User(id: string)

  datatype Breadcrumb = Breadcrumb(metaData: MetaData, name: string, timestamp: string, breadcrumbType: string)

  /** One frame. Its source snippet is always empty and it always belongs to
      the project: those two fields are constants of the record. */
  datatype Stacktrace = Stacktrace(file: string, methodName: string, lineNumber: int, columnNumber: int) {
    const code: seq<string> := []
    const inProject: bool := true
  }

  datatype Exception = Exception(
    errorClass: string,
    message: string,
    stacktrace: seq<Stacktrace>,
    errorType: string)

  datatype Request = Request(
    body: Option<string>,
    clientIp: Option<string>,
    headers: map<string, string>,
    httpMethod: string,
    referer: string,
    url: string)

  /** One reported incident. Every event is reported as unhandled. */
  datatype Event = Event(
    app: App,
    breadcrumbs: seq<Breadcrumb>,
    exceptions: seq<Exception>,
    metaData: MetaData,
    payloadVersion: string,
    request: Request,
    severity: string,
    user: Option<User>)
  {
    const unhandled: bool := true
  }

  datatype Payload = Payload(apiKey: string, events: seq<Event>, notifier: Notifier)

  // ---------------------------------------------------------------------
  // Exception
  // ---------------------------------------------------------------------

  /** Message used when the error carries no reason of its own. */
  const FallbackMessage: string := "Something went wrong"

  /** `BugsnagException.init(error:stacktrace:)`. */
  function MakeException(error: ErrorValue, stacktrace: Stacktrace): (e: Exception)
    ensures e.errorClass == error.localizedDescription
    ensures error.abort.Some? ==> e.message == error.abort.value.reason
    ensures error.abort.None? ==> e.message == FallbackMessage
    ensures error.abort.Some? ==> e.errorType == error.abort.value.status.reasonPhrase
    ensures error.abort.None? ==> e.errorType == "Internal Server Error"
    ensures e.stacktrace == [stacktrace]
  {
    var abort := error.abort;
    Exception(
      error.localizedDescription,
      (match abort case Some(a) => Some(a.reason) case None => None).GetOr(FallbackMessage),
      [stacktrace],
      (match abort case Some(a) => Some(a.status) case None => None).GetOr(InternalServerError).reasonPhrase)
  }

  // ---------------------------------------------------------------------
  // Metadata
  // ---------------------------------------------------------------------

  const LocalizedDescriptionKey: string := "Error localized description"
  const RequestDescriptionKey: string := "Request debug description"

  /** Swift's `Dictionary.merging(_:uniquingKeysWith:)`: every key of either
      map, with `combine` deciding the value of a key both maps hold. */
  function Merging<V>(m: map<string, V>, other: map<string, V>, combine: (V, V) -> V): map<string, V>
  {
    map k | k in m.Keys + other.Keys ::
      if k in m && k in other then combine(m[k], other[k])
      else if k in other then other[k]
      else m[k]
  }

  /** The metadata initialiser: the two synthetic descriptions, merged with the
      caller's annotations (each turned into its debug description), the
      caller's value winning on a shared key. */
  function MakeMetadata(error: ErrorValue, httpRequest: HttpRequest, metadata: map<string, DebugDescribable>): (m: MetaData)
    ensures m.meta.Keys == {LocalizedDescriptionKey, RequestDescriptionKey} + metadata.Keys
    ensures forall k :: k in metadata ==> m.meta[k] == metadata[k].debugDescription
    ensures LocalizedDescriptionKey !in metadata ==> m.meta[LocalizedDescriptionKey] == error.localizedDescription
    ensures RequestDescriptionKey !in metadata ==> m.meta[RequestDescriptionKey] == httpRequest.debugDescription
  {
    var synthetic := map[LocalizedDescriptionKey := error.localizedDescription,
                         RequestDescriptionKey := httpRequest.debugDescription];
    var described := map k | k in metadata :: metadata[k].debugDescription;
    MetaData(Merging(synthetic, described, (a: string, b: string) => b))
  }

  // ---------------------------------------------------------------------
  // Request snapshot
  // ---------------------------------------------------------------------

  /** Every header name that occurs in `headers`. */
  function HeaderNames(headers: seq<(string, string)>): set<string>
  {
    set i | 0 <= i < |headers| :: headers[i].0
  }

  /** Header line `i` is the last line carrying its name. */
  ghost predicate LastOfName(headers: seq<(string, string)>, i: int)
    requires 0 <= i < |headers|
  {
    forall j :: i < j < |headers| ==> headers[j].0 != headers[i].0
  }

  /** `Dictionary(headers) { first, second in second }`: the header lines are
      folded left to right into a map, a later line overwriting an earlier
      one of the same name. */
  function CollapseHeaders(headers: seq<(string, string)>): (m: map<string, string>)
    ensures m.Keys == HeaderNames(headers)
    ensures forall i :: 0 <= i < |headers| && LastOfName(headers, i) ==> m[headers[i].0] == headers[i].1
    decreases |headers|
  {
    if headers == [] then map[]
    else
      var n := |headers| - 1;
      var prefix := headers[..n];
      var m := CollapseHeaders(prefix);
      assert forall i :: 0 <= i < n ==> prefix[i] == headers[i];
      assert HeaderNames(headers) == HeaderNames(prefix) + {headers[n].0};
      m[headers[n].0 := headers[n].1]
  }

  /** An independent account of the same map: the value of a name is found by
      scanning the header lines from the last one backwards. */
  function LastValueOf(headers: seq<(string, string)>, name: string): Option<string>
    decreases |headers|
  {
    if headers == [] then None
    else if headers[|headers| - 1].0 == name then Some(headers[|headers| - 1].1)
    else LastValueOf(headers[..|headers| - 1], name)
  }

  /** The collapsed map answers every lookup as the backwards scan does. */
  lemma {:induction false} CollapseHeadersIsLastValue(headers: seq<(string, string)>, name: string)
    ensures name in CollapseHeaders(headers) <==> LastValueOf(headers, name).Some?
    ensures name in CollapseHeaders(headers) ==> CollapseHeaders(headers)[name] == LastValueOf(headers, name).value
    decreases |headers|
  {
    if headers != [] {
      CollapseHeadersIsLastValue(headers[..|headers| - 1], name);
    }
  }

  /** Two lines `X-Trace: a` then `X-Trace: b` leave `b`. */
  lemma DuplicateHeaderLastWins(a: string, b: string)
    ensures CollapseHeaders([("X-Trace", a), ("X-Trace", b)]) == map["X-Trace" := b]
  {
    var hs := [("X-Trace", a), ("X-Trace", b)];
    assert LastOfName(hs, 1);
    assert hs[0].0 == hs[1].0 == "X-Trace";
    assert HeaderNames(hs) == {"X-Trace"};
  }

  /** Swift's `Optional.flatMap`. */
  function FlatMap<T, U>(o: Option<T>, f: T -> Option<U>): Option<U>
  {
    match o
    case Some(v) => f(v)
    case None => None
  }

  /** `BugsnagRequest.init(httpRequest:)`: a snapshot of the request. The body
      is present only when there is body data and it decodes as UTF-8. */
  function MakeRequest(httpRequest: HttpRequest, utf8Decode: seq<bv8> -> Option<string>): (r: Request)
    ensures r.body.Some? <==> httpRequest.bodyData.Some? && utf8Decode(httpRequest.bodyData.value).Some?
    ensures r.body.Some? ==> r.body == utf8Decode(httpRequest.bodyData.value)
    ensures r.clientIp == httpRequest.remotePeer.hostname
    ensures r.headers.Keys == HeaderNames(httpRequest.headers)
    ensures forall i :: 0 <= i < |httpRequest.headers| && LastOfName(httpRequest.headers, i) ==>
      r.headers[httpRequest.headers[i].0] == httpRequest.headers[i].1
    ensures r.httpMethod == httpRequest.methodString
    ensures r.referer == httpRequest.remotePeer.description
    ensures r.url == httpRequest.urlString
  {
    Request(
      FlatMap(httpRequest.bodyData, utf8Decode),
      httpRequest.remotePeer.hostname,
      CollapseHeaders(httpRequest.headers),
      httpRequest.methodString,
      httpRequest.remotePeer.description,
      httpRequest.urlString)
  }

  // ---------------------------------------------------------------------
  // Event
  // ---------------------------------------------------------------------

  /** `userId.map { BugsnagUser(id: $0.description) }`. */
  function MakeUser(userId: Option<Describable>): (u: Option<User>)
    ensures u.Some? <==> userId.Some?
    ensures u.Some? ==> u.value.id == userId.value.description
  {
    match userId
    case Some(id) => Some(User(id.description))
    case None => None
  }

  /** `BugsnagEvent.init`. */
  function MakeEvent(
    app: App,
    breadcrumbs: seq<Breadcrumb>,
    error: ErrorValue,
    httpRequest: HttpRequest,
    metadata: map<string, DebugDescribable>,
    payloadVersion: string,
    severity: Severity,
    stacktrace: Stacktrace,
    userId: Option<Describable>,
    utf8Decode: seq<bv8> -> Option<string>): (e: Event)
    ensures e.unhandled
    ensures |e.exceptions| == 1 && e.exceptions[0].stacktrace == [stacktrace]
    ensures e.exceptions[0].errorClass == error.localizedDescription
    ensures e.exceptions[0].message == if error.abort.Some? then error.abort.value.reason else FallbackMessage
    ensures e.metaData.meta.Keys == {LocalizedDescriptionKey, RequestDescriptionKey} + metadata.Keys
    ensures forall k :: k in metadata ==> e.metaData.meta[k] == metadata[k].debugDescription
    ensures SeverityFromRaw(e.severity) == Some(severity)
    ensures e.user.Some? <==> userId.Some?
    ensures e.user.Some? ==> e.user.value.id == userId.value.description
    ensures e.request.headers.Keys == HeaderNames(httpRequest.headers)
    ensures e.app == app && e.breadcrumbs == breadcrumbs && e.payloadVersion == payloadVersion
    ensures e.exceptions == [MakeException(error, stacktrace)]
    ensures e.metaData == MakeMetadata(error, httpRequest, metadata)
    ensures e.request == MakeRequest(httpRequest, utf8Decode)
    ensures e.user == MakeUser(userId)
  {
    RawValueRoundTrip(severity);
    Event(
      app,
      breadcrumbs,
      [MakeException(error, stacktrace)],
      MakeMetadata(error, httpRequest, metadata),
      payloadVersion,
      MakeRequest(httpRequest, utf8Decode),
      severity.RawValue(),
      MakeUser(userId))
  }

  /** Every frame of every event's exceptions has an empty snippet and is
      marked as in-project. */
  lemma EventFramesInProject(e: Event)
    ensures forall x, f :: x in e.exceptions && f in x.stacktrace ==> f.code == [] && f.inProject
  {
  }
}
