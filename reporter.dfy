/** The reporter: it classifies an error, applies the release-stage guard
    (to abort errors only), hands the message to the payload transformer and
    submits what the transformer builds.

    The decision of what reaches the transformer is the pure function
    `Forward`; the class `Bugsnag` performs it, recording each transformer
    call in a ghost log, each submission in the connection manager's ghost
    log and each completion call in the callback's ghost counter. */
module Reporter {
  import opened Wrappers
  import opened Severities
  import opened Schema

  /** A deployment stage, such as "production". */
  type Environment = string

  /** Message sent for an error that is not an `AbortError`. */
  const GenericMessage: string := "Internal Server Error"

  /** The arguments of the public `report` entry point. */
  datatype ReportCall = ReportCall(
    error: ErrorValue,
    request: HttpRequest,
    severity: Severity,
    userId: Option<string>,
    userName: Option<string>,
    userEmail: Option<string>,
    lineNumber: Option<int>,
    funcName: Option<string>,
    fileName: Option<string>,
    version: Option<string>)

  /** The arguments of `payloadTransformer.payloadFor`. */
  datatype TransformRequest = TransformRequest(
    message: string,
    request: HttpRequest,
    severity: Severity,
    lineNumber: Option<int>,
    funcName: Option<string>,
    fileName: Option<string>,
    userId: Option<string>,
    userName: Option<string>,
    userEmail: Option<string>,
    version: Option<string>)

  /** The payload transformer: builds a payload, or throws. */
  type Transformer = TransformRequest -> Result<Payload, string>

  /** What became of a submission: the future resolved, or the submission
      failed (it threw, or its future failed). */
  datatype SubmitOutcome = Ok | Err

  // ---------------------------------------------------------------------
  // The decision, as pure functions
  // ---------------------------------------------------------------------

  /** `shouldNotifyForReleaseStage()`: an unset list lets every stage notify;
      a set list lets exactly its members notify. */
  function ShouldNotifyForReleaseStage(environment: Environment, notifyReleaseStages: Option<seq<Environment>>): (notify: bool)
    ensures notifyReleaseStages.None? ==> notify
    ensures notifyReleaseStages.Some? ==>
      (notify <==> exists i :: 0 <= i < |notifyReleaseStages.value| && notifyReleaseStages.value[i] == environment)
  {
    match notifyReleaseStages
    case None => true
    case Some(stages) => environment in stages
  }

  /** The private `report(message:...)` call the public `report` makes with a
      given message: every other argument passes through. */
  function WithMessage(message: string, call: ReportCall): TransformRequest
  {
    TransformRequest(message, call.request, call.severity, call.lineNumber, call.funcName, call.fileName,
                     call.userId, call.userName, call.userEmail, call.version)
  }

  /** What the public `report` hands to the transformer, if anything. A
      generic error always goes through with the fixed message; an abort error
      goes through with its reason, and only when the release stage notifies. */
  function Forward(environment: Environment, notifyReleaseStages: Option<seq<Environment>>, call: ReportCall): (t: Option<TransformRequest>)
    ensures call.error.abort.None? ==> t.Some? && t.value.message == GenericMessage
    ensures call.error.abort.Some? ==>
      (t.Some? <==> ShouldNotifyForReleaseStage(environment, notifyReleaseStages))
    ensures call.error.abort.Some? && t.Some? ==> t.value.message == call.error.abort.value.reason
    ensures t.Some? ==>
      && t.value.request == call.request
      && t.value.severity == call.severity
      && t.value.userId == call.userId && t.value.userName == call.userName && t.value.userEmail == call.userEmail
      && t.value.lineNumber == call.lineNumber && t.value.funcName == call.funcName && t.value.fileName == call.fileName
      && t.value.version == call.version
  {
    match call.error.abort
    case None => Some(WithMessage(GenericMessage, call))
    case Some(abort) =>
      if ShouldNotifyForReleaseStage(environment, notifyReleaseStages) then Some(WithMessage(abort.reason, call))
      else None
  }

  /** The overload without severity: severity `.error`, no completion. */
  function UserOverloadCall(
    error: ErrorValue, request: HttpRequest, userId: Option<string>, userName: Option<string>, userEmail: Option<string>,
    lineNumber: Option<int>, funcName: Option<string>, fileName: Option<string>, version: Option<string>): (c: ReportCall)
    ensures c.severity == Error
    ensures c.error == error && c.request == request
    ensures c.userId == userId && c.userName == userName && c.userEmail == userEmail
    ensures c.lineNumber == lineNumber && c.funcName == funcName && c.fileName == fileName && c.version == version
  {
    ReportCall(error, request, Error, userId, userName, userEmail, lineNumber, funcName, fileName, version)
  }

  /** The location-only overload: severity `.error`, no user, no completion. */
  function LocationOverloadCall(
    error: ErrorValue, request: HttpRequest,
    lineNumber: Option<int>, funcName: Option<string>, fileName: Option<string>, version: Option<string>): (c: ReportCall)
    ensures c.severity == Error
    ensures c.userId.None? && c.userName.None? && c.userEmail.None?
    ensures c == UserOverloadCall(error, request, None, None, None, lineNumber, funcName, fileName, version)
  {
    ReportCall(error, request, Error, None, None, None, lineNumber, funcName, fileName, version)
  }

  /** Whether a generic error is forwarded does not depend on the stage or
      the stage list: no release-stage check applies to it. */
  lemma GenericErrorIgnoresReleaseStage(
    env1: Environment, stages1: Option<seq<Environment>>,
    env2: Environment, stages2: Option<seq<Environment>>, call: ReportCall)
    requires call.error.abort.None?
    ensures Forward(env1, stages1, call) == Forward(env2, stages2, call) == Some(WithMessage(GenericMessage, call))
  {
  }

  /** With the constructor's default stage list, `[]`, no abort error is ever
      forwarded, whatever the current stage. */
  lemma DefaultStagesSuppressAbortErrors(environment: Environment, call: ReportCall)
    requires call.error.abort.Some?
    ensures Forward(environment, Some([]), call).None?
  {
  }

  /** With no stage list every report, of either kind, is forwarded. */
  lemma UnsetStagesForwardEverything(environment: Environment, call: ReportCall)
    ensures Forward(environment, None, call).Some?
  {
  }

  /** A stage list and its stage: an abort error is forwarded exactly when the
      stage is on the list. */
  lemma AbortForwardedIffStageListed(environment: Environment, stages: seq<Environment>, call: ReportCall)
    requires call.error.abort.Some?
    ensures Forward(environment, Some(stages), call).Some? <==> environment in stages
  {
    if environment in stages {
      var i :| 0 <= i < |stages| && stages[i] == environment;
    }
  }

  // ---------------------------------------------------------------------
  // The collaborators, as objects with ghost logs
  // ---------------------------------------------------------------------

  /** An optional completion closure; `Invocations` counts its calls. */
  class Callback {
    ghost var Invocations: nat

    constructor ()
      ensures Invocations == 0
    {
      Invocations := 0;
    }

    method Invoke()
      modifies this
      ensures Invocations == old(Invocations) + 1
    {
      Invocations := Invocations + 1;
    }
  }

  /** The connection manager: it accepts payloads for delivery. The network's
      answer is not determined by anything the model sees. */
  class ConnectionManager {
    ghost var Submissions: seq<(Payload, SubmitOutcome)>

    constructor ()
      ensures Submissions == []
    {
      Submissions := [];
    }

    method SubmitPayload(payload: Payload) returns (outcome: SubmitOutcome)
      modifies this
      ensures Submissions == old(Submissions) + [(payload, outcome)]
    {
      outcome :| true;
      Submissions := Submissions + [(payload, outcome)];
    }
  }

  /** The set of objects a completion callback may touch. */
  function CallbackFrame(completion: Option<Callback>): set<object>
  {
    match completion
    case Some(c) => {c}
    case None => {}
  }

  // ---------------------------------------------------------------------
  // The reporter
  // ---------------------------------------------------------------------

  class Bugsnag {
    const environment: Environment
    const notifyReleaseStages: Option<seq<Environment>>
    const connectionManager: ConnectionManager
    const payloadTransformer: Transformer

    /** Every request handed to the transformer, in order. */
    ghost var Transformed: seq<TransformRequest>

    constructor (
      environment: Environment,
      notifyReleaseStages: Option<seq<Environment>> := Some([]),
      connectionManager: ConnectionManager,
      transformer: Transformer)
      ensures this.environment == environment && this.notifyReleaseStages == notifyReleaseStages
      ensures this.connectionManager == connectionManager && this.payloadTransformer == transformer
      ensures Transformed == []
    {
      this.environment := environment;
      this.notifyReleaseStages := notifyReleaseStages;
      this.connectionManager := connectionManager;
      this.payloadTransformer := transformer;
      Transformed := [];
    }

    /** The state a report leaves behind, given what it handed to the
        transformer (if anything). The transformer is called once per
        forwarded request; a payload is submitted only when it did not throw;
        the completion runs once, and only when that submission succeeded. */
    twostate predicate Reported(t: Option<TransformRequest>, completion: Option<Callback>)
      reads this, connectionManager, CallbackFrame(completion)
    {
      && Transformed == old(Transformed) + (if t.Some? then [t.value] else [])
      && (if t.Some? && payloadTransformer(t.value).Success? then
            && |connectionManager.Submissions| == |old(connectionManager.Submissions)| + 1
            && connectionManager.Submissions[..|old(connectionManager.Submissions)|] == old(connectionManager.Submissions)
            && var (payload, outcome) := connectionManager.Submissions[|old(connectionManager.Submissions)|];
               && payload == payloadTransformer(t.value).value
               && (completion.Some? ==>
                     completion.value.Invocations == old(completion.value.Invocations) + (if outcome.Ok? then 1 else 0))
          else
            && connectionManager.Submissions == old(connectionManager.Submissions)
            && (completion.Some? ==> completion.value.Invocations == old(completion.value.Invocations)))
    }

    /** The full `report` entry point. */
    method Report(
      error: ErrorValue, request: HttpRequest, severity: Severity := Error,
      userId: Option<string>, userName: Option<string>, userEmail: Option<string>,
      lineNumber: Option<int>, funcName: Option<string>, fileName: Option<string>, version: Option<string>,
      completion: Option<Callback>)
      modifies this, connectionManager, CallbackFrame(completion)
      ensures Reported(Forward(environment, notifyReleaseStages,
                               ReportCall(error, request, severity, userId, userName, userEmail,
                                          lineNumber, funcName, fileName, version)),
                       completion)
    {
      ghost var call := ReportCall(error, request, severity, userId, userName, userEmail,
                                   lineNumber, funcName, fileName, version);
      match error.abort {
        case None =>
          assert Forward(environment, notifyReleaseStages, call) == Some(WithMessage(GenericMessage, call));
          ReportMessage(GenericMessage, request, severity, lineNumber, funcName, fileName,
                        userId, userName, userEmail, version, completion);
        case Some(abort) =>
          if !ShouldNotifyForReleaseStage(environment, notifyReleaseStages) {
            assert Forward(environment, notifyReleaseStages, call).None?;
            return;
          }
          assert Forward(environment, notifyReleaseStages, call) == Some(WithMessage(abort.reason, call));
          ReportMessage(abort.reason, request, severity, lineNumber, funcName, fileName,
                        userId, userName, userEmail, version, completion);
      }
    }

    /** The overload taking user fields: severity `.error`, no completion. */
    method ReportWithUser(
      error: ErrorValue, request: HttpRequest,
      userId: Option<string>, userName: Option<string>, userEmail: Option<string>,
      lineNumber: Option<int>, funcName: Option<string>, fileName: Option<string>, version: Option<string>)
      modifies this, connectionManager
      ensures Reported(Forward(environment, notifyReleaseStages,
                               UserOverloadCall(error, request, userId, userName, userEmail,
                                                lineNumber, funcName, fileName, version)),
                       None)
    {
      Report(error, request, Error, userId, userName, userEmail, lineNumber, funcName, fileName, version, None);
    }

    /** The location-only overload: severity `.error`, no user, no completion. */
    method ReportAtLocation(
      error: ErrorValue, request: HttpRequest,
      lineNumber: Option<int>, funcName: Option<string>, fileName: Option<string>, version: Option<string>)
      modifies this, connectionManager
      ensures Reported(Forward(environment, notifyReleaseStages,
                               LocationOverloadCall(error, request, lineNumber, funcName, fileName, version)),
                       None)
    {
      Report(error, request, Error, None, None, None, lineNumber, funcName, fileName, version, None);
    }

    /** The private `report(message:...)`: transform, then submit, then run
        the completion on success. A transformer that throws drops the
        report. */
    method ReportMessage(
      message: string, request: HttpRequest, severity: Severity,
      lineNumber: Option<int>, funcName: Option<string>, fileName: Option<string>,
      userId: Option<string>, userName: Option<string>, userEmail: Option<string>, version: Option<string>,
      completion: Option<Callback>)
      modifies this, connectionManager, CallbackFrame(completion)
      ensures Reported(Some(TransformRequest(message, request, severity, lineNumber, funcName, fileName,
                                             userId, userName, userEmail, version)),
                       completion)
    {
      var t := TransformRequest(message, request, severity, lineNumber, funcName, fileName,
                                userId, userName, userEmail, version);
      Transformed := Transformed + [t];
      var payload := payloadTransformer(t).ToOption();
      if payload.Some? {
        var outcome := connectionManager.SubmitPayload(payload.value);
        if outcome.Ok? && completion.Some? {
          completion.value.Invoke();
        }
      }
    }
  }

  /** A reporter built with the default stage list, fed an abort error and
      then a generic error: the abort error is dropped before the transformer,
      and only the generic error reaches it, with the fixed message. */
  method DefaultReporterDropsAbortErrors(
    connectionManager: ConnectionManager, transformer: Transformer, generic: ErrorValue, aborted: ErrorValue,
    request: HttpRequest)
    returns (reporter: Bugsnag, ghost afterAbort: seq<TransformRequest>)
    requires generic.abort.None? && aborted.abort.Some?
    modifies connectionManager
    ensures reporter.notifyReleaseStages == Some([])
    ensures afterAbort == []
    ensures reporter.Transformed == [WithMessage(GenericMessage, LocationOverloadCall(generic, request, None, None, None, None))]
  {
    reporter := new Bugsnag("production", connectionManager := connectionManager, transformer := transformer);
    reporter.ReportAtLocation(aborted, request, None, None, None, None);
    afterAbort := reporter.Transformed;
    reporter.ReportAtLocation(generic, request, None, None, None, None);
  }
}
