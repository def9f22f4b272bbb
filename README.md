# Bugsnag reporter for Vapor: a Dafny model

This project models the core of a server-side error-reporting client for
Bugsnag. When a request handler hits an error, the reporter decides whether
to report it. An `AbortError` carries a reason and an HTTP status. A generic
error carries neither. The reporter hands a message to the payload
transformer and submits the payload the transformer builds to the connection
manager. The completion callback runs only when that submission succeeds.
The payload records (event, exception, metadata, request snapshot, user,
stack frame) are built by pure initialisers.

Modules:

- `Wrappers` (`wrappers.dfy`): `Option` (Swift's `T?`, with `??` as `GetOr`) and `Result` (a call that may throw, with `try?` as `ToOption`).
- `Severities` (`severity.dfy`): the three severities and their wire strings.
- `Schema` (`schema.dfy`): the wire records of `Sources/Bugsnag/Bugsnag.swift` and their initialisers, as datatypes and functions.
- `Reporter` (`reporter.dfy`): the routing decision as pure functions (`ShouldNotifyForReleaseStage`, `Forward`). The class `Bugsnag` performs that decision. It records each transformer call in the ghost log `Transformed`. The classes `ConnectionManager` and `Callback` record submissions and completion calls in ghost state.

The error classification `error as? AbortError` is the field `ErrorValue.abort`.
Values computed by Foundation, Vapor and NIO enter as data fields of the input
datatypes. These are `localizedDescription`, `debugDescription`, the status's
`reasonPhrase`, the remote peer's host name and description, the URL string
and the method string. UTF-8 decoding of the body is a function parameter of
`MakeRequest`. The transformer is a function value that returns a payload or a
thrown error. The network's answer to a submission is left nondeterministic.

The model follows the code's release-stage guard. That guard applies only to
`AbortError` reports (`Sources/Bugsnag/Reporter.swift:68-88`). A generic error
is forwarded on every stage. The lemma
`GenericErrorIgnoresReleaseStage` states the code's behaviour.

## Model

| member | source | states |
|---|---|---|
| `Severities.Severity.RawValue` | Sources/Bugsnag/Reporter.swift:24-26 | the wire string of a severity is one of "error", "warning", "info" |
| `Severities.SeverityFromRaw` | Sources/Bugsnag/Reporter.swift:24-26 | decoding a raw string yields a severity whose raw value is that string, and fails exactly for strings other than the three names |
| `Severities.RawValueRoundTrip` | Sources/Bugsnag/Reporter.swift:24-26 | every severity survives encoding to its raw string and decoding back |
| `Severities.RawValueInjective` | Sources/Bugsnag/Reporter.swift:24-26 | distinct severities have distinct wire strings |
| `Reporter.ShouldNotifyForReleaseStage` | Sources/Bugsnag/Reporter.swift:141-148 | an unset stage list notifies on every stage; a set list notifies exactly when the current stage occurs in it |
| `Reporter.Forward` | Sources/Bugsnag/Reporter.swift:68-102 | a generic error is always forwarded with "Internal Server Error"; an abort error is forwarded, with its reason, if and only if the release stage notifies; severity, user fields, location and version pass through unchanged |
| `Reporter.UserOverloadCall` | Sources/Bugsnag/Reporter.swift:29-31 | the overload with user fields uses severity `.error` and passes every other argument through |
| `Reporter.LocationOverloadCall` | Sources/Bugsnag/Reporter.swift:51-53 | the location-only overload uses severity `.error` and no user id, name or email |
| `Reporter.GenericErrorIgnoresReleaseStage` | Sources/Bugsnag/Reporter.swift:68-84 | for a generic error, the forwarded request does not depend on the stage or the stage list |
| `Reporter.DefaultStagesSuppressAbortErrors` | Sources/Bugsnag/Reporter.swift:39-49 | with the constructor's default list `[]`, no abort error is forwarded on any stage |
| `Reporter.UnsetStagesForwardEverything` | Sources/Bugsnag/Reporter.swift:141-145 | with no stage list, every report of either kind is forwarded |
| `Reporter.AbortForwardedIffStageListed` | Sources/Bugsnag/Reporter.swift:86-102 | with a stage list, an abort error is forwarded exactly when the current stage is listed |
| `Reporter.Callback.Invoke` | Sources/Bugsnag/Reporter.swift:135 | running the completion counts one invocation |
| `Reporter.ConnectionManager.SubmitPayload` | Sources/Bugsnag/Reporter.swift:134 | a submission appends exactly one (payload, outcome) entry to the submission log |
| `Reporter.Bugsnag.constructor` | Sources/Bugsnag/Reporter.swift:39-49 | the reporter keeps the given stage, stage list, connection manager and transformer, and the stage list defaults to `[]` |
| `Reporter.Bugsnag.Report` | Sources/Bugsnag/Reporter.swift:55-103 | the transformer is called once with what `Forward` decides, or not at all. At most one payload is submitted, and only when the transformer did not throw. The completion runs at most once, and only when that submission succeeded |
| `Reporter.Bugsnag.ReportWithUser` | Sources/Bugsnag/Reporter.swift:29-31 | behaves as the full report with severity `.error` and no completion |
| `Reporter.Bugsnag.ReportAtLocation` | Sources/Bugsnag/Reporter.swift:51-53 | behaves as the full report with severity `.error`, no user fields and no completion |
| `Reporter.Bugsnag.ReportMessage` | Sources/Bugsnag/Reporter.swift:107-139 | the transformer is called exactly once. When it throws, nothing is submitted and the completion is not called. Otherwise its payload is submitted once, and the completion runs once only when the outcome is success |
| `Schema.MakeException` | Sources/Bugsnag/Bugsnag.swift:58-70 | the message is the abort reason, or "Something went wrong" for a generic error; the type is the abort status's reason phrase, or "Internal Server Error"; the stack trace is the single given frame; the class is the error's localized description |
| `Schema.MakeMetadata` | Sources/Bugsnag/Bugsnag.swift:45-50 | the keys are the two synthetic keys plus the caller's keys; every caller key keeps its caller's debug description, even when it collides with a synthetic key; a synthetic key the caller does not supply keeps its synthetic value |
| `Schema.CollapseHeaders` | Sources/Bugsnag/Bugsnag.swift:91 | the header map's keys are exactly the header names, and each name maps to the value of its last line |
| `Schema.CollapseHeadersIsLastValue` | Sources/Bugsnag/Bugsnag.swift:91 | the collapsed map agrees on every name with a scan from the last header line backwards |
| `Schema.DuplicateHeaderLastWins` | Sources/Bugsnag/Bugsnag.swift:91 | two `X-Trace` lines, `a` then `b`, collapse to `X-Trace: b` |
| `Schema.MakeRequest` | Sources/Bugsnag/Bugsnag.swift:88-95 | the body is present exactly when there is body data that decodes as UTF-8; client IP, referer, method and URL come from the request; headers collapse with the last line winning |
| `Schema.MakeUser` | Sources/Bugsnag/Bugsnag.swift:54 | a user is present exactly when a user id is given, and its id is the id's description |
| `Schema.MakeEvent` | Sources/Bugsnag/Bugsnag.swift:31-55 | the event is unhandled and holds exactly one exception, the one `MakeException` builds from the given error and frame (message, type, class and frame fallbacks included). Its metadata is the merge `MakeMetadata` gives: the merged key set, caller values kept, synthetic values where the caller supplies none. Its request is the snapshot `MakeRequest` gives. Its severity string decodes back to the given severity. The user is present exactly when an id is given, with that id's description |
| `Reporter.DefaultReporterDropsAbortErrors` | Sources/Bugsnag/Reporter.swift:39-49 | end to end on a reporter built with the default stage list `[]`: an abort error leaves the transformer log empty, and a following generic error is the only request the transformer receives, with "Internal Server Error" |
| `Schema.EventFramesInProject` | Sources/Bugsnag/Bugsnag.swift:122-130 | every frame of every exception has an empty code snippet and is in-project |

## Left out

- The asynchronous future returned by `submitPayload` is not modelled (`Sources/Bugsnag/Reporter.swift:134`). Submission is one step with a success or failure outcome, so the model does not capture that the completion runs after `report` returns.
- A synchronous throw from `submitPayload` and a failed future are one outcome, `Err`. In both cases the completion is not called.
- The network's answer is nondeterministic. Nothing in the model fixes whether a submission succeeds.
- The payload transformer's internals are not part of this model. It is an arbitrary function that may throw. Payload, notifier and app construction, and stack-frame sentinels, happen inside it.
- JSON encoding (`Encodable`) is not modelled. The records are Dafny values with the same fields.
- Foundation, Vapor and NIO behaviour enters as data, not as definitions: `localizedDescription`, `debugDescription`, `reasonPhrase`, `remotePeer`, `urlString`, `method.string` and UTF-8 decoding.
- `BugsnagThread`, `BugsnagSeverityReason`, `BugsnagSession` and the `BugsnagReportableUser` protocol are not modelled: they hold no logic. `BugsnagBreadcrumb` is a plain record because events hold a list of them.
- Swift field names that are Dafny keywords are renamed: `method` becomes `methodName` or `methodString`, and `type` becomes `errorType` or `breadcrumbType`.
- The event's severity string comes from `severity.value` (`Sources/Bugsnag/Bugsnag.swift:53`). Neither `Sources/Bugsnag/Reporter.swift` nor `Sources/Bugsnag/Bugsnag.swift` defines `value`, so it is modelled as the enum's raw value.
- Swift compares strings by Unicode canonical equivalence, and Vapor's `Environment` is a struct with its own `==`. Here every string, including `Environment`, is a sequence of characters compared character by character. So the model does not capture canonically equivalent but differently encoded strings being equal. That affects stage membership (`Sources/Bugsnag/Reporter.swift:147`), metadata key collisions (`Sources/Bugsnag/Bugsnag.swift:45-49`), header name collisions (`Sources/Bugsnag/Bugsnag.swift:91`) and decoding a severity's raw string.
