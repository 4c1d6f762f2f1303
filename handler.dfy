/** Request routing: `onLaunch`, `onIntent`, `onSessionEnded` and the
    exported `handler` of index.js. The handler's continuation `callback` is
    modelled by the list of its invocations, in order; the promise chain and
    its `.catch` become a `Run` that records the invocations made and the
    error thrown, if any. */
module Handler {
  import opened Wrappers
  import opened Catalog
  import opened Responses
  import opened Dispatch

  /** The part of `event.session` the handler reads. */
  datatype Session = Session(isNew: bool, sessionId: string, applicationId: string)

  /** `event.request`; `intent` is present only on intent requests. */
  datatype Request = Request(requestType: string, requestId: string, intent: Option<Intent>)

  datatype Event = Event(session: Session, request: Request)

  const LaunchRequest: string := "LaunchRequest"
  const IntentRequest: string := "IntentRequest"
  const SessionEndedRequest: string := "SessionEndedRequest"

  /** One call of the handler's `callback`: `callback(null, envelope)`,
      `callback(err)` or `callback()`. */
  datatype Invocation = Succeed(envelope: Envelope) | Fail(error: Error) | Complete

  /** The invocations a piece of code made, then the error it threw (if any). */
  datatype Run = Run(calls: seq<Invocation>, thrown: Option<Error>)

  /** What the platform observes of one event. */
  datatype Outcome = Reply(attrs: Attributes, resp: Speechlet) | Failure(error: Error) | Completed | NoCallback

  /** `onLaunch`: logs, then the welcome response. */
  function OnLaunch(m: Messages, request: Request, session: Session): Step {
    GetWelcomeResponse(m)
  }

  /** `onIntent`: `intentRequest.intent.name` throws when there is no intent. */
  function OnIntent(m: Messages, request: Request, session: Session): Step {
    match request.intent
    case None => Throw(TypeError("name"))
    case Some(intent) => GetDataViaSlotVal(m, intent)
  }

  /** `onSessionEnded`: calls `handleSessionEndRequest(callback)`, but no
      `callback` is in scope there, so it always throws a ReferenceError. The
      result is the error thrown. */
  function OnSessionEnded(request: Request, session: Session): Option<Error> {
    Some(ReferenceError("callback"))
  }

  /** The continuation given to `onLaunch` and `onIntent`: wrap the pair with
      `buildResponse` and call `callback(null, …)`. */
  function Deliver(step: Step): Run {
    match step
    case Respond(attrs, speechlet) => Run([Succeed(BuildResponse(attrs, speechlet))], None)
    case Throw(e) => Run([], Some(e))
  }

  /** The body of the `.then` continuation: routing on `event.request.type`.
      Session start only logs and is left out. */
  function Route(m: Messages, event: Event): Run {
    var request := event.request;
    if request.requestType == LaunchRequest then
      Deliver(OnLaunch(m, request, event.session))
    else if request.requestType == IntentRequest then
      Deliver(OnIntent(m, request, event.session))
    else if request.requestType == SessionEndedRequest then
      match OnSessionEnded(request, event.session)
      case Some(e) => Run([], Some(e))
      case None => Run([Complete], None)
    else
      Run([], None)
  }

  /** `exports.handler(event, context, callback)`: the invocations of
      `callback`. A failing logger `init()` (or a synchronous throw caught by
      the outer `try`) and an error thrown while routing each end in one
      `callback(err)`. */
  function Handle(m: Messages, initFails: bool, event: Event): seq<Invocation> {
    if initFails then [Fail(InitFailed)]
    else
      var run := Route(m, event);
      match run.thrown
      case Some(e) => run.calls + [Fail(e)]
      case None => run.calls
  }

  /** What the platform sees: the first (and only) invocation, if any. */
  function Observe(calls: seq<Invocation>): Outcome {
    if calls == [] then NoCallback
    else match calls[0]
      case Succeed(env) => Reply(env.sessionAttributes, env.response)
      case Fail(e) => Failure(e)
      case Complete => Completed
  }

  function HandlerOutcome(m: Messages, initFails: bool, event: Event): Outcome {
    Observe(Handle(m, initFails, event))
  }

  /** Reference definition of the events that fail, written from the error
      paths of index.js (lines 74-75, 112, 122 and 158-161) rather than from
      the routing code. */
  predicate ShouldFail(initFails: bool, event: Event) {
    var request := event.request;
    initFails
    || request.requestType == SessionEndedRequest
    || (request.requestType == IntentRequest
        && (request.intent.None?
            || (!IsBuiltIn(request.intent.value.name) && !HasServiceSlot(request.intent.value))))
  }

  predicate IsRouted(requestType: string) {
    requestType == LaunchRequest || requestType == IntentRequest || requestType == SessionEndedRequest
  }

  /** Routing never throws after a callback has been made. */
  lemma RouteThrowsBeforeCalling(m: Messages, event: Event)
    ensures Route(m, event).thrown.Some? ==> Route(m, event).calls == []
    ensures |Route(m, event).calls| <= 1
  {
  }

  /** Each event produces at most one callback. */
  lemma AtMostOneCallback(m: Messages, initFails: bool, event: Event)
    ensures |Handle(m, initFails, event)| <= 1
  {
    RouteThrowsBeforeCalling(m, event);
  }

  /** An event fails exactly on the error paths of `ShouldFail`. */
  lemma FailureIff(m: Messages, initFails: bool, event: Event)
    ensures HandlerOutcome(m, initFails, event).Failure? <==> ShouldFail(initFails, event)
  {
    if !initFails && event.request.requestType == IntentRequest && event.request.intent.Some? {
      var intent := event.request.intent.value;
      if !IsBuiltIn(intent.name) {
        ServiceIntentFailsIff(m, intent);
      }
    }
  }

  /** A failing logger initialisation is reported whatever the event. */
  lemma InitFailureFails(m: Messages, event: Event)
    ensures HandlerOutcome(m, true, event) == Failure(InitFailed)
  {
  }

  /** A LaunchRequest yields the welcome response. */
  lemma LaunchReplies(m: Messages, event: Event)
    requires event.request.requestType == LaunchRequest
    ensures HandlerOutcome(m, false, event)
      == Reply(map[], Speechlet(m.titleMessage, m.greetingMessage, Some(m.repromptMessage), false))
  {
  }

  /** An IntentRequest whose dispatch responds is answered with exactly that
      response, wrapped by `buildResponse` and observed as the reply. */
  lemma IntentReplies(m: Messages, event: Event, i: Intent)
    requires event.request.requestType == IntentRequest && event.request.intent == Some(i)
    requires GetDataViaSlotVal(m, i).Respond?
    ensures HandlerOutcome(m, false, event) == Reply(GetDataViaSlotVal(m, i).attrs, GetDataViaSlotVal(m, i).speechlet)
  {
  }

  /** A SessionEndedRequest fails with the ReferenceError of line 122, so the
      `callback()` after it is never reached. */
  lemma SessionEndedFails(m: Messages, event: Event)
    requires event.request.requestType == SessionEndedRequest
    ensures HandlerOutcome(m, false, event) == Failure(ReferenceError("callback"))
  {
  }

  /** An unrecognised request type falls through every branch: no callback. */
  lemma UnrecognisedTypeNoCallback(m: Messages, initFails: bool, event: Event)
    ensures HandlerOutcome(m, initFails, event) == NoCallback <==> !initFails && !IsRouted(event.request.requestType)
  {
  }

  /** The empty `callback()` is never what the platform receives. */
  lemma NeverCompleted(m: Messages, initFails: bool, event: Event)
    ensures HandlerOutcome(m, initFails, event) != Completed
  {
  }

  /** Every reply carries no attributes and offers a reprompt exactly when it
      keeps the session open. */
  lemma RepliesWellFormed(m: Messages, initFails: bool, event: Event)
    ensures HandlerOutcome(m, initFails, event).Reply? ==>
      WellFormed(HandlerOutcome(m, initFails, event).attrs, HandlerOutcome(m, initFails, event).resp)
  {
    if event.request.intent.Some? {
      DispatchWellFormed(m, event.request.intent.value);
    }
  }

  /** The lookup scenarios: 'GetServiceInfo' with Service 'ec2' speaks the EC2
      description under the intent's name; an unknown service gets the
      fallback text. */
  lemma ServiceLookupScenarios(m: Messages, s: Session, service: string)
    requires service == "ec2" || service == "unknown-service"
    ensures HandlerOutcome(m, false, Event(s, Request(IntentRequest, "r",
              Some(Intent("GetServiceInfo", Some(map[ServiceSlot := Slot(Some(service))]))))))
      == Reply(map[], Speechlet("GetServiceInfo", if service == "ec2" then "EC2 description" else NotFound, Some(""), false))
  {
    var intent := Intent("GetServiceInfo", Some(map[ServiceSlot := Slot(Some(service))]));
    assert !IsBuiltIn(intent.name);
    ServiceIntentReply(m, intent);
    DataEntriesResolve();
    GetIntentResponseNotFoundIff(Some(service));
    if service != "ec2" {
      assert forall e :: e in Data ==> !Matches(e, Some(service));
    }
  }
}
