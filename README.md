# Voice-skill request handler — Dafny model

This project models the request handler of a small voice-assistant skill
(`index.js`). The handler receives an event of type `LaunchRequest`,
`IntentRequest` or `SessionEndedRequest` and answers through a callback. For an
intent that is not Help, Stop or Cancel, it looks up the `Service` slot's value
in a fixed three-row service table and speaks the matching description.

Modules:

- `Wrappers` (`wrappers.dfy`): `Option`. `None` stands for a JavaScript `undefined` property.
- `Catalog` (`catalog.dfy`): the `data` table, `FirstMatchIndex`, a reference definition of the first matching row, `Filter`, which is `data.filter(...)`, and `Lookup`/`GetIntentResponse`, which is `getIntentResponse`. It also holds the lemmas for first match, fallback, distinct slot values and order independence.
- `Responses` (`responses.dfy`): the speechlet and envelope records, and the three fixed responses (welcome, goodbye, help).
  - The texts of the `messages` module are an opaque `Messages` parameter.
  - `buildSpeechletResponse` and `buildResponse` from the `helpers` module are plain record constructors.
- `Dispatch` (`dispatch.dfy`): `getDataViaSlotVal`, which chooses the response from the intent name.
- `Handler` (`handler.dfy`): `onLaunch`, `onIntent`, `onSessionEnded` and the exported `handler`.
  - The callback is modelled as the list of its invocations (`Handle`).
  - `HandlerOutcome` gives what the platform observes: `Reply(attrs, resp)`, `Failure(error)`, `Completed` (a bare `callback()`) or `NoCallback`.

Errors are values rather than exceptions:

- An inner handler returns `Respond(attrs, speechlet)` (what it passes to its callback) or `Throw(error)`.
- The promise chain's `.catch` turns a thrown error into one `callback(err)`.
- The logger's `init()` is an input: `initFails`.

Two defects of the source are modelled as written:

- An intent other than Help, Stop or Cancel with no `Service` slot throws a TypeError. With no `slots` object the throw comes from reading `intent.slots['Service']` (index.js:74); with a `slots` object but no `Service` entry it comes from reading `slot.value` (index.js:75). Either way it ends as `Failure`.
- `onSessionEnded` uses an identifier `callback` that is not in scope. Every `SessionEndedRequest` therefore ends as `Failure(ReferenceError("callback"))`, and the `callback()` that follows is never reached.

The bare `callback()` at index.js:155 shows that session end was meant to complete with no payload. The model follows the code, and `NeverCompleted` proves that this call is never delivered.

## Model

| member | source | states |
|---|---|---|
| Catalog.FirstMatchIndex | index.js:60-61 | reference definition of the first match: the index returned matches the term and no earlier row does, or it is the table length and no row matches |
| Catalog.Filter | index.js:60 | the filtered list holds exactly the table rows whose `slotVal` strictly equals the term, is no longer than the table, is empty exactly when no row matches, and otherwise starts with the first matching row |
| Catalog.Lookup | index.js:59-62 | the answer is the description of the first matching row, and the fallback text when no row matches |
| Catalog.LookupFirstMatch | index.js:59-62 | `getIntentResponse` returns the description of the first row whose `slotVal` equals the term (case-sensitive exact equality) |
| Catalog.LookupUniqueMatch | index.js:9-25 | when slot values are distinct, any matching row is the one whose description is returned |
| Catalog.LookupOrderIndependent | index.js:9-25 | a table with distinct slot values and any reordering of its rows answer every term alike, so row order does not matter |
| Catalog.FilterAppend | index.js:60 | filtering keeps table order: the filter of two joined tables is the filter of the first followed by the filter of the second |
| Catalog.LookupExtend | index.js:59-62 | rows appended after the existing ones never change the answer for a term that an existing row (at index k) already matches |
| Catalog.FilterAtMostOne | index.js:9-25 | when slot values are distinct, the filter finds at most one row, so `resp[0]` is the only candidate |
| Catalog.DataSlotValsDistinct | index.js:9-25 | the slot values 'lambda', 'ec2' and 'beanstalk' are pairwise distinct |
| Catalog.DataEntriesResolve | index.js:9-25 | each row's slot value resolves to that row's description; 'ec2' gives 'EC2 description', and likewise for 'lambda' and 'beanstalk' |
| Catalog.GetIntentResponseNotFoundIff | index.js:61 | 'No service found in our record' is returned if and only if no row matches the term |
| Dispatch.HelpIntentReply | index.js:50-57 | `AMAZON.HelpIntent`, whatever its slots, gives title 'Session help', the help text, no reprompt, session ended, no attributes (chosen at lines 68-69 before any slot is read) |
| Dispatch.ClosingIntentReply | index.js:41-48 | Stop or Cancel, whatever its slots, gives title 'Session Ended', the goodbye text, no reprompt, session ended, no attributes (chosen at lines 70-71) |
| Dispatch.ServiceIntentFailsIff | index.js:73-75 | any other intent throws exactly when the `Service` slot (or the `slots` object) is missing |
| Dispatch.ServiceIntentReply | index.js:73-83 | any other intent with a `Service` slot gives the intent name as card title, the lookup of the slot value as speech, reprompt '', session kept open, no attributes |
| Dispatch.DispatchWellFormed | index.js:27-83 | every response produced by dispatch has no attributes and offers a reprompt exactly when it keeps the session open |
| Handler.RouteThrowsBeforeCalling | index.js:141-156 | the routing body makes at most one call, and none when it throws |
| Handler.AtMostOneCallback | index.js:130-166 | each event produces at most one callback |
| Handler.FailureIff | index.js:133-161 | the outcome is `Failure` if and only if init fails, the request ends the session, or an intent request lacks its intent, or lacks its `Service` slot when it is not Help, Stop or Cancel |
| Handler.InitFailureFails | index.js:133-135 | a rejected logger initialisation ends in `callback(err)` whatever the event |
| Handler.LaunchReplies | index.js:141-146 | a LaunchRequest gives the title message, the greeting, the reprompt message, session kept open, no attributes |
| Handler.IntentReplies | index.js:147-152 | an IntentRequest whose dispatch responds (Help, Stop, Cancel, or a service intent with its slot) is observed as exactly that reply |
| Handler.SessionEndedFails | index.js:120-123 | a SessionEndedRequest fails with the ReferenceError on `callback` |
| Handler.UnrecognisedTypeNoCallback | index.js:141-156 | no callback at all if and only if init succeeds and the request type is none of the three handled ones |
| Handler.NeverCompleted | index.js:153-155 | the bare `callback()` at line 155 is never what the platform receives |
| Handler.RepliesWellFormed | index.js:141-152 | every reply carries no attributes and offers a reprompt exactly when it keeps the session open |
| Handler.ServiceLookupScenarios | index.js:73-83 | 'GetServiceInfo' with Service 'ec2' speaks 'EC2 description' under title 'GetServiceInfo'; 'unknown-service' speaks the fallback text |

## Left out

- Logging (`logInfo`, `logError`) has no effect on results and is not modelled. Only the outcome of `init()` is kept, as the `initFails` input.
- `onSessionStarted` (index.js:91-93) only logs.
- `context.callbackWaitsForEmptyEventLoop` (index.js:132) is a flag for the hosting runtime.
- A synchronous throw caught by the outer `try` (index.js:162-165) ends the same way as a rejected `init()`, so `initFails` stands for both.
- The contents of the `messages` texts and the formatted reply shape built by the `helpers` module are not part of this model. Texts are a parameter; the builders are record constructors.
- `event.session`, `event.session.application` and `event.request` are assumed present. Without the first two, index.js:136 would throw; without `event.request`, index.js:138 or index.js:141 would throw. In each case the event would end as `Failure`.
- The goodbye text is read as `messages.goodByeMessgae`, a misspelt property (index.js:43). The model keeps that name and assumes it holds a string. If the `messages` module exports only a correctly spelt name, every goodbye reply speaks `undefined`, which a `string` field cannot show.
- A callback that itself throws is not modelled. Such a throw would reach the `.catch` and cause a second `callback(err)`; the callbacks here are the platform's and are taken not to throw.
- Determinism and idempotence of the lookup need no lemma, because Dafny functions are deterministic by construction.
