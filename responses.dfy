/** The Response Formatter and the three fixed responses of index.js
    (`getWelcomeResponse`, `handleSessionEndRequest`, `handleSessionHelpRequest`).
    The texts of the `messages` module and the formatting done by the
    `helpers` module are outside this model: the texts arrive as a `Messages`
    value whose contents are left unspecified, and the two builders are plain
    record constructors. */
module Responses {
  import opened Wrappers

  /** The texts exported by the `messages` module that the handler uses, under
      the property names the handler reads (`goodByeMessgae` is spelt so at
      index.js:43). */
  datatype Messages = Messages(
    titleMessage: string,
    greetingMessage: string,
    repromptMessage: string,
    goodByeMessgae: string,
    helpMessage: string)

  /** Session attributes echoed back to the platform. */
  type Attributes = map<string, string>

  /** The four logical fields given to `buildSpeechletResponse`; a reprompt of
      `null` is None. */
  datatype Speechlet = Speechlet(
    cardTitle: string,
    speechOutput: string,
    reprompt: Option<string>,
    shouldEndSession: bool)

  /** The envelope made by `buildResponse`. */
  datatype Envelope = Envelope(sessionAttributes: Attributes, response: Speechlet)

  /** What a handler passes to its continuation `callback(attrs, speechlet)`,
      or the error it throws before reaching that call. */
  datatype Step = Respond(attrs: Attributes, speechlet: Speechlet) | Throw(error: Error)

  /** The JavaScript errors the handler can raise. `TypeError(p)` is reading
      property `p` of `undefined`; `ReferenceError(n)` is using the undeclared
      identifier `n`; `InitFailed` is the logger's `init()` rejecting. */
  datatype Error = TypeError(property: string) | ReferenceError(identifier: string) | InitFailed

  function BuildSpeechletResponse(cardTitle: string, speechOutput: string,
                                  reprompt: Option<string>, shouldEndSession: bool): Speechlet
  {
    Speechlet(cardTitle, speechOutput, reprompt, shouldEndSession)
  }

  function BuildResponse(attrs: Attributes, speechlet: Speechlet): Envelope {
    Envelope(attrs, speechlet)
  }

  const SessionEndedTitle: string := "Session Ended"
  const SessionHelpTitle: string := "Session help"

  /** A response keeps the session open exactly when it offers a reprompt, and
      it carries no session attributes. Every response the skill produces has
      this shape. */
  predicate WellFormed(attrs: Attributes, s: Speechlet) {
    attrs == map[] && (s.shouldEndSession <==> s.reprompt.None?)
  }

  /** `getWelcomeResponse`: the greeting, with a reprompt, session kept open. */
  function GetWelcomeResponse(m: Messages): Step {
    Respond(map[], BuildSpeechletResponse(m.titleMessage, m.greetingMessage, Some(m.repromptMessage), false))
  }

  /** `handleSessionEndRequest`: the goodbye, no reprompt, session ended. */
  function HandleSessionEndRequest(m: Messages): Step {
    Respond(map[], BuildSpeechletResponse(SessionEndedTitle, m.goodByeMessgae, None, true))
  }

  /** `handleSessionHelpRequest`: the help text, no reprompt, session ended. */
  function HandleSessionHelpRequest(m: Messages): Step {
    Respond(map[], BuildSpeechletResponse(SessionHelpTitle, m.helpMessage, None, true))
  }
}
