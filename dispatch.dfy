/** Intent dispatch: `getDataViaSlotVal` in index.js, which picks the
    response from the intent's name and, for any other intent, resolves the
    `Service` slot through the catalog. */
module Dispatch {
  import opened Wrappers
  import opened Catalog
  import opened Responses

  /** A slot; its `value` may be absent. */
  datatype Slot = Slot(value: Option<string>)

  /** An intent; its `slots` object may be absent. */
  datatype Intent = Intent(name: string, slots: Option<map<string, Slot>>)

  const HelpIntent: string := "AMAZON.HelpIntent"
  const StopIntent: string := "AMAZON.StopIntent"
  const CancelIntent: string := "AMAZON.CancelIntent"
  const ServiceSlot: string := "Service"

  /** The intents answered without reading any slot. */
  predicate IsBuiltIn(name: string) {
    name == HelpIntent || name == StopIntent || name == CancelIntent
  }

  /** The `Service` slot exists, so reading `slot.value` does not throw. */
  predicate HasServiceSlot(intent: Intent) {
    intent.slots.Some? && ServiceSlot in intent.slots.value
  }

  /** `getDataViaSlotVal(intent, session, callback)`. Reading
      `intent.slots['Service']` with no `slots` object, or `slot.value` with no
      `Service` slot, throws a TypeError before the callback is reached. */
  function GetDataViaSlotVal(m: Messages, intent: Intent): Step {
    if intent.name == HelpIntent then
      HandleSessionHelpRequest(m)
    else if intent.name == StopIntent || intent.name == CancelIntent then
      HandleSessionEndRequest(m)
    else
      match intent.slots
      case None => Throw(TypeError(ServiceSlot))
      case Some(slots) =>
        if ServiceSlot !in slots then Throw(TypeError("value"))
        else
          var slot := slots[ServiceSlot];
          Respond(map[], BuildSpeechletResponse(intent.name, GetIntentResponse(slot.value), Some(""), false))
  }

  /** The help intent is answered before any slot is read: whatever the slots,
      the help response with no reprompt that ends the session. */
  lemma HelpIntentReply(m: Messages, intent: Intent)
    requires intent.name == HelpIntent
    ensures GetDataViaSlotVal(m, intent) == Respond(map[], Speechlet(SessionHelpTitle, m.helpMessage, None, true))
  {
  }

  /** Stop and Cancel are answered before any slot is read: the goodbye
      response with no reprompt that ends the session. */
  lemma ClosingIntentReply(m: Messages, intent: Intent)
    requires intent.name == StopIntent || intent.name == CancelIntent
    ensures GetDataViaSlotVal(m, intent) == Respond(map[], Speechlet(SessionEndedTitle, m.goodByeMessgae, None, true))
  {
  }

  /** Any other intent throws exactly when the `Service` slot is missing. */
  lemma ServiceIntentFailsIff(m: Messages, intent: Intent)
    requires !IsBuiltIn(intent.name)
    ensures GetDataViaSlotVal(m, intent).Throw? <==> !HasServiceSlot(intent)
  {
  }

  /** Any other intent with a `Service` slot: the card title is the intent's
      name, the speech is the resolved description, the reprompt is empty and
      the session stays open. */
  lemma ServiceIntentReply(m: Messages, intent: Intent)
    requires !IsBuiltIn(intent.name) && HasServiceSlot(intent)
    ensures GetDataViaSlotVal(m, intent)
      == Respond(map[], Speechlet(intent.name, GetIntentResponse(intent.slots.value[ServiceSlot].value), Some(""), false))
  {
  }

  /** Whatever the intent, a response that is produced has the shape of
      `WellFormed`: no attributes, reprompt offered exactly when the session
      stays open. */
  lemma DispatchWellFormed(m: Messages, intent: Intent)
    ensures GetDataViaSlotVal(m, intent).Respond? ==>
      WellFormed(GetDataViaSlotVal(m, intent).attrs, GetDataViaSlotVal(m, intent).speechlet)
  {
  }
}
