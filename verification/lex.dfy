/** The bot service's side of the handler: the incoming event as far as the
    handler reads it, reading a slot's value, and the reply envelope. */
module Lex {
  import opened Wrappers
  import opened Text

  /** The `value` object of a slot. */
  datatype SlotValue = SlotValue(interpretedValue: Field<string>)

  /** A slot object, holding its `value` object. */
  datatype Slot = Slot(value: Field<SlotValue>)

  /** The event: `sessionState.intent.name` and `sessionState.intent.slots`.
      A slot name bound to `Absent` in the map reads like an unbound name. */
  datatype Request = Request(intentName: string, slots: Field<map<string, Field<Slot>>>)

  /** The text of the error Python raises when `.get` is called on `None`. */
  const NoneGetError := "'NoneType' object has no attribute 'get'"

  /** Reads `slots.get(name, {}).get('value', {}).get('interpretedValue')`
      where `slots` is `intent.get('slots', {})`. A missing key on the way
      yields `None`; a `null` on the way makes the next `.get` raise. */
  function SlotInterpretedValue(req: Request, name: string): (r: Result<Option<string>, string>)
    ensures r.Failure? ==> r.error == NoneGetError
    ensures r.Failure? <==>
              || req.slots.Null?
              || (&& req.slots.Present? && name in req.slots.value
                  && (|| req.slots.value[name].Null?
                      || (req.slots.value[name].Present? && req.slots.value[name].value.value.Null?)))
    ensures r.Success? && r.value.Some? <==>
              && req.slots.Present? && name in req.slots.value
              && req.slots.value[name].Present?
              && req.slots.value[name].value.value.Present?
              && req.slots.value[name].value.value.value.interpretedValue.Present?
    ensures r.Success? && r.value.Some? ==>
              r.value.value == req.slots.value[name].value.value.value.interpretedValue.value
  {
    match req.slots
    case Absent => Success(None)
    case Null => Failure(NoneGetError)
    case Present(slots) =>
      var entry := if name in slots then slots[name] else Absent;
      match entry
      case Absent => Success(None)
      case Null => Failure(NoneGetError)
      case Present(slot) =>
        match slot.value
        case Absent => Success(None)
        case Null => Failure(NoneGetError)
        case Present(v) =>
          match v.interpretedValue
          case Present(s) => Success(Some(s))
          case _ => Success(None)
  }

  /** Python truthiness of the value read from a slot: present and non-empty. */
  predicate Given(v: Option<string>) {
    v.Some? && v.value != ""
  }

  /** A slot filled the way the bot service fills it. */
  function FilledSlot(s: string): Field<Slot> {
    Present(Slot(Present(SlotValue(Present(s)))))
  }

  /** How slot reading behaves on every shape along the path: a filled slot
      yields its text; an unbound name, a missing `slots` key, a slot
      without `value`, and a `value` whose `interpretedValue` is missing or
      `null` yield nothing; a `null` slot map, a `null` slot and a `null`
      `value` raise. A filled slot holding the empty string is read but is
      not given. */
  lemma SlotReadingCases(name: string, intentName: string, slots: map<string, Field<Slot>>, s: string)
    ensures SlotInterpretedValue(Request(intentName, Present(slots[name := FilledSlot(s)])), name) == Success(Some(s))
    ensures Given(Some(s)) <==> s != ""
    ensures name !in slots ==> SlotInterpretedValue(Request(intentName, Present(slots)), name) == Success(None)
    ensures SlotInterpretedValue(Request(intentName, Absent), name) == Success(None)
    ensures SlotInterpretedValue(Request(intentName, Present(slots[name := Present(Slot(Absent))])), name)
            == Success(None)
    ensures SlotInterpretedValue(Request(intentName, Present(slots[name := Present(Slot(Present(SlotValue(Absent))))])), name)
            == Success(None)
    ensures SlotInterpretedValue(Request(intentName, Present(slots[name := Present(Slot(Present(SlotValue(Null))))])), name)
            == Success(None)
    ensures SlotInterpretedValue(Request(intentName, Present(slots[name := Present(Slot(Null))])), name)
            == Failure(NoneGetError)
    ensures SlotInterpretedValue(Request(intentName, Present(slots[name := Null])), name) == Failure(NoneGetError)
    ensures SlotInterpretedValue(Request(intentName, Null), name) == Failure(NoneGetError)
  {
  }

  /** `dialogAction` of the reply. */
  datatype DialogAction = DialogAction(kind: string)

  /** `intent` of the reply: the intent's name and its outcome state. */
  datatype IntentStatus = IntentStatus(name: string, state: string)

  /** `sessionState` of the reply. */
  datatype SessionState = SessionState(dialogAction: DialogAction, intent: IntentStatus)

  /** One entry of the reply's `messages`. */
  datatype Message = Message(contentType: string, content: string)

  /** The reply envelope. */
  datatype Response = Response(sessionState: SessionState, messages: seq<Message>) {
    /** The outcome state of the reply. */
    function State(): string {
      sessionState.intent.state
    }

    /** The intent name the reply echoes. */
    function IntentName(): string {
      sessionState.intent.name
    }

    /** The text of the reply's first message. */
    function Text(): string
      requires |messages| > 0
    {
      messages[0].content
    }
  }

  /** The two outcome states. */
  const Fulfilled := "Fulfilled"
  const Failed := "Failed"

  /** The envelope closes the dialog and carries exactly one plain-text message. */
  predicate WellShaped(r: Response) {
    && r.sessionState.dialogAction == DialogAction("Close")
    && |r.messages| == 1
    && r.messages[0].contentType == "PlainText"
  }

  /** A well-shaped reply whose state is one of the two outcome states. */
  predicate Final(r: Response) {
    WellShaped(r) && (r.State() == Fulfilled || r.State() == Failed)
  }

  /** `build_lex_response`: closes the dialog for the request's intent with
      the given state and message. */
  function BuildLexResponse(req: Request, state: string, message: string): (r: Response)
    ensures WellShaped(r)
    ensures r.IntentName() == req.intentName && r.State() == state
    ensures r.Text() == message
  {
    Response(
      SessionState(DialogAction("Close"), IntentStatus(req.intentName, state)),
      [Message("PlainText", message)])
  }

  /** The message naming an intent the handler does not know. */
  function UnknownIntentMessage(intentName: string): string {
    CrossMark + " **Error:** Intent '" + intentName + "' not recognized."
  }

  /** `unknown_intent_response`: a failed reply that names the intent. */
  function UnknownIntentResponse(intentName: string): (r: Response)
    ensures Final(r)
    ensures r.IntentName() == intentName && r.State() == Failed
    ensures Contains(r.Text(), intentName)
  {
    ContainsInfix(CrossMark + " **Error:** Intent '", intentName, "' not recognized.");
    Response(
      SessionState(DialogAction("Close"), IntentStatus(intentName, Failed)),
      [Message("PlainText", UnknownIntentMessage(intentName))])
  }
}
