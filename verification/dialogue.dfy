/**
 * What one inbound WhatsApp message does to the session store and which
 * reply it produces (src/whatsapp.js, `handleIncomingMessage` and
 * `handleBookingFlow`), stated as functions of values. The imperative
 * handlers in module WhatsApp are proved to compute exactly these
 * functions; the lemmas below state the dialogue's promises about them.
 */
module Dialogue {
  import opened Wrappers
  import opened Text
  import opened State

  /** The first message of a webhook payload: sender and optional text body. */
  datatype Message = Message(from: Phone, body: Option<string>)

  /**
   * The outcome of the "suggest" call to the scheduling script: the call
   * threw, or it answered with a `slots` property that is an array
   * (`Some`) or anything else (`None`).
   */
  datatype SuggestOutcome = SuggestFailed | SuggestReplied(slots: Option<seq<Slot>>)

  /** Which message the bot sends back. */
  datatype Reply =
    | Menu                              // greeting and options
    | Cancelled                         // "Proceso cancelado" after a cancel command
    | SpecialtyPrompt                   // which specialty?
    | Prices
    | Hours
    | NotUnderstood
    | DayPrompt                         // which day?
    | OfferSlots(offered: seq<Slot>)    // numbered list of openings
    | SuggestUnavailable                // the suggest call failed
    | NoSlotsThatDay                    // the suggest call found nothing
    | AnotherDayPrompt                  // after "otro"
    | ListLost                          // no list to choose from
    | PickAgain                         // "Elige 1, 2 o 3"
    | NamePrompt(chosen: Slot)          // slot chosen, what is your name?
    | ConfirmPrompt(summary: SessionData)
    | BookingCancelled                  // anything but yes at the confirmation
    | BookingReceived(summary: SessionData)
    | Restarted                         // fallback for an unknown step

  /** The three placeholder openings offered when the script URL is unusable. */
  const FallbackSlots: seq<Slot> := [
    Slot(Some("Mañana 10:00–10:30"), "", ""),
    Slot(Some("Mañana 12:00–12:30"), "", ""),
    Slot(Some("Tarde 17:30–18:00"), "", "")
  ]

  /** `(msg?.text?.body || "").trim()` */
  function MessageText(m: Message): string {
    Trim(if m.body.Some? then m.body.value else "")
  }

  predicate IsMenuCommand(t: string) {
    t == "hola" || t == "menu" || t == "menú"
  }

  predicate IsCancelCommand(t: string) {
    t == "cancelar" || t == "reiniciar"
  }

  /** The commands checked before any step handling. */
  predicate IsGlobalCommand(t: string) {
    IsMenuCommand(t) || IsCancelCommand(t)
  }

  predicate IsAffirmative(t: string) {
    t == "si" || t == "sí" || t == "ok" || t == "confirmo"
  }

  /** `s.step && s.step !== "IDLE"`: the session is inside the booking flow. */
  predicate IsActive(step: StepName) {
    step != Idle && step != Unknown("")
  }

  /** `slots.slice(0, 3)` */
  function FirstThree(slots: seq<Slot>): (r: seq<Slot>)
    ensures |r| == if |slots| < 3 then |slots| else 3
    ensures r == slots[..|r|]
  {
    if |slots| < 3 then slots else slots[..3]
  }

  /**
   * `Number(t) - 1` checked by `Number.isInteger(idx)` and
   * `0 <= idx < count`: the 0-based slot a reply selects, if any.
   */
  function SelectSlot(t: string, count: nat): (r: Option<nat>)
    ensures r.Some? ==> r.value < count && ParseIndex(t) == Some(r.value + 1)
    ensures r.None? ==> ParseIndex(t).None? || !(1 <= ParseIndex(t).value <= count)
  {
    match ParseIndex(t)
    case None => None
    case Some(n) => if 0 <= n - 1 < count then Some(n - 1) else None
  }

  /** The menu branches of `handleIncomingMessage` for a session at IDLE (lines 63-81). */
  function IdleMenu(st: SessionState, t: string): (SessionState, Reply) {
    if Contains(t, "cita") || t == "1" then (SessionState(AskSpecialty, EmptyData), SpecialtyPrompt)
    else if Contains(t, "precio") || t == "2" then (st, Prices)
    else if Contains(t, "horario") || t == "3" then (st, Hours)
    else (st, NotUnderstood)
  }

  /** `handleBookingFlow` on the session's value; `text` is trimmed, not lower-cased. */
  function Flow(st: SessionState, text: string, gatewayConfigured: bool, suggest: SuggestOutcome): (SessionState, Reply) {
    var t := ToLower(text);
    var d := st.data;
    match st.step
    case AskSpecialty =>
      (SessionState(AskDay, d.(specialty := Some(text))), DayPrompt)
    case AskDay =>
      var d' := d.(dayText := Some(text));
      if !gatewayConfigured then
        (SessionState(AskSlot, d'.(slots := FallbackSlots)), OfferSlots(FallbackSlots))
      else if suggest.SuggestFailed? then
        (SessionState(AskDay, d'), SuggestUnavailable)
      else
        var slots := suggest.slots.GetOr([]);
        if |slots| < 1 then
          (SessionState(AskDay, d'), NoSlotsThatDay)
        else
          (SessionState(AskSlot, d'.(slots := FirstThree(slots))), OfferSlots(FirstThree(slots)))
    case AskSlot =>
      if Contains(t, "otro") then
        (st.(step := AskDay), AnotherDayPrompt)
      else if |d.slots| == 0 then
        (st.(step := AskDay), ListLost)
      else
        (match SelectSlot(t, |d.slots|)
         case None => (st, PickAgain)
         case Some(i) => (SessionState(AskName, d.(slot := Some(d.slots[i]))), NamePrompt(d.slots[i])))
    case AskName =>
      var d' := d.(name := Some(text));
      (SessionState(Confirm, d'), ConfirmPrompt(d'))
    case Confirm =>
      if IsAffirmative(t) then (InitialState, BookingReceived(d)) else (InitialState, BookingCancelled)
    case _ =>
      (InitialState, Restarted)
  }

  /** `handleIncomingMessage` once the message's text is known and trimmed. */
  function Respond(st: SessionState, text: string, gatewayConfigured: bool, suggest: SuggestOutcome): (SessionState, Reply) {
    var t := ToLower(text);
    if IsMenuCommand(t) then (InitialState, Menu)
    else if IsCancelCommand(t) then (InitialState, Cancelled)
    else if IsActive(st.step) then Flow(st, text, gatewayConfigured, suggest)
    else IdleMenu(st, t)
  }

  /**
   * `handleIncomingMessage(body)` on the store's values: a payload without a
   * message changes nothing and gets no reply; otherwise exactly the
   * sender's session is (created and) replaced, and there is one reply.
   */
  function Incoming(view: map<Phone, SessionState>, payload: Option<Message>,
                    gatewayConfigured: bool, suggest: SuggestOutcome): (r: (map<Phone, SessionState>, Option<Reply>))
    ensures payload.None? ==> r == (view, None)
    ensures payload.Some? ==> r.1.Some? && r.0.Keys == view.Keys + {payload.value.from}
    ensures payload.Some? ==> forall p :: p in view && p != payload.value.from ==> r.0[p] == view[p]
  {
    match payload
    case None => (view, None)
    case Some(m) =>
      var next := Respond(Lookup(view, m.from), MessageText(m), gatewayConfigured, suggest);
      (view[m.from := next.0], Some(next.1))
  }

  /** The senders of the messages among `payloads`. */
  function Senders(payloads: seq<Option<Message>>): set<Phone> {
    set k | 0 <= k < |payloads| && payloads[k].Some? :: payloads[k].value.from
  }

  /**
   * The webhook calls one after another on the same store: the store after
   * the last one and the reply of each. The store gains exactly the
   * senders' keys, and a payload gets a reply exactly when it has a message.
   */
  function Run(view: map<Phone, SessionState>, payloads: seq<Option<Message>>,
               gatewayConfigured: bool, suggests: seq<SuggestOutcome>): (r: (map<Phone, SessionState>, seq<Option<Reply>>))
    requires |suggests| == |payloads|
    ensures |r.1| == |payloads|
    ensures r.0.Keys == view.Keys + Senders(payloads)
    ensures forall k :: 0 <= k < |payloads| ==> (r.1[k].Some? <==> payloads[k].Some?)
    decreases |payloads|
  {
    if payloads == [] then
      (view, [])
    else
      var n := |payloads| - 1;
      var prev := Run(view, payloads[..n], gatewayConfigured, suggests[..n]);
      var next := Incoming(prev.0, payloads[n], gatewayConfigured, suggests[n]);
      assert Senders(payloads) == Senders(payloads[..n]) + (if payloads[n].Some? then {payloads[n].value.from} else {}) by {
        forall p | p in Senders(payloads)
          ensures p in Senders(payloads[..n]) + (if payloads[n].Some? then {payloads[n].value.from} else {})
        {
          var k :| 0 <= k < |payloads| && payloads[k].Some? && payloads[k].value.from == p;
          if k < n {
            assert payloads[..n][k] == payloads[k];
          }
        }
      }
      (next.0, prev.1 + [next.1])
  }
}
