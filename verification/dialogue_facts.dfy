/**
 * The promises of the booking dialogue, proved about the transition
 * functions of module Dialogue.
 */
module DialogueFacts {
  import opened Wrappers
  import opened Text
  import opened State
  import opened Dialogue

  /* ---------- global commands ---------- */

  /** "hola", "menu" and "menú", in any case, reset the session from every step and show the menu. */
  lemma MenuCommandFromEveryStep(st: SessionState, text: string, gatewayConfigured: bool, suggest: SuggestOutcome)
    requires IsMenuCommand(ToLower(text))
    ensures Respond(st, text, gatewayConfigured, suggest) == (InitialState, Menu)
  {
  }

  /** "cancelar" and "reiniciar", in any case, reset the session from every step. */
  lemma CancelCommandFromEveryStep(st: SessionState, text: string, gatewayConfigured: bool, suggest: SuggestOutcome)
    requires IsCancelCommand(ToLower(text))
    ensures Respond(st, text, gatewayConfigured, suggest) == (InitialState, Cancelled)
  {
  }

  /** From every step a single message leads back to IDLE. */
  lemma IdleReachableFromEveryStep(st: SessionState, gatewayConfigured: bool, suggest: SuggestOutcome)
    ensures Respond(st, "cancelar", gatewayConfigured, suggest).0 == InitialState
    ensures Respond(st, "MENÚ", gatewayConfigured, suggest) == (InitialState, Menu)
  {
    assert ToLower("cancelar") == "cancelar";
    assert ToLower("MENÚ") == "menú";
  }

  /* ---------- the IDLE menu ---------- */

  /** No global command mentions "cita", "precio" or "horario". */
  lemma CommandsAreNotMenuWords(t: string)
    requires IsGlobalCommand(t)
    ensures !Contains(t, "cita") && !Contains(t, "precio") && !Contains(t, "horario")
  {
    assert 't' !in t && 'p' !in t by {
      if IsMenuCommand(t) {
        assert t == "hola" || t == "menu" || t == "menú";
      } else {
        assert t == "cancelar" || t == "reiniciar";
      }
    }
    MissingCharExcludes(t, "cita", 2);
    MissingCharExcludes(t, "precio", 0);
    if |t| >= |"horario"| {
      MissingCharExcludes(t, "horario", 0);
    }
  }

  /**
   * At IDLE (or with no step), any text containing "cita", or exactly "1",
   * starts a booking with empty data — even when it also mentions prices
   * or hours, since "cita" is tested first.
   */
  lemma IdleBookingStarts(st: SessionState, text: string, gatewayConfigured: bool, suggest: SuggestOutcome)
    requires !IsActive(st.step)
    requires Contains(ToLower(text), "cita") || ToLower(text) == "1"
    ensures Respond(st, text, gatewayConfigured, suggest) == (SessionState(AskSpecialty, EmptyData), SpecialtyPrompt)
  {
    var t := ToLower(text);
    if IsGlobalCommand(t) {
      CommandsAreNotMenuWords(t);
      assert false;
    }
  }

  /** At IDLE, every other message that is not a global command leaves the session as it was. */
  lemma IdleOtherKeepsSession(st: SessionState, text: string, gatewayConfigured: bool, suggest: SuggestOutcome)
    requires !IsActive(st.step)
    requires !IsGlobalCommand(ToLower(text))
    requires !Contains(ToLower(text), "cita") && ToLower(text) != "1"
    ensures Respond(st, text, gatewayConfigured, suggest).0 == st
    ensures Respond(st, text, gatewayConfigured, suggest).1 in {Prices, Hours, NotUnderstood}
    ensures Respond(st, text, gatewayConfigured, suggest).1 == Prices
            <==> Contains(ToLower(text), "precio") || ToLower(text) == "2"
    ensures Respond(st, text, gatewayConfigured, suggest).1 == Hours
            <==> !(Contains(ToLower(text), "precio") || ToLower(text) == "2")
                 && (Contains(ToLower(text), "horario") || ToLower(text) == "3")
  {
  }

  /* ---------- the booking steps ---------- */

  /** ASK_SPECIALTY stores the trimmed text, in its original case, and asks for the day. */
  lemma SpecialtyStoresText(st: SessionState, text: string, gatewayConfigured: bool, suggest: SuggestOutcome)
    requires st.step == AskSpecialty && !IsGlobalCommand(ToLower(text))
    ensures Respond(st, text, gatewayConfigured, suggest)
            == (SessionState(AskDay, st.data.(specialty := Some(text))), DayPrompt)
  {
  }

  /**
   * ASK_DAY always records the day text. It moves to ASK_SLOT exactly when
   * it has a list to offer — the three placeholders without a usable script
   * URL, else the first three suggested openings — and stores that list in
   * the same step; otherwise it stays at ASK_DAY and keeps the old list.
   */
  lemma DayStep(st: SessionState, text: string, gatewayConfigured: bool, suggest: SuggestOutcome)
    requires st.step == AskDay && !IsGlobalCommand(ToLower(text))
    ensures var (st', r) := Respond(st, text, gatewayConfigured, suggest);
      && (st'.step == AskSlot || st'.step == AskDay)
      && (st'.step == AskSlot <==>
            !gatewayConfigured || (suggest.SuggestReplied? && |suggest.slots.GetOr([])| >= 1))
      && (st'.step == AskSlot ==>
            && st'.data == st.data.(dayText := Some(text), slots := st'.data.slots)
            && st'.data.slots == (if !gatewayConfigured then FallbackSlots else FirstThree(suggest.slots.value))
            && 1 <= |st'.data.slots| <= 3
            && r == OfferSlots(st'.data.slots))
      && (st'.step == AskDay ==>
            && st'.data == st.data.(dayText := Some(text))
            && r == (if suggest.SuggestFailed? then SuggestUnavailable else NoSlotsThatDay))
  {
  }

  /**
   * The list left in a session at ASK_DAY (for instance after "otro") has no
   * influence: two sessions that differ only in that list behave the same,
   * and once at ASK_SLOT they hold the same, newly assigned list.
   */
  lemma StaleListIgnored(st1: SessionState, st2: SessionState, text: string,
                         gatewayConfigured: bool, suggest: SuggestOutcome)
    requires st1.step == AskDay && st2.step == AskDay
    requires st1.data.(slots := []) == st2.data.(slots := [])
    ensures Respond(st1, text, gatewayConfigured, suggest).0.step == Respond(st2, text, gatewayConfigured, suggest).0.step
    ensures Respond(st1, text, gatewayConfigured, suggest).0.step == AskSlot
            ==> Respond(st1, text, gatewayConfigured, suggest) == Respond(st2, text, gatewayConfigured, suggest)
  {
  }

  /**
   * At ASK_SLOT, "otro" goes back to ASK_DAY first; then a missing list
   * goes back to ASK_DAY; otherwise a reply selects option n exactly when it
   * reads as an integer n with 1 <= n <= |slots|, and any other reply
   * leaves the session unchanged and asks again.
   */
  lemma SlotStep(st: SessionState, text: string, gatewayConfigured: bool, suggest: SuggestOutcome)
    requires st.step == AskSlot && !IsGlobalCommand(ToLower(text))
    ensures var (st', r) := Respond(st, text, gatewayConfigured, suggest);
      var t := ToLower(text);
      var slots := st.data.slots;
      var n := ParseIndex(t);
      && (Contains(t, "otro") ==> st' == st.(step := AskDay) && r == AnotherDayPrompt)
      && (!Contains(t, "otro") && slots == [] ==> st' == st.(step := AskDay) && r == ListLost)
      && (!Contains(t, "otro") && slots != [] && n.Some? && 1 <= n.value <= |slots| ==>
            && st' == SessionState(AskName, st.data.(slot := Some(slots[n.value - 1])))
            && r == NamePrompt(slots[n.value - 1]))
      && (!Contains(t, "otro") && slots != [] && !(n.Some? && 1 <= n.value <= |slots|) ==>
            st' == st && r == PickAgain)
  {
  }

  /** The digits of a rendered number are left alone by lower-casing. */
  lemma LowerDigits(s: string)
    requires AllDigits(s)
    ensures ToLower(s) == s
  {
  }

  /** A string of digits contains no word that starts with a letter, and is no command. */
  lemma DigitsAreNoWord(s: string, w: string)
    requires AllDigits(s) && s != [] && w != [] && !IsDigit(w[0])
    ensures !Contains(s, w) && !IsGlobalCommand(s)
  {
    assert IsDigit(s[0]);
    MissingCharExcludes(s, w, 0);
  }

  /**
   * Typing the number the slot menu shows next to an opening (option i + 1)
   * selects exactly that opening.
   */
  lemma ShownNumberSelectsSlot(st: SessionState, i: nat, gatewayConfigured: bool, suggest: SuggestOutcome)
    requires st.step == AskSlot && i < |st.data.slots|
    ensures Respond(st, Decimal(i + 1), gatewayConfigured, suggest)
            == (SessionState(AskName, st.data.(slot := Some(st.data.slots[i]))), NamePrompt(st.data.slots[i]))
  {
    var t := Decimal(i + 1);
    LowerDigits(t);
    DigitsAreNoWord(t, "otro");
    ParseDecimal(i + 1);
  }

  /** ASK_NAME stores the text as the name, keeps the rest, and asks for confirmation. */
  lemma NameStoresText(st: SessionState, text: string, gatewayConfigured: bool, suggest: SuggestOutcome)
    requires st.step == AskName && !IsGlobalCommand(ToLower(text))
    ensures Respond(st, text, gatewayConfigured, suggest)
            == (SessionState(Confirm, st.data.(name := Some(text))), ConfirmPrompt(st.data.(name := Some(text))))
  {
  }

  /**
   * Every message at CONFIRM ends at IDLE with empty data: a yes sends the
   * summary (whatever the save call did), anything else cancels.
   */
  lemma ConfirmAlwaysEndsIdle(st: SessionState, text: string, gatewayConfigured: bool, suggest: SuggestOutcome)
    requires st.step == Confirm
    ensures Respond(st, text, gatewayConfigured, suggest).0 == InitialState
    ensures !IsGlobalCommand(ToLower(text)) ==>
      Respond(st, text, gatewayConfigured, suggest).1
        == if IsAffirmative(ToLower(text)) then BookingReceived(st.data) else BookingCancelled
  {
  }

  /** A session whose step the flow does not know is restarted. */
  lemma UnknownStepRestarts(st: SessionState, text: string, gatewayConfigured: bool, suggest: SuggestOutcome)
    requires st.step.Unknown? && st.step.name != "" && !IsGlobalCommand(ToLower(text))
    ensures Respond(st, text, gatewayConfigured, suggest) == (InitialState, Restarted)
  {
  }

  /* ---------- the invariant of reachable sessions ---------- */

  /**
   * What holds of every session the dialogue can produce from a fresh one:
   * the step is known, data is empty at IDLE and ASK_SPECIALTY, a list of
   * 1..3 openings is present from ASK_SLOT on, and a chosen opening exists
   * exactly at ASK_NAME and CONFIRM and is an element of that list.
   */
  ghost predicate Inv(st: SessionState) {
    var d := st.data;
    match st.step
    case Idle => d == EmptyData
    case AskSpecialty => d == EmptyData
    case AskDay => d.specialty.Some? && |d.slots| <= 3 && d.slot.None? && d.name.None?
    case AskSlot =>
      d.specialty.Some? && d.dayText.Some? && 1 <= |d.slots| <= 3 && d.slot.None? && d.name.None?
    case AskName =>
      && d.specialty.Some? && d.dayText.Some? && 1 <= |d.slots| <= 3
      && d.slot.Some? && d.slot.value in d.slots && d.name.None?
    case Confirm =>
      && d.specialty.Some? && d.dayText.Some? && 1 <= |d.slots| <= 3
      && d.slot.Some? && d.slot.value in d.slots && d.name.Some?
    case Unknown(_) => false
  }

  lemma InitialStateInv()
    ensures Inv(InitialState)
  {
  }

  /** One message keeps the invariant. */
  lemma RespondPreservesInv(st: SessionState, text: string, gatewayConfigured: bool, suggest: SuggestOutcome)
    requires Inv(st)
    ensures Inv(Respond(st, text, gatewayConfigured, suggest).0)
  {
    var t := ToLower(text);
    if !IsGlobalCommand(t) {
      match st.step
      case Idle =>
      case AskSpecialty =>
      case AskDay =>
        DayStep(st, text, gatewayConfigured, suggest);
      case AskSlot =>
        SlotStep(st, text, gatewayConfigured, suggest);
      case AskName =>
      case Confirm =>
    }
  }

  /** Every session in the store satisfies the invariant. */
  ghost predicate StoreInv(view: map<Phone, SessionState>) {
    forall p :: p in view ==> Inv(view[p])
  }

  /** The store the bot starts with has the invariant. */
  lemma EmptyStoreInv()
    ensures StoreInv(map[])
  {
  }

  /** One webhook call keeps the invariant of the whole store. */
  lemma IncomingPreservesStoreInv(view: map<Phone, SessionState>, payload: Option<Message>,
                                  gatewayConfigured: bool, suggest: SuggestOutcome)
    requires StoreInv(view)
    ensures StoreInv(Incoming(view, payload, gatewayConfigured, suggest).0)
  {
    if payload.Some? {
      var m := payload.value;
      var st := Lookup(view, m.from);
      InitialStateInv();
      RespondPreservesInv(st, MessageText(m), gatewayConfigured, suggest);
    }
  }

  /** In a reachable session at ASK_SLOT the list is never found missing. */
  lemma ListNeverLost(st: SessionState, text: string, gatewayConfigured: bool, suggest: SuggestOutcome)
    requires Inv(st) && st.step == AskSlot
    ensures Respond(st, text, gatewayConfigured, suggest).1 != ListLost
  {
  }

  /**
   * The summaries sent at ASK_NAME and CONFIRM always have the specialty and
   * the name set (possibly to the empty text) and a chosen opening from the
   * offered list. When every offered opening has a label (the three
   * placeholders always do), the chosen one has a label too, so the `"-"`
   * and day-text stand-ins are not shown; an unlabelled opening from the
   * script is shown by those stand-ins.
   */
  lemma SummaryComplete(st: SessionState, text: string, gatewayConfigured: bool, suggest: SuggestOutcome)
    requires Inv(st)
    ensures var r := Respond(st, text, gatewayConfigured, suggest).1;
      (r.ConfirmPrompt? || r.BookingReceived?) ==>
        && r.summary.specialty.Some? && r.summary.name.Some?
        && r.summary.slot.Some? && r.summary.slot.value in r.summary.slots
        && r.summary.slots == st.data.slots
        && ((forall x :: x in st.data.slots ==> Labelled(x)) ==> Labelled(r.summary.slot.value))
  {
  }

  /** The three placeholder openings all carry labels. */
  lemma FallbackSlotsLabelled()
    ensures forall x :: x in FallbackSlots ==> Labelled(x)
  {
  }

  /* ---------- lower-casing beyond ASCII ---------- */

  /** "O" followed by the Kelvin sign lower-cases to "ok", so at CONFIRM it confirms. */
  lemma KelvinSignConfirms(st: SessionState, gatewayConfigured: bool, suggest: SuggestOutcome)
    requires st.step == Confirm
    ensures Respond(st, "O\U{212A}", gatewayConfigured, suggest) == (InitialState, BookingReceived(st.data))
  {
    assert ToLower("O\U{212A}") == "ok";
  }

  /** A whole sequence of webhook calls keeps the invariant of the store. */
  lemma {:induction false} RunPreservesStoreInv(view: map<Phone, SessionState>, payloads: seq<Option<Message>>,
                                                gatewayConfigured: bool, suggests: seq<SuggestOutcome>)
    requires StoreInv(view) && |suggests| == |payloads|
    ensures StoreInv(Run(view, payloads, gatewayConfigured, suggests).0)
    decreases |payloads|
  {
    if payloads != [] {
      var n := |payloads| - 1;
      RunPreservesStoreInv(view, payloads[..n], gatewayConfigured, suggests[..n]);
      var prev := Run(view, payloads[..n], gatewayConfigured, suggests[..n]);
      IncomingPreservesStoreInv(prev.0, payloads[n], gatewayConfigured, suggests[n]);
    }
  }
}
