/**
 * The webhook handler of the bot (src/whatsapp.js): `handleIncomingMessage`
 * and `handleBookingFlow` as methods that edit the session objects of the
 * store in place, proved to compute the transition functions of module
 * Dialogue, and the loop that renders the numbered list of openings.
 */
module WhatsApp {
  import opened Wrappers
  import opened Text
  import opened State
  import opened Dialogue
  import DialogueFacts

  /* ---------- the slot menu ---------- */

  /** The keycap marks that turn a digit into an emoji ("1" + these = 1️⃣). */
  const Keycap := "\U{FE0F}\U{20E3}"
  const OfferHeader := "Tengo estos huecos:\n\n"
  const OfferFooter := "\nResponde 1, 2 o 3 (o escribe *otro día*)."

  /** `x.label || `Opción ${n}``: a missing or empty label gets a default. */
  function OptionLabel(x: Slot, n: nat): (r: string)
    ensures r != []
    ensures Labelled(x) ==> r == x.labelText.value
  {
    if Labelled(x) then x.labelText.value else "Opción " + Decimal(n)
  }

  /** A line `${number}️⃣ ${caption}` of the menu. */
  function MenuLine(number: string, caption: string): string {
    number + Keycap + " " + caption + "\n"
  }

  /** The line for the opening at 0-based position `i`: its number shown 1-based. */
  function OptionLine(i: nat, x: Slot): string {
    MenuLine(Decimal(i + 1), OptionLabel(x, i + 1))
  }

  /** The lines of the menu, one per opening, in order. */
  function OptionLines(slots: seq<Slot>): string
    decreases |slots|
  {
    if slots == [] then "" else OptionLines(slots[..|slots| - 1]) + OptionLine(|slots| - 1, slots[|slots| - 1])
  }

  /** The whole message that offers `slots`. */
  function OfferText(slots: seq<Slot>): string {
    OfferHeader + OptionLines(slots) + OfferFooter
  }

  /**
   * The menu lists the openings in order: the lines of the first `i`
   * openings followed by the line of opening `i` start the list.
   */
  lemma {:induction false} OptionListedInPlace(slots: seq<Slot>, i: nat)
    requires i < |slots|
    ensures OptionLines(slots[..i]) + OptionLine(i, slots[i]) <= OptionLines(slots)
  {
    var n := |slots|;
    assert slots[..n - 1] + [slots[n - 1]] == slots;
    if i == n - 1 {
      assert slots[..i] == slots[..n - 1];
    } else {
      var init := slots[..n - 1];
      OptionListedInPlace(init, i);
      assert init[..i] == slots[..i] && init[i] == slots[i];
      var p := OptionLines(slots[..i]) + OptionLine(i, slots[i]);
      assert OptionLines(slots) == OptionLines(init) + OptionLine(n - 1, slots[n - 1]);
      assert OptionLines(init)[..|p|] == p;
      assert OptionLines(slots)[..|p|] == p;
    }
  }

  /** The three lines of a three-opening menu. */
  lemma OptionLinesOfThree(a: Slot, b: Slot, c: Slot)
    ensures OptionLines([a, b, c]) == OptionLine(0, a) + OptionLine(1, b) + OptionLine(2, c)
  {
    var f := [a, b, c];
    assert f[..2] == [a, b] && [a, b][..1] == [a] && [a][..0] == [];
    assert OptionLines([a]) == OptionLine(0, a);
    assert OptionLines([a, b]) == OptionLines([a]) + OptionLine(1, b);
    assert OptionLines(f) == OptionLines([a, b]) + OptionLine(2, c);
  }

  /** The message offering three labelled openings, written out line by line. */
  lemma ThreeLabelledOffer(f: seq<Slot>)
    requires |f| == 3
    requires Labelled(f[0]) && Labelled(f[1]) && Labelled(f[2])
    ensures OfferHeader
            + MenuLine("1", f[0].labelText.value)
            + MenuLine("2", f[1].labelText.value)
            + MenuLine("3", f[2].labelText.value)
            + OfferFooter
            == OfferText(f)
  {
    assert f == [f[0], f[1], f[2]];
    OptionLinesOfThree(f[0], f[1], f[2]);
    assert Decimal(1) == "1" && Decimal(2) == "2" && Decimal(3) == "3";
    assert OptionLine(0, f[0]) == MenuLine("1", f[0].labelText.value);
    assert OptionLine(1, f[1]) == MenuLine("2", f[1].labelText.value);
    assert OptionLine(2, f[2]) == MenuLine("3", f[2].labelText.value);
  }

  /**
   * The fixed message sent with the three placeholder openings (lines
   * 106-113) is the one the loop builds for them.
   */
  lemma FallbackOfferIsLoopOffer()
    ensures OfferHeader
            + MenuLine("1", "Mañana 10:00–10:30")
            + MenuLine("2", "Mañana 12:00–12:30")
            + MenuLine("3", "Tarde 17:30–18:00")
            + OfferFooter
            == OfferText(FallbackSlots)
  {
    ThreeLabelledOffer(FallbackSlots);
  }

  /** The `forEach` that appends one line per offered opening to the message. */
  method RenderOffer(slots: seq<Slot>) returns (msg: string)
    ensures msg == OfferText(slots)
  {
    var lines := "";
    var i := 0;
    while i < |slots|
      invariant 0 <= i <= |slots|
      invariant lines == OptionLines(slots[..i])
    {
      assert slots[..i + 1][..i] == slots[..i];
      lines := lines + OptionLine(i, slots[i]);
      i := i + 1;
    }
    assert slots[..i] == slots;
    msg := OfferHeader + lines + OfferFooter;
  }

  /* ---------- the handlers ---------- */

  /**
   * `handleIncomingMessage(body)`: global commands first, then the booking
   * flow for a session inside it, else the IDLE menu. The store afterwards
   * and the reply are those of `Dialogue.Incoming`.
   */
  method HandleIncomingMessage(store: Store, payload: Option<Message>,
                               gatewayConfigured: bool, suggest: SuggestOutcome)
    returns (reply: Option<Reply>)
    requires store.Valid()
    modifies store, store.sessions.Values
    ensures store.Valid()
    ensures (store.View(), reply) == Incoming(old(store.View()), payload, gatewayConfigured, suggest)
    ensures store.sessions == old(store.sessions) ||
      (payload.Some? && var p := payload.value.from;
       p in store.sessions && fresh(store.sessions[p]) && store.sessions == old(store.sessions)[p := store.sessions[p]])
  {
    if payload.None? {
      return None;
    }
    var msg := payload.value;
    var from := msg.from;
    var text := Trim(if msg.body.Some? then msg.body.value else "");
    var t := ToLower(text);
    ghost var view0 := store.View();
    assert view0 == old(store.View());
    ghost var st := Lookup(view0, from);
    ghost var next := Respond(st, text, gatewayConfigured, suggest);
    assert Incoming(view0, payload, gatewayConfigured, suggest) == (view0[from := next.0], Some(next.1));

    if IsMenuCommand(t) {
      store.ResetSession(from);
      reply := Some(Menu);
    } else if IsCancelCommand(t) {
      store.ResetSession(from);
      reply := Some(Cancelled);
    } else {
      var s := store.GetSession(from);
      GotViewThenUpdate(view0, from, next.0);
      var r;
      if IsActive(s.step) {
        assert next == Flow(st, text, gatewayConfigured, suggest);
        r := HandleBookingFlow(store, s, from, text, t, gatewayConfigured, suggest);
      } else {
        assert next == IdleMenu(st, t);
        r := HandleIdleMenu(store, s, from, t);
      }
      assert store.View() == view0[from := next.0] && r == next.1;
      reply := Some(r);
    }
  }

  /** The menu of `handleIncomingMessage` for a session that is not in the booking flow. */
  method HandleIdleMenu(store: Store, s: Session, from: Phone, t: string) returns (reply: Reply)
    requires store.Valid() && from in store.sessions && store.sessions[from] == s
    modifies s
    ensures store.Valid()
    ensures store.View() == old(store.View())[from := IdleMenu(old(s.State()), t).0]
    ensures reply == IdleMenu(old(s.State()), t).1
  {
    if Contains(t, "cita") || t == "1" {
      s.step := AskSpecialty;
      s.data := EmptyData;
      store.EditedView(from);
      return SpecialtyPrompt;
    }
    store.EditedView(from);
    if Contains(t, "precio") || t == "2" {
      return Prices;
    }
    if Contains(t, "horario") || t == "3" {
      return Hours;
    }
    return NotUnderstood;
  }

  /**
   * `handleBookingFlow`: one step of the booking dialogue on the session
   * object `s` stored under `from`; `text` is the trimmed message and `t`
   * its lower-case form.
   */
  method HandleBookingFlow(store: Store, s: Session, from: Phone, text: string, t: string,
                           gatewayConfigured: bool, suggest: SuggestOutcome)
    returns (reply: Reply)
    requires store.Valid() && from in store.sessions && store.sessions[from] == s
    requires t == ToLower(text)
    modifies store, s
    ensures store.Valid()
    ensures store.View() == old(store.View())[from := Flow(old(s.State()), text, gatewayConfigured, suggest).0]
    ensures store.sessions == old(store.sessions) ||
      (from in store.sessions && fresh(store.sessions[from]) && store.sessions == old(store.sessions)[from := store.sessions[from]])
    ensures reply == Flow(old(s.State()), text, gatewayConfigured, suggest).1
  {
    if s.step == AskSpecialty {
      s.data := s.data.(specialty := Some(text));
      s.step := AskDay;
      store.EditedView(from);
      return DayPrompt;
    }
    if s.step == AskDay {
      reply := HandleAskDay(store, s, from, text, gatewayConfigured, suggest);
      return;
    }
    if s.step == AskSlot {
      reply := HandleAskSlot(store, s, from, text, t, gatewayConfigured, suggest);
      return;
    }
    if s.step == AskName {
      s.data := s.data.(name := Some(text));
      s.step := Confirm;
      store.EditedView(from);
      return ConfirmPrompt(s.data);
    }
    if s.step == Confirm {
      var ok := IsAffirmative(t);
      if !ok {
        store.ResetSession(from);
        return BookingCancelled;
      }
      var summary := s.data;
      store.ResetSession(from);
      return BookingReceived(summary);
    }
    store.ResetSession(from);
    return Restarted;
  }

  /** The ASK_DAY step: record the day, then offer openings or say why not. */
  method HandleAskDay(store: Store, s: Session, from: Phone, text: string,
                      gatewayConfigured: bool, suggest: SuggestOutcome)
    returns (reply: Reply)
    requires store.Valid() && from in store.sessions && store.sessions[from] == s
    requires s.step == AskDay
    modifies s
    ensures store.Valid()
    ensures store.View() == old(store.View())[from := Flow(old(s.State()), text, gatewayConfigured, suggest).0]
    ensures reply == Flow(old(s.State()), text, gatewayConfigured, suggest).1
  {
    s.data := s.data.(dayText := Some(text));
    if !gatewayConfigured {
      var fallback := FallbackSlots;
      s.data := s.data.(slots := fallback);
      s.step := AskSlot;
      store.EditedView(from);
      return OfferSlots(fallback);
    }
    if suggest.SuggestFailed? {
      store.EditedView(from);
      return SuggestUnavailable;
    }
    var slots := if suggest.slots.Some? then suggest.slots.value else [];
    if |slots| < 1 {
      store.EditedView(from);
      return NoSlotsThatDay;
    }
    s.data := s.data.(slots := FirstThree(slots));
    s.step := AskSlot;
    store.EditedView(from);
    return OfferSlots(s.data.slots);
  }

  /** The ASK_SLOT step: another day, a lost list, a bad number or a chosen opening. */
  method HandleAskSlot(store: Store, s: Session, from: Phone, text: string, t: string,
                       gatewayConfigured: bool, suggest: SuggestOutcome)
    returns (reply: Reply)
    requires store.Valid() && from in store.sessions && store.sessions[from] == s
    requires s.step == AskSlot && t == ToLower(text)
    modifies s
    ensures store.Valid()
    ensures store.View() == old(store.View())[from := Flow(old(s.State()), text, gatewayConfigured, suggest).0]
    ensures reply == Flow(old(s.State()), text, gatewayConfigured, suggest).1
  {
    if Contains(t, "otro") {
      s.step := AskDay;
      store.EditedView(from);
      return AnotherDayPrompt;
    }
    if |s.data.slots| == 0 {
      s.step := AskDay;
      store.EditedView(from);
      return ListLost;
    }
    var n := ParseIndex(t);
    var slots := s.data.slots;
    if n.None? || n.value - 1 < 0 || n.value - 1 >= |slots| {
      store.EditedView(from);
      return PickAgain;
    }
    var idx := n.value - 1;
    s.data := s.data.(slot := Some(slots[idx]));
    s.step := AskName;
    store.EditedView(from);
    return NamePrompt(slots[idx]);
  }

  /**
   * The server (src/server.js): a fresh store, then `handleIncomingMessage`
   * once per webhook body, one after another, on that one store. The store
   * and the replies are those of `Dialogue.Run`, so every session in it
   * satisfies the invariant of the booking dialogue.
   */
  method Serve(payloads: seq<Option<Message>>, gatewayConfigured: bool, suggests: seq<SuggestOutcome>)
    returns (store: Store, replies: seq<Option<Reply>>)
    requires |suggests| == |payloads|
    ensures store.Valid()
    ensures (store.View(), replies) == Run(map[], payloads, gatewayConfigured, suggests)
    ensures DialogueFacts.StoreInv(store.View())
  {
    store := new Store();
    replies := [];
    DialogueFacts.EmptyStoreInv();
    var i := 0;
    while i < |payloads|
      invariant 0 <= i <= |payloads|
      invariant fresh(store) && store.Valid()
      invariant forall q :: q in store.sessions ==> fresh(store.sessions[q])
      invariant (store.View(), replies) == Run(map[], payloads[..i], gatewayConfigured, suggests[..i])
      invariant DialogueFacts.StoreInv(store.View())
    {
      ghost var view := store.View();
      var reply := HandleIncomingMessage(store, payloads[i], gatewayConfigured, suggests[i]);
      DialogueFacts.IncomingPreservesStoreInv(view, payloads[i], gatewayConfigured, suggests[i]);
      assert payloads[..i + 1][..i] == payloads[..i];
      assert suggests[..i + 1][..i] == suggests[..i];
      replies := replies + [reply];
      i := i + 1;
    }
    assert payloads[..i] == payloads;
    assert suggests[..i] == suggests;
  }
}
