# clinic-bot booking dialogue, modelled in Dafny

The bot answers WhatsApp messages for a clinic. Each phone number has one
session object `{ step, data }` in an in-memory map. `handleIncomingMessage`
does three things with a message:

- it handles the global commands first (`hola`/`menu`/`menú` show the menu,
  `cancelar`/`reiniciar` cancel), and both reset the session;
- it hands a session inside the booking flow to `handleBookingFlow`;
- it answers any other session from the IDLE menu (`cita` or `1` starts a
  booking, `precio` or `2` gives prices, `horario` or `3` gives opening hours).

`handleBookingFlow` walks ASK_SPECIALTY → ASK_DAY → ASK_SLOT → ASK_NAME →
CONFIRM. It edits `s.step` and `s.data` in place. At ASK_DAY it asks an
external scheduling script for up to three openings, or offers three fixed
placeholders when the script URL is unusable.

The project has five modules:

- `Wrappers` (wrappers.dfy): `Option`.
- `Text` (text.dfy): the JavaScript string operations the dialogue depends
  on. These are `trim` with ECMAScript's white-space set, `toLowerCase`,
  `includes`, `Number(t)` for reading a slot number, and the decimal rendering
  of a number in a template literal.
- `State` (state.js → state.dfy):
  - the session store as a class `Store` over `map<Phone, Session>`, where
    `Session` is a class whose fields are edited in place;
  - `GetSession` and `ResetSession` as methods;
  - `View()`, the store seen as a map of values, and the functions
    `Lookup`, `GotView` and `ResetView` that specify the methods on it.
- `Dialogue` (dialogue.dfy): one message as a function of values. `Flow` is
  `handleBookingFlow`, `IdleMenu` is the IDLE menu, `Respond` is the command
  dispatch and `Incoming` is the whole `handleIncomingMessage` on the store's
  values. `Run` is a sequence of webhook calls on one store.
- `DialogueFacts` (dialogue_facts.dfy): the promises of the dialogue, proved
  about those functions. Every step is covered, and so is the invariant that
  all reachable sessions keep.
- `WhatsApp` (whatsapp.dfy): `handleIncomingMessage` and `handleBookingFlow`
  as imperative methods over the `Store` and `Session` objects. They are
  proved to leave the store's view and to return exactly what `Incoming` and
  `Flow` compute. The module also holds the `forEach` loop that renders the
  slot menu, and `Serve`, the server of src/server.js: one store, then one
  `handleIncomingMessage` call per webhook body.

Some inputs come from outside the program. They are parameters:

- `gatewayConfigured` stands for `APPS_SCRIPT_URL` being set and starting
  with `https://`.
- The result of the "suggest" call is a `SuggestOutcome`: the call threw, or
  it answered with a `slots` value that is an array (`Some`) or not (`None`).
- A reply is a `Reply` value instead of Spanish text. The handlers return
  `OfferSlots(list)` for the slot menu; the text of that menu is a separate
  function of the offered list, `OfferText`, which the `forEach` loop
  (`RenderOffer`) is proved to build character for character.

Three things a booking bot might be expected to do, the code does not do, and
the model follows the code:

- There is no intent or entity extractor. The specialty is the raw trimmed
  text (src/whatsapp.js:88).
- At CONFIRM, every input other than the four affirmative words cancels. The
  code never re-prompts (src/whatsapp.js:191-194).
- A failed save call is logged and swallowed. The user still gets the success
  summary, and the session is reset to IDLE. Nothing routes back to an
  earlier step (src/whatsapp.js:211-227).

## Model

| member | source | states |
|---|---|---|
| State.Lookup | src/state.js:5-10 | the session `getSession` hands back, as a value: the stored one when the phone has one, else `{IDLE, {}}` |
| State.GotView | src/state.js:5-10 | after `getSession(k)`, k is present; an existing session is kept as it was, an unseen k gets `{IDLE, {}}`; every other key is unchanged |
| State.ResetView | src/state.js:12-14 | after `resetSession(k)`, k maps to `{IDLE, {}}` whatever it held, and every other key is unchanged |
| State.GotViewThenUpdate | src/state.js:6-9 | replacing the session that `getSession` just returned equals replacing it in the store as it was before the call |
| State.GetIdempotent | src/state.js:5-10 | calling `getSession` twice leaves the store as calling it once |
| State.ResetIdempotent | src/state.js:12-14 | calling `resetSession` twice leaves the store as calling it once |
| State.Labelled | src/whatsapp.js:142 | the truthiness of `x.label` (also of `s.data.slot?.label` at src/whatsapp.js:181 and 221): present and non-empty; no contract of its own, used by `WhatsApp.OptionLabel`, `DialogueFacts.SummaryComplete` and `DialogueFacts.FallbackSlotsLabelled` |
| State.Session.constructor | src/state.js:7 | a new session object is `{ step: "IDLE", data: {} }` |
| State.Session.State | src/state.js:7 | the value of a session object is its current `step` and `data` |
| State.Store.constructor | src/state.js:3 | the store starts as an empty map |
| State.Store.EditedView | src/state.js:9 | the store hands out the stored object itself: an in-place edit of the session under k changes the store's value at k and at no other key |
| State.Store.GetSession | src/state.js:5-10 | returns the object stored under k and creates a fresh `{IDLE, {}}` object only when k was absent; the new store is `GotView` of the old one, and the returned session's value is `Lookup` of it |
| State.Store.ResetSession | src/state.js:12-14 | stores a fresh object under k; the new store is `ResetView` of the old one; no other key changes |
| Text.Trim | src/whatsapp.js:30 | the result is a slice of the input with only white space outside it, and it neither starts nor ends with white space |
| Text.TrimIdempotent | src/whatsapp.js:30 | trimming a trimmed text changes nothing |
| Text.LowerChar | src/whatsapp.js:31 | a character changes exactly when it is one of the modelled capitals, and the result is never such a capital; ASCII and Latin-1 capitals move by 32, the Kelvin sign becomes `k` |
| Text.ToLower | src/whatsapp.js:31 | same length, each character lower-cased on its own; no modelled capital is left, and a character is kept exactly when it has no modelled lower form |
| Text.ToLowerIdempotent | src/whatsapp.js:31 | lower-casing a lower-cased text changes nothing |
| Text.Contains | src/whatsapp.js:64 | `t.includes(w)` holds exactly when `w` occurs in `t` at some position |
| Text.MissingCharExcludes | src/whatsapp.js:64 | a text lacking one character of `w` does not include `w` |
| Text.ParseIndex | src/whatsapp.js:161 | the model reads `t` as an integer exactly when `t` is an optional sign followed by digits, and its value is the digits' value with that sign (the forms of `Number` it does not read are under "Left out") |
| Text.Decimal | src/whatsapp.js:142 | the rendering of `i + 1` in the menu is a non-empty string of digits whose first digit is 0 only for the number 0, so there is no leading zero |
| Text.ParseDecimal | src/whatsapp.js:142 | a number rendered in the menu reads back, with or without a `+`, as that number |
| Dialogue.MessageText | src/whatsapp.js:30 | the trimmed text body, or the empty text when the message has none; no contract of its own, its properties are those of `Text.Trim` |
| Dialogue.IsMenuCommand | src/whatsapp.js:34 | the lower-cased text is exactly `hola`, `menu` or `menú`; no contract of its own, used by `DialogueFacts.MenuCommandFromEveryStep` and `DialogueFacts.CommandsAreNotMenuWords` |
| Dialogue.IsCancelCommand | src/whatsapp.js:46 | the lower-cased text is exactly `cancelar` or `reiniciar`; no contract of its own, used by `DialogueFacts.CancelCommandFromEveryStep` and `DialogueFacts.CommandsAreNotMenuWords` |
| Dialogue.IsGlobalCommand | src/whatsapp.js:34-49 | either command test, checked before any step handling; no contract of its own, used by `DialogueFacts.CommandsAreNotMenuWords` and the step lemmas |
| Dialogue.IsActive | src/whatsapp.js:59 | `s.step && s.step !== "IDLE"`; no contract of its own, used by `Respond` and the IDLE lemmas (`IdleBookingStarts`, `IdleOtherKeepsSession`) |
| Dialogue.IsAffirmative | src/whatsapp.js:189 | the four yes-words; no contract of its own, used by `ConfirmAlwaysEndsIdle` and `KelvinSignConfirms` |
| Dialogue.FallbackSlots | src/whatsapp.js:99-103 | the three placeholder openings with their labels and empty times; specified by `FallbackSlotsLabelled` and `FallbackOfferIsLoopOffer` |
| Dialogue.FirstThree | src/whatsapp.js:137 | `slots.slice(0, 3)` is the prefix of length min(3, n) |
| Dialogue.SelectSlot | src/whatsapp.js:161-164 | a reply selects 0-based index i exactly when it reads as the integer i + 1 with i < count; otherwise it reads as no integer or one outside 1..count |
| Dialogue.IdleMenu | src/whatsapp.js:63-81 | the IDLE menu; no contract of its own, specified by `DialogueFacts.IdleBookingStarts` and `DialogueFacts.IdleOtherKeepsSession`, and implemented by `WhatsApp.HandleIdleMenu` |
| Dialogue.Flow | src/whatsapp.js:85-234 | one step of `handleBookingFlow` on values; no contract of its own, specified step by step by `SpecialtyStoresText`, `DayStep`, `StaleListIgnored`, `SlotStep`, `NameStoresText`, `ConfirmAlwaysEndsIdle` and `UnknownStepRestarts`, and implemented by `WhatsApp.HandleBookingFlow` |
| Dialogue.Respond | src/whatsapp.js:30-61 | global commands first, then the flow for an active session, else the IDLE menu; no contract of its own, specified by `MenuCommandFromEveryStep`, `CancelCommandFromEveryStep`, `RespondPreservesInv` and the step lemmas |
| Dialogue.Incoming | src/whatsapp.js:21-82 | a payload without a message changes no session and gets no reply; any other payload gets exactly one reply, adds the sender's key and leaves every other key's session unchanged |
| Dialogue.Run | src/server.js:13-20 | one `handleIncomingMessage` call per webhook body, in order, on one store: one reply entry per payload, present exactly when the payload has a message, and the store's keys afterwards are the keys before plus the senders of those messages |
| DialogueFacts.MenuCommandFromEveryStep | src/whatsapp.js:30-44 | from every step, `hola`/`menu`/`menú` in any case reset the session to `{IDLE, {}}` and show the menu |
| DialogueFacts.CancelCommandFromEveryStep | src/whatsapp.js:46-49 | from every step, `cancelar`/`reiniciar` reset the session to `{IDLE, {}}` and acknowledge the cancellation |
| DialogueFacts.IdleReachableFromEveryStep | src/whatsapp.js:30-49 | from every session a single message (`cancelar`, or `MENÚ` in capitals) leads back to `{IDLE, {}}` |
| DialogueFacts.CommandsAreNotMenuWords | src/whatsapp.js:34-74 | no global command contains `cita`, `precio` or `horario`, so the command checks and the menu never compete |
| DialogueFacts.IdleBookingStarts | src/whatsapp.js:64-68 | at IDLE, a text containing `cita`, or exactly `1`, sets ASK_SPECIALTY with empty data, even when it also mentions prices or hours |
| DialogueFacts.IdleOtherKeepsSession | src/whatsapp.js:70-81 | at IDLE, every other text leaves the session as it was; the reply is Prices exactly for `precio`/`2`, Hours exactly for `horario`/`3` when not prices, and otherwise NotUnderstood |
| DialogueFacts.SpecialtyStoresText | src/whatsapp.js:87-91 | ASK_SPECIALTY stores the trimmed text in its original case as the specialty, keeps the rest of the data and moves to ASK_DAY |
| DialogueFacts.DayStep | src/whatsapp.js:94-147 | ASK_DAY always records the day text. It moves to ASK_SLOT exactly when there is a list to offer: the three placeholders without a usable URL, else the first three suggested openings. It stores that list of 1..3 in the same step and offers it. Otherwise it stays at ASK_DAY with only the day text changed and reports the failure or the empty day |
| DialogueFacts.StaleListIgnored | src/whatsapp.js:94-153 | the list a session keeps at ASK_DAY (for instance after `otro`) never influences the next step, and once at ASK_SLOT the list is the newly assigned one |
| DialogueFacts.SlotStep | src/whatsapp.js:150-171 | at ASK_SLOT, in this order: `otro` goes back to ASK_DAY; a missing list goes back to ASK_DAY; a reply reading as n with 1 <= n <= count chooses `slots[n-1]` and moves to ASK_NAME; any other reply leaves the session unchanged and asks again |
| DialogueFacts.ShownNumberSelectsSlot | src/whatsapp.js:140-170 | typing the number the menu shows next to an opening selects exactly that opening |
| DialogueFacts.NameStoresText | src/whatsapp.js:174-185 | ASK_NAME stores the text as the name, keeps the other fields, moves to CONFIRM and shows the collected data |
| DialogueFacts.ConfirmAlwaysEndsIdle | src/whatsapp.js:188-229 | every message at CONFIRM ends at `{IDLE, {}}`: `si`/`sí`/`ok`/`confirmo` send the summary of the collected data, anything else cancels |
| DialogueFacts.UnknownStepRestarts | src/whatsapp.js:231-233 | a session whose step the flow does not know is reset and told it was restarted |
| DialogueFacts.InitialStateInv | src/state.js:7 | a fresh session satisfies the invariant of reachable sessions |
| DialogueFacts.RespondPreservesInv | src/whatsapp.js:85-233 | every message keeps the invariant: data is empty at IDLE and ASK_SPECIALTY, from ASK_SLOT on there is a list of 1..3 openings, and the chosen opening at ASK_NAME and CONFIRM is an element of that list |
| DialogueFacts.EmptyStoreInv | src/state.js:3 | the empty store the bot starts with has the invariant for every session |
| DialogueFacts.IncomingPreservesStoreInv | src/whatsapp.js:21-82 | each webhook call keeps the invariant for every session in the store |
| DialogueFacts.RunPreservesStoreInv | src/server.js:13-20 | any sequence of webhook calls on one store keeps the invariant for every session in it |
| DialogueFacts.ListNeverLost | src/whatsapp.js:156-159 | in a reachable session at ASK_SLOT the "list lost" branch is never taken |
| DialogueFacts.SummaryComplete | src/whatsapp.js:174-225 | the summaries sent at ASK_NAME and CONFIRM always have the specialty and the name set (possibly to the empty text) and a chosen opening from the session's offered list; when every offered opening is labelled, the chosen one is labelled, so the `"-"` and day-text stand-ins are not shown |
| DialogueFacts.FallbackSlotsLabelled | src/whatsapp.js:99-103 | the three placeholder openings all carry non-empty labels |
| DialogueFacts.KelvinSignConfirms | src/whatsapp.js:189 | at CONFIRM, "O" followed by the Kelvin sign lower-cases to `ok` and confirms, as in JavaScript |
| WhatsApp.OptionLabel | src/whatsapp.js:142 | a slot's own non-empty label is shown, and a missing or empty label is replaced by a non-empty default |
| WhatsApp.MenuLine | src/whatsapp.js:142 | the template of one menu line: number, keycap marks, a space, the caption and a line break; no contract of its own, used by `WhatsApp.ThreeLabelledOffer` and `WhatsApp.FallbackOfferIsLoopOffer` |
| WhatsApp.OptionLine | src/whatsapp.js:142 | the line of the opening at 0-based position i, numbered i + 1 and captioned by `OptionLabel`; no contract of its own, used by `WhatsApp.OptionListedInPlace` and `WhatsApp.ThreeLabelledOffer` |
| WhatsApp.ThreeLabelledOffer | src/whatsapp.js:140-144 | the menu for three labelled openings, written out line by line, is `OfferText` of them |
| WhatsApp.OptionLines | src/whatsapp.js:141-143 | the lines of the menu, one per opening; no contract of its own, specified by `OptionListedInPlace` and built by `RenderOffer` |
| WhatsApp.OfferText | src/whatsapp.js:140-144 | header, option lines and footer; no contract of its own, it is the specification of `RenderOffer` and `FallbackOfferIsLoopOffer` |
| WhatsApp.OptionListedInPlace | src/whatsapp.js:141-143 | the line for opening i follows the lines of openings 0..i-1 in the rendered list: the openings are listed in order |
| WhatsApp.FallbackOfferIsLoopOffer | src/whatsapp.js:99-113 | the fixed message written out for the three placeholders is the message the loop builds for them |
| WhatsApp.RenderOffer | src/whatsapp.js:140-144 | the `forEach` loop produces header, one numbered line per opening in order, and footer |
| WhatsApp.HandleIncomingMessage | src/whatsapp.js:21-82 | the in-place handler leaves the store with the view `Incoming` computes, returns its reply and keeps every phone's session its own object; the map of session objects is either unchanged or differs only at the sender's key, which holds a newly made session (from `resetSession` or a first `getSession`), so a caller can make the next call on the same store |
| WhatsApp.HandleIdleMenu | src/whatsapp.js:63-81 | the IDLE menu edits only the sender's session, as `IdleMenu` says |
| WhatsApp.HandleBookingFlow | src/whatsapp.js:85-234 | the in-place booking step changes the store only at the sender's key, to the value `Flow` computes, and returns `Flow`'s reply; the map of session objects is either unchanged or differs only at the sender's key, which holds a new session made by `resetSession` |
| WhatsApp.Serve | src/server.js:13-20 | starting from the empty store, each webhook body is handled by `HandleIncomingMessage` in turn on the same store; the store afterwards and the replies are those of `Dialogue.Run`, and every session in the store satisfies the invariant of the dialogue |
| WhatsApp.HandleAskDay | src/whatsapp.js:94-147 | the ASK_DAY step in place, as `Flow` specifies it |
| WhatsApp.HandleAskSlot | src/whatsapp.js:150-171 | the ASK_SLOT step in place, as `Flow` specifies it |

## Left out

- `handleWebhookVerification` (src/whatsapp.js:9-18) is an HTTP query check against an environment variable. It is pure I/O.
- `sendText` (src/whatsapp.js:237-254) is an HTTP POST to the Graph API. Replies are returned as `Reply` values instead.
- The "suggest" call to the scheduling script (src/whatsapp.js:116-127) is an input parameter, `SuggestOutcome`.
- The "save" call (src/whatsapp.js:196-214) is left out. Its failure is swallowed and it changes no session.
- `console.log` diagnostics are left out, and so is reading `process.env`. The URL check is the boolean `gatewayConfigured`.
- Messages from the same phone can interleave across the `await`s against the unlocked map. That is concurrency; each message is modelled as one atomic step.
- The wording of the replies is not modelled. The exception is the slot menu built by the loop; the fixed placeholder message is proved equal to it.
- src/server.js: the Express wiring, the HTTP status (always 200) and the `catch` that logs a failed call are left out; `WhatsApp.Serve` models only the order of the `handleIncomingMessage` calls on one store.
- src/src/whatsapp.js (a stub that sends a fixed greeting) is not part of this model.
- Text.ParseIndex: JavaScript's `Number` also accepts decimals with a zero fraction ("2.0"), exponents ("2e0"), hexadecimal ("0x2") and similar forms. The model reads these as no number, so such a reply re-prompts where the bot would select a slot.
- Text.LowerChar, Text.ToLower: only the capitals whose lower-case form is one ASCII or Latin-1 character are lowered (A..Z, U+00C0..U+00DE except U+00D7, U+0178, U+1E9E, U+212A, U+212B). The other capitals are kept. In JavaScript they lower to characters outside ASCII and Latin-1, or, for U+0130, to `i` followed by U+0307. So none of them can make a text equal to, or contain, one of the dialogue's words, but the lowered text differs from JavaScript's on them.
- DialogueFacts.ConfirmAlwaysEndsIdle: delivery of replies is assumed to succeed. At CONFIRM with a yes, the code awaits `sendText` (src/whatsapp.js:216) before `resetSession` (src/whatsapp.js:227). If that send fails, the rejection skips the reset, the session stays at CONFIRM with its data, and the next yes saves a second time. Every other branch changes the session before it sends, so only this one depends on delivery. The same holds for `WhatsApp.HandleBookingFlow`, which always resets here.
- Dialogue.Message: the sender is always a string. A message without `from` would key the map by `undefined`.
- State.Slot: the gateway's slots are records with an optional label. A non-object element of the `slots` array is not represented.
