/**
 * The in-memory session store of the bot (src/state.js): a process-wide map
 * from a user's phone number to that user's mutable session object. A
 * session is created on first access and replaced by a fresh one on reset;
 * the store hands out the stored object itself, so the dialogue's edits to
 * `step` and `data` are seen by the next message from the same phone.
 */
module State {
  import opened Wrappers

  /** The channel's identifier of a user (the WhatsApp id, a phone number). */
  type Phone = string

  /** An appointment opening; `labelText` (the `label` property) may be missing in a gateway reply. */
  datatype Slot = Slot(labelText: Option<string>, startIso: string, endIso: string)

  /** The opening has a label that `x.label || ...` shows as it is: present and non-empty. */
  predicate Labelled(x: Slot) {
    x.labelText.Some? && x.labelText.value != []
  }

  /**
   * The value of `s.step`. `Unknown(name)` stands for any other string a
   * session could hold; `Unknown("")` plays the falsy (missing) step.
   */
  datatype StepName = Idle | AskSpecialty | AskDay | AskSlot | AskName | Confirm | Unknown(name: string)

  /** The `s.data` record; `slots == []` stands for a missing list. */
  datatype SessionData = SessionData(
    specialty: Option<string>,
    dayText: Option<string>,
    slots: seq<Slot>,
    slot: Option<Slot>,
    name: Option<string>)

  /** `{}` */
  const EmptyData := SessionData(None, None, [], None, None)

  /** The value of one session object: its step and its data. */
  datatype SessionState = SessionState(step: StepName, data: SessionData)

  /** `{ step: "IDLE", data: {} }` */
  const InitialState := SessionState(Idle, EmptyData)

  /** The session `getSession(phone)` returns, as a value: the stored one, or a fresh one. */
  function Lookup(view: map<Phone, SessionState>, phone: Phone): (st: SessionState)
    ensures phone in view ==> st == view[phone]
    ensures phone !in view ==> st == InitialState
  {
    if phone in view then view[phone] else InitialState
  }

  /** What the store holds after `getSession(phone)`, as a map of values. */
  function GotView(view: map<Phone, SessionState>, phone: Phone): (r: map<Phone, SessionState>)
    ensures phone in r && r.Keys == view.Keys + {phone}
    ensures phone in view ==> r == view
    ensures phone !in view ==> r[phone] == InitialState
    ensures forall p :: p in view ==> r[p] == view[p]
  {
    if phone in view then view else view[phone := InitialState]
  }

  /** What the store holds after `resetSession(phone)`, as a map of values. */
  function ResetView(view: map<Phone, SessionState>, phone: Phone): (r: map<Phone, SessionState>)
    ensures r.Keys == view.Keys + {phone} && r[phone] == InitialState
    ensures forall p :: p in view && p != phone ==> r[p] == view[p]
  {
    view[phone := InitialState]
  }

  /** Replacing the session just got is replacing it in the store as it was. */
  lemma GotViewThenUpdate(view: map<Phone, SessionState>, phone: Phone, st: SessionState)
    ensures GotView(view, phone)[phone := st] == view[phone := st]
    ensures GotView(view, phone)[phone] == Lookup(view, phone)
  {
  }

  /** Getting a session twice is getting it once. */
  lemma GetIdempotent(view: map<Phone, SessionState>, phone: Phone)
    ensures GotView(GotView(view, phone), phone) == GotView(view, phone)
  {
  }

  /** Resetting a session twice is resetting it once. */
  lemma ResetIdempotent(view: map<Phone, SessionState>, phone: Phone)
    ensures ResetView(ResetView(view, phone), phone) == ResetView(view, phone)
  {
  }

  /** A session object, `{ step, data }`, updated in place by the dialogue. */
  class Session {
    var step: StepName
    var data: SessionData

    constructor ()
      ensures step == Idle && data == EmptyData
    {
      step, data := Idle, EmptyData;
    }

    function State(): (st: SessionState)
      reads this
      ensures st.step == step && st.data == data
    {
      SessionState(step, data)
    }
  }

  /** The module-level `sessions` Map. */
  class Store {
    var sessions: map<Phone, Session>

    /** Each phone owns its own session object: no two keys share one. */
    ghost predicate Valid()
      reads this
    {
      forall p, q :: p in sessions && q in sessions && p != q ==> sessions[p] != sessions[q]
    }

    /** The sessions' current values. */
    ghost function View(): map<Phone, SessionState>
      reads this, sessions.Values
    {
      map p | p in sessions :: sessions[p].State()
    }

    constructor ()
      ensures Valid() && sessions == map[] && View() == map[]
    {
      sessions := map[];
    }

    /**
     * Editing, in place, the session object stored under `phone` changes
     * the store's value at `phone` and nowhere else.
     */
    twostate lemma EditedView(phone: Phone)
      requires old(Valid()) && phone in old(sessions) && sessions == old(sessions)
      requires forall q :: q in sessions && q != phone ==> unchanged(sessions[q])
      ensures Valid()
      ensures View() == old(View())[phone := sessions[phone].State()]
    {
    }

    /**
     * `getSession(phone)`: the stored session, created as
     * `{ step: "IDLE", data: {} }` when the phone has none yet.
     */
    method GetSession(phone: Phone) returns (s: Session)
      requires Valid()
      modifies this
      ensures Valid()
      ensures phone in sessions && s == sessions[phone]
      ensures old(phone in sessions) ==> sessions == old(sessions)
      ensures old(phone !in sessions) ==> fresh(s) && sessions == old(sessions)[phone := s]
      ensures View() == GotView(old(View()), phone)
      ensures s.State() == Lookup(old(View()), phone)
    {
      if phone !in sessions {
        var created := new Session();
        sessions := sessions[phone := created];
      }
      s := sessions[phone];
    }

    /** `resetSession(phone)`: a fresh `{ step: "IDLE", data: {} }` under `phone`. */
    method ResetSession(phone: Phone)
      requires Valid()
      modifies this
      ensures Valid()
      ensures phone in sessions && fresh(sessions[phone])
      ensures sessions == old(sessions)[phone := sessions[phone]]
      ensures View() == ResetView(old(View()), phone)
    {
      var created := new Session();
      sessions := sessions[phone := created];
    }
  }
}
