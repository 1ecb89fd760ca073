/** The conversation engine of the Jundullah assistant bot: the ten dialogue
    states, the events a user can send, the routing table that picks a handler
    for each (state, event), the handlers themselves, and the pure transition
    function over a snapshot of one user's session. */
module Conversation {

  datatype Option<+T> = None | Some(value: T)

  /** The ten conversation states, plus `End` for ConversationHandler.END
      (no active conversation). */
  datatype State =
    | MainMenu | InfoMenu | RegisterEligible
    | RegName | RegPhone | RegEmail | RegAddress
    | RegProf | RegPurpose | RegAccept
    | End

  /** What one update from the chat carries: a bot command (`/start` is
      `Command("start")`), a press on an inline button with its callback data,
      or a plain text message that is not a command. */
  datatype Event =
    | Command(name: string)
    | Button(token: string)
    | Text(text: string)

  const StartCmd: Event := Command("start")

  // Callback-data tokens of the inline keyboards.
  const BackMain := "back_main"
  const Learn := "learn"
  const Register := "register"
  const Contact := "contact"
  const BackLearn := "back_learn"
  const YesReg := "yes_reg"
  const NoReg := "no_reg"
  const AcceptYes := "accept_yes"
  const AcceptNo := "accept_no"
  /** The keys of the static `info` topics of the info menu. */
  const Topics: set<string> := {"obj", "act", "struct", "rights"}

  // Keys of user_data written by the registration form, in the order of the sheet row.
  const Name := "name"
  const Phone := "phone"
  const Email := "email"
  const Address := "address"
  const Profession := "profession"
  const Purpose := "purpose"
  const Fields: seq<string> := [Name, Phone, Email, Address, Profession, Purpose]
  const FieldSet: set<string> := {Name, Phone, Email, Address, Profession, Purpose}

  /** One user's session as the bot holds it: the conversation state, the
      per-user dictionary `user_data`, and the rows of the Google sheet. */
  datatype Snapshot = Snapshot(state: State, userData: map<string, string>, sheet: seq<seq<string>>)

  /** The pattern `^back_main$` as Python's `re.match` applies it: `$` also
      matches just before a final newline. */
  predicate IsBackMainPattern(t: string)
  {
    t == BackMain || t == BackMain + "\n"
  }

  /** The handler the conversation picks for an event, with the payload it reads. */
  datatype Handler =
    | Start
    | BackToMain
    | MainMenuCb(token: string)
    | InfoMenuCb(token: string)
    | EligibilityCb(token: string)
    | FieldText(key: string, next: State, text: string)
    | AcceptCb(token: string)
    | Unhandled

  /** The registration step a text state performs: the user_data key it
      writes and the state it returns. */
  function FormStep(s: State): (r: Option<(string, State)>)
    ensures r.Some? <==> s in {RegName, RegPhone, RegEmail, RegAddress, RegProf, RegPurpose}
    ensures r.Some? ==> r.value.0 in FieldSet && r.value.0 !in Collected(s)
                        && Collected(r.value.1) == Collected(s) + {r.value.0}
  {
    match s
    case RegName => Some((Name, RegPhone))
    case RegPhone => Some((Phone, RegEmail))
    case RegEmail => Some((Email, RegAddress))
    case RegAddress => Some((Address, RegProf))
    case RegProf => Some((Profession, RegPurpose))
    case RegPurpose => Some((Purpose, RegAccept))
    case _ => None
  }

  /** The routing table of the ConversationHandler: `/start` is the entry
      point and the fallback; the button states try `^back_main$` first and
      then their own callback handler; the text states accept only non-command
      text. Anything else is matched by no handler. */
  function Dispatch(s: State, e: Event): (h: Handler)
    ensures h == Start <==> e == StartCmd
    ensures h.FieldText? ==> e.Text? && FormStep(s) == Some((h.key, h.next)) && h.text == e.text
    ensures s == End && e != StartCmd ==> h == Unhandled
  {
    match e
    case Command(name) =>
      if name == "start" then Start else Unhandled
    case Button(t) =>
      if s in {MainMenu, InfoMenu, RegisterEligible, RegAccept} && IsBackMainPattern(t) then BackToMain
      else if s == MainMenu then MainMenuCb(t)
      else if s == InfoMenu then InfoMenuCb(t)
      else if s == RegisterEligible then EligibilityCb(t)
      else if s == RegAccept then AcceptCb(t)
      else Unhandled
    case Text(x) =>
      match FormStep(s)
      case Some((k, n)) => FieldText(k, n, x)
      case None => Unhandled
  }

  /** `main_menu`: the state it returns, or None when it falls through. */
  function MainMenuReply(t: string): (r: Option<State>)
    ensures r.Some? <==> t in {Learn, Register, Contact}
    ensures r.Some? ==> r.value in {MainMenu, InfoMenu, RegisterEligible}
    ensures r == Some(InfoMenu) <==> t == Learn
  {
    if t == Learn then Some(InfoMenu)
    else if t == Register then Some(RegisterEligible)
    else if t == Contact then Some(MainMenu)
    else None
  }

  /** `info_menu`: a topic page, the back-to-learn submenu and any other token
      all stay in the info menu; exactly "back_main" goes through
      `back_to_main`, which returns the main menu. */
  function InfoMenuReply(t: string): (r: State)
    ensures r == MainMenu <==> t == BackMain
    ensures r != MainMenu ==> r == InfoMenu
  {
    if t in Topics then InfoMenu
    else if t == BackMain then MainMenu
    else if t == BackLearn then InfoMenu
    else InfoMenu
  }

  /** `register_eligibility`: the state it returns, or None when it falls through. */
  function EligibilityReply(t: string): (r: Option<State>)
    ensures r.Some? <==> t == YesReg || t == NoReg
    ensures r == Some(End) <==> t == NoReg
  {
    if t == NoReg then Some(End)
    else if t == YesReg then Some(RegName)
    else None
  }

  /** The sheet row `reg_accept` builds from user_data, or None when one of
      the six lookups would raise KeyError. */
  function Record(d: map<string, string>): (r: Option<seq<string>>)
    ensures r.Some? <==> FieldSet <= d.Keys
    ensures r.Some? ==> |r.value| == |Fields| && forall i :: 0 <= i < |Fields| ==> Fields[i] in d && r.value[i] == d[Fields[i]]
  {
    if Name in d && Phone in d && Email in d && Address in d && Profession in d && Purpose in d then
      Some([d[Name], d[Phone], d[Email], d[Address], d[Profession], d[Purpose]])
    else
      None
  }

  /** The effect of running handler `h` on snapshot `c`. A handler that
      returns None leaves the state as it is; a KeyError in `reg_accept`
      aborts the handler before the sheet or the state changes. */
  function Apply(c: Snapshot, h: Handler): (r: Snapshot)
    ensures r.userData == c.userData || (h.FieldText? && r.userData == c.userData[h.key := h.text])
    ensures r.sheet == c.sheet || (h.AcceptCb? && r.state == End && Record(c.userData).Some?
                                   && r.sheet == c.sheet + [Record(c.userData).value])
  {
    match h
    case Start => c.(state := MainMenu)
    case BackToMain => c.(state := MainMenu)
    case MainMenuCb(t) =>
      (match MainMenuReply(t) case Some(s) => c.(state := s) case None => c)
    case InfoMenuCb(t) => c.(state := InfoMenuReply(t))
    case EligibilityCb(t) =>
      (match EligibilityReply(t) case Some(s) => c.(state := s) case None => c)
    case FieldText(k, n, x) => c.(state := n, userData := c.userData[k := x])
    case AcceptCb(t) =>
      if t == AcceptNo then c.(state := End)
      else (match Record(c.userData)
            case Some(row) => c.(state := End, sheet := c.sheet + [row])
            case None => c)
    case Unhandled => c
  }

  /** The user_data keys the form has necessarily written once state `s` is reached. */
  function Collected(s: State): set<string>
  {
    match s
    case RegPhone => {Name}
    case RegEmail => {Name, Phone}
    case RegAddress => {Name, Phone, Email}
    case RegProf => {Name, Phone, Email, Address}
    case RegPurpose => {Name, Phone, Email, Address, Profession}
    case RegAccept => {Name, Phone, Email, Address, Profession, Purpose}
    case _ => {}
  }

  /** The session invariant: user_data holds only form keys, and every key
      the form wrote on the way to the current state is present. */
  predicate Consistent(c: Snapshot)
  {
    && c.userData.Keys <= FieldSet
    && Collected(c.state) <= c.userData.Keys
  }

  /** One update processed by the conversation: the routing table picks the
      handler and the handler's effect is applied. */
  function Transition(c: Snapshot, e: Event): (r: Snapshot)
    ensures r.sheet == c.sheet || (c.state == RegAccept && e.Button? && r.state == End)
  {
    Apply(c, Dispatch(c.state, e))
  }
}
