/** One user's live conversation: the state the ConversationHandler keeps for
    the user, the per-user dictionary `context.user_data` that the form
    handlers write in place, and the Google sheet that `reg_accept` appends to. */
module Sessions {
  import opened Conversation
  import ConversationProperties

  class Session {
    var state: State
    var userData: map<string, string>
    var sheet: seq<seq<string>>

    /** The session as a value, for the pure transition function. */
    function View(): Snapshot
      reads this
    {
      Snapshot(state, userData, sheet)
    }

    ghost predicate Valid()
      reads this
    {
      Consistent(View())
    }

    /** A user with no conversation yet, an empty user_data, and a sheet that
        already holds `existing` rows. */
    constructor (existing: seq<seq<string>>)
      ensures View() == Snapshot(End, map[], existing)
      ensures Valid()
    {
      state := End;
      userData := map[];
      sheet := existing;
    }

    /** Processes one update: the routing table picks a handler, the handler
        runs, and the state it returns (if any) becomes the new state. */
    method Step(e: Event)
      modifies this
      ensures View() == Transition(old(View()), e)
      ensures old(Valid()) ==> Valid()
      ensures |sheet| <= |old(sheet)| + 1 && sheet[..|old(sheet)|] == old(sheet)
    {
      var h := Dispatch(state, e);
      match h {
        case Start =>
          state := MainMenu;
        case BackToMain =>
          state := MainMenu;
        case MainMenuCb(t) =>
          var next := MainMenuReply(t);
          if next.Some? {
            state := next.value;
          }
        case InfoMenuCb(t) =>
          state := InfoMenuReply(t);
        case EligibilityCb(t) =>
          var next := EligibilityReply(t);
          if next.Some? {
            state := next.value;
          }
        case FieldText(key, next, text) =>
          userData := userData[key := text];
          state := next;
        case AcceptCb(t) =>
          if t == AcceptNo {
            state := End;
          } else {
            var row := Record(userData);
            if row.Some? {
              sheet := sheet + [row.value];
              state := End;
            }
          }
        case Unhandled =>
      }
      if old(Valid()) {
        ConversationProperties.TransitionKeepsConsistent(old(View()), e);
      }
    }
  }
}
