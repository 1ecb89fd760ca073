# Jundullah assistant bot: the conversation state machine

This project models the dialogue engine of the Jundullah Charitable
Association's Telegram bot. A user opens the bot with `/start` and moves
through ten conversation states: the main menu, the info menu, the
eligibility question, six free-text prompts of the membership form (name,
phone, email, address, profession, purpose), and the accept/decline
question. The conversation can also be inactive (`ConversationHandler.END`).
While the user fills the form, each answer goes into the per-user dictionary
`user_data`. On acceptance the six answers are appended as one row to a
Google sheet.

- `conversation.dfy` (module `Conversation`) defines the states and the
  events a user can send: a command, a button press carrying its callback
  data, or non-command text. It also holds the callback tokens and the
  routing table of the `ConversationHandler` (`Dispatch`). The handlers
  `start`, `back_to_main`, `main_menu`, `info_menu`, `register_eligibility`,
  `reg_name` … `reg_purpose` and `reg_accept` are pure functions of what
  they read (`MainMenuReply`, `InfoMenuReply`, `EligibilityReply`,
  `FormStep`, `Record`, `Apply`). `Transition` takes a `Snapshot`
  (state, user_data, sheet) through one update. The session invariant is
  `Consistent`: user_data holds only form keys, and every answer the form
  wrote on the way to the current state is present.
- `session.dfy` (module `Sessions`) holds the class `Session`. It keeps the
  state, user_data and the sheet as fields. `Step` routes one update and runs
  the handler, which overwrites one user_data key or appends one sheet row in
  place. Its contract ties the new fields to `Transition` and carries the
  invariant forward.
- `properties.dfy` (module `ConversationProperties`) holds two kinds of
  property. The first is the transition table, state by state: `/start` from
  anywhere, `back_main`, the main menu, the info menu, the eligibility
  question, the six form steps, and accept or decline. The second covers
  whole sequences of updates, via the fold `Run`: the invariant holds, user_data
  and the sheet only grow, appended rows are complete, END absorbs everything
  but `/start`, and a full registration appends exactly one row holding the
  answers in order.

Behaviour of the code that the model keeps:

- `user_data` is never cleared. This holds for `/start`, for `no_reg`, for
  `accept_no` and after a submission. A later registration overwrites the
  keys one by one.
- An update that no handler matches changes nothing. A handler that returns
  `None` changes nothing either. Examples: a button in a text state, text in
  a button state, any command other than `/start`, an unknown token in the
  main menu or at the eligibility question.
- The route to `back_to_main` uses the pattern `^back_main$` with Python's
  `re.match`, so it also matches `"back_main\n"` (`$` matches before a final
  newline). `IsBackMainPattern` states this.
- `reg_accept` submits on every token other than `accept_no` (and the routed
  `back_main`). An old button still on the screen counts too, such as `learn`
  from an earlier menu: pressing it at the accept question appends the row.
- A `KeyError` in `reg_accept` is modelled as an aborted handler: no row and
  no state change. `AcceptHasAllAnswers` and `RunKeepsConsistent` show that it
  cannot happen from a session that started consistent.

Behaviour of the code that a reader might expect to be different:

- `user_data` is not reset by `/start` or at END.
- The info topic keys are `obj`, `act`, `struct` and `rights`.
- `contact` stays in the main menu.
- Any non-`accept_no` token submits the form.
- A failing `append_row` (jundullah_bot.py:314) is not caught inside
  `reg_accept`. The exception ends the handler before it returns END, so by
  the same abort rule as for a `KeyError` the conversation stays at the
  accept question with user_data intact. The accept buttons are still on
  screen, and pressing one again retries the append. The model does not
  show this retry (see "## Left out").

## Model

| member | source | states |
|---|---|---|
| `Conversation.Dispatch` | jundullah_bot.py:337-369 | Exactly `/start` selects the entry/fallback handler. A text handler is chosen only for non-command text in a form state, and it receives that state's key, that state's successor and the message text. After END nothing but `/start` has a handler |
| `Conversation.Record` | jundullah_bot.py:306-313 | The row exists exactly when all six form keys are present; it then has six cells, cell i holding the answer to the i-th field in the order name, phone, email, address, profession, purpose |
| `Conversation.FormStep` | jundullah_bot.py:253-294 | Exactly the six text states `reg_name` … `reg_purpose` perform a form step. Each writes one form key not yet collected, and the next state's collected keys are the current ones plus that key. `FormStepStoresOneAnswer` gives the key and successor of each state |
| `Conversation.MainMenuReply` | jundullah_bot.py:146-194 | `main_menu` returns a state exactly for `learn`, `register` and `contact`, and falls through with None on every other token. The state it returns is the main menu, the info menu or the eligibility question, and it is the info menu exactly for `learn`. `MainMenuTransitions` gives the whole table |
| `Conversation.InfoMenuReply` | jundullah_bot.py:200-234 | `info_menu` returns the main menu exactly for `back_main` and the info menu for every other token: the four topics, `back_learn` and unknown tokens. `InfoMenuStays` shows that routing sends `back_main` to `back_to_main` first |
| `Conversation.EligibilityReply` | jundullah_bot.py:240-250 | `register_eligibility` returns a state exactly for `yes_reg` and `no_reg`, and it returns END exactly for `no_reg`. Every other token falls through with None. `EligibilityTransitions` gives the routed behaviour |
| `Conversation.Apply` | jundullah_bot.py:337-370 | Running a handler changes user_data only for a form text, and then only by storing the text under its key. It changes the sheet only for `reg_accept` when all six answers are present: the record of the answers is appended and the conversation ends |
| `Conversation.Transition` | jundullah_bot.py:337-370 | One update changes the sheet only for a button pressed at the accept question that ends the conversation. `TransitionKeepsConsistent`, `SheetAppendOnly` and `UserDataOnlyGrows` state the rest |
| `Sessions.Session.constructor` | jundullah_bot.py:337-338 | A new user has no active conversation and an empty user_data; the sheet keeps the rows it already had; the invariant holds |
| `Sessions.Session.Step` | jundullah_bot.py:333-370 | One update changes state, user_data and sheet exactly as `Transition` says. The session invariant is kept. The sheet keeps its earlier rows and gains at most one |
| `ConversationProperties.StartReenters` | jundullah_bot.py:122-141 | `/start` from any state, END included, moves to the main menu and leaves user_data and the sheet unchanged |
| `ConversationProperties.EndHandlesOnlyStart` | jundullah_bot.py:337-338 | With no active conversation, every update other than `/start` changes nothing |
| `ConversationProperties.EndAbsorbsAllButStart` | jundullah_bot.py:337-338 | From END, any sequence of updates without `/start` leaves the session exactly as it was |
| `ConversationProperties.BackMainReturnsToMenu` | jundullah_bot.py:115-118 | `back_main` in the main menu, info menu, eligibility question or accept question moves to the main menu and keeps user_data and the sheet. Pressing it a second time changes nothing |
| `ConversationProperties.MismatchedEventsIgnored` | jundullah_bot.py:340-369 | A button in a form state or after END, text outside the form states, and any command other than `/start` leave the session unchanged |
| `ConversationProperties.MainMenuTransitions` | jundullah_bot.py:146-194 | In the main menu `learn` opens the info menu and `register` the eligibility question; `contact`, `back_main` and every other token leave the state at the main menu; user_data and the sheet never change |
| `ConversationProperties.InfoMenuStays` | jundullah_bot.py:200-234 | In the info menu every token except `back_main` leaves the state at the info menu: the four topic keys, `back_learn` and unknown tokens alike, with nothing else changed |
| `ConversationProperties.EligibilityTransitions` | jundullah_bot.py:240-250 | At the eligibility question `yes_reg` goes to the name prompt and `no_reg` ends the conversation. Any other token apart from `back_main` leaves everything unchanged |
| `ConversationProperties.FormStepStoresOneAnswer` | jundullah_bot.py:253-294 | Each of the six text states stores the message under its own key: name, phone, email, address, profession or purpose. It adds exactly that key, changes no other and leaves the sheet alone. It moves one step down the form, and the purpose step moves to the accept question |
| `ConversationProperties.UserDataOnlyGrows` | jundullah_bot.py:253-284 | No update removes a user_data key. user_data changes only on a text message in a form state |
| `ConversationProperties.TransitionKeepsConsistent` | jundullah_bot.py:253-294 | Every update keeps the invariant: user_data holds only form keys, and each answer collected on the way to the current state is present |
| `ConversationProperties.RunKeepsConsistent` | jundullah_bot.py:306-313 | Any sequence of updates from a consistent session keeps the invariant, so whenever the accept question is reached the six lookups of `reg_accept` succeed |
| `ConversationProperties.AcceptHasAllAnswers` | jundullah_bot.py:306-313 | In a consistent session at the accept question the six-field row can be built |
| `ConversationProperties.AcceptNoDeclines` | jundullah_bot.py:301-303 | `accept_no` ends the conversation without touching the sheet or user_data, whatever the answers |
| `ConversationProperties.AcceptAppendsRow` | jundullah_bot.py:297-329 | In a consistent session at the accept question, any token other than `accept_no` and `back_main` ends the conversation. It appends exactly one row, `[name, phone, email, address, profession, purpose]` read from user_data, and leaves earlier rows untouched |
| `ConversationProperties.SheetAppendOnly` | jundullah_bot.py:305-314 | An update keeps the earlier rows and adds at most one. A new row is always the record of the answers in field order, written as the accept question ends the conversation |
| `ConversationProperties.SheetChangesOnlyOnSubmit` | jundullah_bot.py:301-314 | The sheet changes if and only if the update is a button other than `accept_no` and `back_main`, pressed at the accept question, with all six answers present |
| `ConversationProperties.RunOnlyGrows` | jundullah_bot.py:253-314 | Over any sequence of updates user_data loses no key, the sheet keeps its earlier rows, and it gains at most one row per update |
| `ConversationProperties.RunAppendsOnlyRecords` | jundullah_bot.py:306-314 | Every row any sequence of updates appends has exactly six cells |
| `ConversationProperties.FillForm` | jundullah_bot.py:253-294 | Six text messages starting at the name prompt reach the accept question, with each message stored under its field in order |
| `ConversationProperties.CompleteRegistration` | jundullah_bot.py:166-329 | From any session, `/start`, `register`, `yes_reg`, six answers and `accept_yes` end the conversation. They append exactly one row, equal to the six answers in the order given, and leave the answers in user_data |
| `ConversationProperties.RegistrationExample` | jundullah_bot.py:306-314 | A new user registering as "Ali Hassan", "0911000000", "ali@example.com", "Addis Ababa", "Engineer", "To help" produces one sheet row with exactly those cells and ends the conversation |

## Left out

- Telegram transport is not modelled: `reply_text`, `edit_message_text`,
  `query.answer()`, the inline keyboards and the Markdown texts are output
  through a library whose code is not part of this model. The model assumes
  every transport call succeeds. In particular, the summary that `reg_accept`
  sends after the append (jundullah_bot.py:316-323) is Markdown built from
  the user's own answers. An answer with an unpaired `_` or `*` may make
  `edit_message_text` raise after the row is written. The conversation
  would then stay at the accept question, and each further press would
  append another row. This depends on Telegram's Markdown parser and is not
  captured. The static `info` topic texts are left out; only their key set
  is kept.
- Loading the environment and credentials, the temporary key file, the
  gspread client, and a `sheet` left undefined when the connection fails
  (jundullah_bot.py:36-66) are left out. These are start-up I/O and foreign
  calls. The sheet is the `sheet` field, a sequence of rows.
- Failure of `append_row` (jundullah_bot.py:314) is not modelled. The
  append is treated as total, because its errors come from the store
  library, which is not visible. The model therefore does not show the
  retry that a failed append allows: the conversation staying at the accept
  question and a further press appending again.
- The Flask keep-alive thread (jundullah_bot.py:91-104) and `run_polling`
  are left out. They are networking and concurrency.
- The application-level `back_main` handlers (jundullah_bot.py:375-376)
  run whenever the conversation matches no handler for a `back_main` press.
  That happens in two cases. After END they redraw the main menu and leave
  the conversation inactive, which END absorbing every update but `/start`
  covers. In the six form states (jundullah_bot.py:356-361) a press on an
  older message also redraws the main menu, but the conversation stays at
  the form prompt, and the next text message is stored as that field's
  answer. The model keeps the state unchanged in both cases, as the
  conversation does. It does not model the mismatch between the screen and
  the state.
- Only one user's session is modelled. The per-user session maps and
  concurrent users are left out, since every property is per user.
- Commands are identified by name only. `/start@botname` and `/start` with
  arguments are the same `Command("start")`.
