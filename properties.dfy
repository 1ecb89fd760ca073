/** Properties of the conversation: the transition table state by state, the
    session invariant, the registration run end to end, and what a sequence
    of updates can do to user_data and the sheet. */
module ConversationProperties {
  import opened Conversation

  /** `/start` re-enters the main menu from every state, END included, and
      touches neither user_data nor the sheet. */
  lemma StartReenters(c: Snapshot)
    ensures Transition(c, StartCmd) == c.(state := MainMenu)
  {
  }

  /** After END only `/start` is handled. */
  lemma EndHandlesOnlyStart(c: Snapshot, e: Event)
    requires c.state == End && e != StartCmd
    ensures Transition(c, e) == c
  {
  }

  /** user_data only gains keys, and only a text message in a form state writes it. */
  lemma UserDataOnlyGrows(c: Snapshot, e: Event)
    ensures c.userData.Keys <= Transition(c, e).userData.Keys
    ensures Transition(c, e).userData != c.userData ==> e.Text? && FormStep(c.state).Some?
  {
  }

  /** The sheet is append-only and gains at most one row per update; a new
      row is always the six answers in field order, written on leaving the
      accept state. */
  lemma SheetAppendOnly(c: Snapshot, e: Event)
    ensures var r := Transition(c, e);
            && |c.sheet| <= |r.sheet| <= |c.sheet| + 1
            && r.sheet[..|c.sheet|] == c.sheet
            && (|r.sheet| > |c.sheet| ==>
                  c.state == RegAccept && r.state == End && Record(c.userData) == Some(r.sheet[|c.sheet|]))
  {
  }

  /** Every update keeps the session invariant. */
  lemma TransitionKeepsConsistent(c: Snapshot, e: Event)
    requires Consistent(c)
    ensures Consistent(Transition(c, e))
  {
  }

  /** The conversation after a sequence of updates, one at a time. */
  function Run(c: Snapshot, es: seq<Event>): Snapshot
    decreases |es|
  {
    if es == [] then c else Run(Transition(c, es[0]), es[1..])
  }

  /** Every sequence of updates keeps the session invariant. */
  lemma {:induction false} RunKeepsConsistent(c: Snapshot, es: seq<Event>)
    requires Consistent(c)
    ensures Consistent(Run(c, es))
    decreases |es|
  {
    if es != [] {
      TransitionKeepsConsistent(c, es[0]);
      RunKeepsConsistent(Transition(c, es[0]), es[1..]);
    }
  }

  /** Over any sequence of updates user_data only gains keys, and the sheet
      keeps its earlier rows and gains at most one row per update. */
  lemma {:induction false} RunOnlyGrows(c: Snapshot, es: seq<Event>)
    ensures c.userData.Keys <= Run(c, es).userData.Keys
    ensures |c.sheet| <= |Run(c, es).sheet| <= |c.sheet| + |es|
    ensures Run(c, es).sheet[..|c.sheet|] == c.sheet
    decreases |es|
  {
    if es != [] {
      var c' := Transition(c, es[0]);
      UserDataOnlyGrows(c, es[0]);
      SheetAppendOnly(c, es[0]);
      RunOnlyGrows(c', es[1..]);
      var r := Run(c', es[1..]);
      assert r.sheet[..|c.sheet|] == r.sheet[..|c'.sheet|][..|c.sheet|];
    }
  }

  /** Every row a sequence of updates appends to the sheet has six cells, one
      per form field; `SheetAppendOnly` gives each row's content. */
  lemma {:induction false} RunAppendsOnlyRecords(c: Snapshot, es: seq<Event>)
    ensures forall j :: |c.sheet| <= j < |Run(c, es).sheet| ==> |Run(c, es).sheet[j]| == |Fields|
    decreases |es|
  {
    if es != [] {
      var c' := Transition(c, es[0]);
      SheetAppendOnly(c, es[0]);
      RunOnlyGrows(c', es[1..]);
      RunAppendsOnlyRecords(c', es[1..]);
    }
  }

  /** The answers the registration form stores for six text messages. */
  function Answers(texts: seq<string>): (m: map<string, string>)
    requires |texts| == |Fields|
    ensures m.Keys == FieldSet
    ensures forall i :: 0 <= i < |Fields| ==> m[Fields[i]] == texts[i]
  {
    map[Name := texts[0], Phone := texts[1], Email := texts[2],
        Address := texts[3], Profession := texts[4], Purpose := texts[5]]
  }

  /** The six answers as text messages. */
  function AsTexts(texts: seq<string>): (es: seq<Event>)
    ensures |es| == |texts|
    ensures forall i :: 0 <= i < |texts| ==> es[i] == Text(texts[i])
  {
    if texts == [] then [] else [Text(texts[0])] + AsTexts(texts[1..])
  }

  lemma {:induction false} RunAppend(c: Snapshot, xs: seq<Event>, ys: seq<Event>)
    ensures Run(c, xs + ys) == Run(Run(c, xs), ys)
    decreases |xs|
  {
    if xs == [] {
      assert xs + ys == ys;
    } else {
      assert (xs + ys)[1..] == xs[1..] + ys;
      RunAppend(Transition(c, xs[0]), xs[1..], ys);
    }
  }

  /** A button to the main menu in each of the four button states returns to
      the main menu and keeps user_data and the sheet; pressing it again
      changes nothing more. */
  lemma BackMainReturnsToMenu(c: Snapshot, t: string)
    requires c.state in {MainMenu, InfoMenu, RegisterEligible, RegAccept}
    requires IsBackMainPattern(t)
    ensures Transition(c, Button(t)) == c.(state := MainMenu)
    ensures Transition(Transition(c, Button(t)), Button(t)) == Transition(c, Button(t))
  {
  }

  /** Events of the wrong kind for a state are matched by no handler: a
      button in a text state or after END, text in a button state or after
      END, and any command other than `/start`. */
  lemma MismatchedEventsIgnored(c: Snapshot, t: string, x: string, name: string)
    ensures FormStep(c.state).Some? || c.state == End ==> Transition(c, Button(t)) == c
    ensures FormStep(c.state).None? ==> Transition(c, Text(x)) == c
    ensures name != "start" ==> Transition(c, Command(name)) == c
  {
  }

  /** The main menu: learn opens the info menu, register the eligibility
      question, contact and back_main stay in the main menu, and any other
      token falls through without a state change. */
  lemma MainMenuTransitions(c: Snapshot, t: string)
    requires c.state == MainMenu
    ensures Transition(c, Button(t)) ==
              if t == Learn then c.(state := InfoMenu)
              else if t == Register then c.(state := RegisterEligible)
              else c
  {
  }

  /** The info menu: every token except back_main keeps the info menu. */
  lemma InfoMenuStays(c: Snapshot, t: string)
    requires c.state == InfoMenu
    requires !IsBackMainPattern(t)
    ensures Transition(c, Button(t)) == c
  {
  }

  /** The eligibility question: yes_reg starts the form, no_reg ends the
      conversation, and any other token apart from back_main is ignored. */
  lemma EligibilityTransitions(c: Snapshot, t: string)
    requires c.state == RegisterEligible
    requires !IsBackMainPattern(t)
    ensures Transition(c, Button(t)) ==
              if t == YesReg then c.(state := RegName)
              else if t == NoReg then c.(state := End)
              else c
  {
  }

  /** Each text state stores the message under its own key, changes no other
      key, leaves the sheet alone and moves one step down the form. */
  lemma FormStepStoresOneAnswer(c: Snapshot, x: string)
    requires FormStep(c.state).Some?
    ensures var r := Transition(c, Text(x));
            var key := FormStep(c.state).value.0;
            && r.userData == c.userData[key := x]
            && r.userData.Keys == c.userData.Keys + {key}
            && r.sheet == c.sheet
    ensures c.state == RegName ==> Transition(c, Text(x)).state == RegPhone && FormStep(c.state).value.0 == Name
    ensures c.state == RegPhone ==> Transition(c, Text(x)).state == RegEmail && FormStep(c.state).value.0 == Phone
    ensures c.state == RegEmail ==> Transition(c, Text(x)).state == RegAddress && FormStep(c.state).value.0 == Email
    ensures c.state == RegAddress ==> Transition(c, Text(x)).state == RegProf && FormStep(c.state).value.0 == Address
    ensures c.state == RegProf ==> Transition(c, Text(x)).state == RegPurpose && FormStep(c.state).value.0 == Profession
    ensures c.state == RegPurpose ==> Transition(c, Text(x)).state == RegAccept && FormStep(c.state).value.0 == Purpose
  {
  }

  /** In a consistent session the accept state has all six answers, so none
      of the lookups in `reg_accept` can raise. */
  lemma AcceptHasAllAnswers(c: Snapshot)
    requires Consistent(c) && c.state == RegAccept
    ensures Record(c.userData).Some?
  {
  }

  /** accept_no ends the conversation and never writes to the sheet, whatever
      the answers are. */
  lemma AcceptNoDeclines(c: Snapshot)
    requires c.state == RegAccept
    ensures Transition(c, Button(AcceptNo)) == c.(state := End)
  {
  }

  /** Any other token than accept_no and back_main (accept_yes, but also an
      old button of an earlier menu) appends exactly one row holding the six
      answers in field order and ends the conversation. */
  lemma AcceptAppendsRow(c: Snapshot, t: string)
    requires Consistent(c) && c.state == RegAccept
    requires t != AcceptNo && !IsBackMainPattern(t)
    ensures Transition(c, Button(t)) ==
              c.(state := End,
                 sheet := c.sheet + [[c.userData[Name], c.userData[Phone], c.userData[Email],
                                      c.userData[Address], c.userData[Profession], c.userData[Purpose]]])
  {
  }

  /** The sheet changes exactly when a submission in the accept state finds
      all six answers. */
  lemma SheetChangesOnlyOnSubmit(c: Snapshot, e: Event)
    ensures Transition(c, e).sheet != c.sheet <==>
              && c.state == RegAccept && e.Button?
              && e.token != AcceptNo && !IsBackMainPattern(e.token)
              && FieldSet <= c.userData.Keys
  {
  }

  /** Six text messages from the name prompt fill the whole form, in order,
      and stop at the accept prompt. */
  lemma {:induction false} FillForm(c: Snapshot, texts: seq<string>)
    requires c.state == RegName && |texts| == |Fields|
    ensures Run(c, AsTexts(texts)) == c.(state := RegAccept, userData := c.userData + Answers(texts))
  {
    var es := AsTexts(texts);
    var d := c.userData;
    var c3 := c.(state := RegAddress, userData := d[Name := texts[0]][Phone := texts[1]][Email := texts[2]]);
    assert es[0..] == es;
    FillPersonal(c, es);
    FillBackground(c3, es);
    UpdatesAreAnswers(d, texts);
  }

  /** The first three answers: name, phone and email. */
  lemma FillPersonal(c: Snapshot, es: seq<Event>)
    requires c.state == RegName && |es| == |Fields|
    requires forall i :: 0 <= i < |es| ==> es[i].Text?
    ensures Run(c, es[0..]) ==
              Run(c.(state := RegAddress,
                     userData := c.userData[Name := es[0].text][Phone := es[1].text][Email := es[2].text]),
                  es[3..])
  {
    var c1 := c.(state := RegPhone, userData := c.userData[Name := es[0].text]);
    var c2 := c1.(state := RegEmail, userData := c1.userData[Phone := es[1].text]);
    var c3 := c2.(state := RegAddress, userData := c2.userData[Email := es[2].text]);
    TextStep(c, es, 0, c1);
    TextStep(c1, es, 1, c2);
    TextStep(c2, es, 2, c3);
  }

  /** The last three answers: address, profession and purpose. */
  lemma FillBackground(c: Snapshot, es: seq<Event>)
    requires c.state == RegAddress && |es| == |Fields|
    requires forall i :: 0 <= i < |es| ==> es[i].Text?
    ensures Run(c, es[3..]) ==
              c.(state := RegAccept,
                 userData := c.userData[Address := es[3].text][Profession := es[4].text][Purpose := es[5].text])
  {
    var c4 := c.(state := RegProf, userData := c.userData[Address := es[3].text]);
    var c5 := c4.(state := RegPurpose, userData := c4.userData[Profession := es[4].text]);
    var c6 := c5.(state := RegAccept, userData := c5.userData[Purpose := es[5].text]);
    TextStep(c, es, 3, c4);
    TextStep(c4, es, 4, c5);
    TextStep(c5, es, 5, c6);
    assert es[6..] == [];
  }

  /** Storing the six answers one key at a time gives the same dictionary
      as merging them in at once. */
  lemma UpdatesAreAnswers(d: map<string, string>, texts: seq<string>)
    requires |texts| == |Fields|
    ensures d[Name := texts[0]][Phone := texts[1]][Email := texts[2]]
             [Address := texts[3]][Profession := texts[4]][Purpose := texts[5]]
            == d + Answers(texts)
  {
  }

  /** One text message of the form peeled off the front of a run. */
  lemma TextStep(c: Snapshot, es: seq<Event>, i: nat, c': Snapshot)
    requires i < |es| && es[i].Text? && FormStep(c.state).Some?
    requires c' == c.(state := FormStep(c.state).value.1,
                      userData := c.userData[FormStep(c.state).value.0 := es[i].text])
    ensures Run(c, es[i..]) == Run(c', es[i + 1..])
  {
    assert es[i..][0] == es[i] && es[i..][1..] == es[i + 1..];
  }

  /** `/start`, register and yes_reg bring any session to the name prompt. */
  lemma OpenForm(c: Snapshot)
    ensures Run(c, [StartCmd, Button(Register), Button(YesReg)]) == c.(state := RegName)
  {
    var es := [StartCmd, Button(Register), Button(YesReg)];
    var c1 := c.(state := MainMenu);
    var c2 := c.(state := RegisterEligible);
    assert Run(c, es) == Run(c1, es[1..]);
    assert Run(c1, es[1..]) == Run(c2, es[2..]);
    assert Run(c2, es[2..]) == Run(c.(state := RegName), []);
  }

  /** accept_yes on a filled form appends the six answers as one row. */
  lemma SubmitForm(c: Snapshot, texts: seq<string>)
    requires c.state == RegAccept && |texts| == |Fields|
    requires FieldSet <= c.userData.Keys
    requires forall i :: 0 <= i < |Fields| ==> c.userData[Fields[i]] == texts[i]
    ensures Run(c, [Button(AcceptYes)]) == c.(state := End, sheet := c.sheet + [texts])
  {
    var row := Record(c.userData).value;
    assert row == texts;
    assert !IsBackMainPattern(AcceptYes) by {
      assert AcceptYes[0] != BackMain[0] && AcceptYes[0] != (BackMain + "\n")[0];
    }
    assert AcceptYes != AcceptNo by {
      assert AcceptYes[7] != AcceptNo[7];
    }
    assert Transition(c, Button(AcceptYes)) == c.(state := End, sheet := c.sheet + [row]);
    assert Run(c, [Button(AcceptYes)]) == Run(Transition(c, Button(AcceptYes)), []);
  }

  /** A complete registration from any session: `/start`, register, yes_reg,
      the six answers and accept_yes append exactly one row with the answers
      in the order they were given, and end the conversation. */
  lemma {:induction false} CompleteRegistration(c: Snapshot, texts: seq<string>)
    requires |texts| == |Fields|
    ensures Run(c, [StartCmd, Button(Register), Button(YesReg)] + AsTexts(texts) + [Button(AcceptYes)]) ==
              Snapshot(End, c.userData + Answers(texts), c.sheet + [texts])
  {
    var head := [StartCmd, Button(Register), Button(YesReg)];
    var form := AsTexts(texts);
    var c3 := c.(state := RegName);
    var c9 := c3.(state := RegAccept, userData := c.userData + Answers(texts));
    OpenForm(c);
    FillForm(c3, texts);
    SubmitForm(c9, texts);
    RunAppend(c, head, form);
    RunAppend(c, head + form, [Button(AcceptYes)]);
  }

  /** A first-time user registering with six sample answers. */
  lemma RegistrationExample()
    ensures var texts := ["Ali Hassan", "0911000000", "ali@example.com", "Addis Ababa", "Engineer", "To help"];
            Run(Snapshot(End, map[], []),
                [StartCmd, Button(Register), Button(YesReg)] + AsTexts(texts) + [Button(AcceptYes)])
            == Snapshot(End, Answers(texts), [texts])
  {
    var texts := ["Ali Hassan", "0911000000", "ali@example.com", "Addis Ababa", "Engineer", "To help"];
    CompleteRegistration(Snapshot(End, map[], []), texts);
    assert map[] + Answers(texts) == Answers(texts);
  }

  /** After END, nothing but `/start` brings the conversation back. */
  lemma {:induction false} EndAbsorbsAllButStart(c: Snapshot, es: seq<Event>)
    requires c.state == End
    requires forall i :: 0 <= i < |es| ==> es[i] != StartCmd
    ensures Run(c, es) == c
    decreases |es|
  {
    if es != [] {
      EndAbsorbsAllButStart(Transition(c, es[0]), es[1..]);
    }
  }
}
