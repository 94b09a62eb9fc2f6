/**
 * Properties of the scripted conversation: how the fact list grows, which
 * fact each step records, when each node advances, that the step only moves
 * forward, and what whole conversations can and cannot reach.
 */
module FlowProperties {
  import opened Wrappers
  import opened Schema
  import opened Text
  import opened Flow

  // ----- The fact list -----

  /**
   * Interpreting a message keeps the step and the reply, and either leaves
   * the state alone or appends exactly one entry behind the old ones.
   */
  lemma ProcessAppendsAtMostOne(userMessage: string, s: StateValue)
    ensures var t := ProcessUserInput(userMessage, s);
      && t.currentStep == s.currentStep
      && t.currentMessage == s.currentMessage
      && (t == s || Entries(t.userInfo) == Entries(s.userInfo) + [Entries(t.userInfo)[|Entries(s.userInfo)|]])
  {
  }

  /**
   * Over one chat turn the fact list grows by at most one entry and the old
   * list is a prefix of the new one; when nothing was recorded it is
   * exactly as before (absent stays absent).
   */
  lemma TurnGrowsFactsByAtMostOne(userMessage: string, s: StateValue)
    ensures var t := Turn(userMessage, s);
      && Entries(s.userInfo) <= Entries(t.userInfo)
      && |Entries(t.userInfo)| <= |Entries(s.userInfo)| + 1
      && (|Entries(t.userInfo)| == |Entries(s.userInfo)| ==> t.userInfo == s.userInfo)
  {
    ProcessAppendsAtMostOne(userMessage, s);
  }

  // ----- What each step records -----

  /**
   * At the destination question the recorded destination is the canonical
   * name of the first keyword, in table order, found in the lower-cased
   * message; when no keyword occurs nothing is recorded.
   */
  lemma CountrySelectionRecordsFirstKeyword(userMessage: string, s: StateValue)
    requires s.currentStep == CountrySelection
    ensures forall i :: FirstHit(CountryTable, Lower(userMessage), i) ==>
      ProcessUserInput(userMessage, s).userInfo
        == Some(Entries(s.userInfo) + [("destination_country", VStr(CountryTable[i].1))])
    ensures (forall i :: 0 <= i < |CountryTable| ==> !Contains(Lower(userMessage), CountryTable[i].0))
      ==> ProcessUserInput(userMessage, s) == s
  {
  }

  /**
   * At the purpose question the recorded purpose is the visa purpose of the
   * first keyword, in table order, found in the lower-cased message; when no
   * keyword occurs nothing is recorded.
   */
  lemma PurposeSelectionRecordsFirstKeyword(userMessage: string, s: StateValue)
    requires s.currentStep == PurposeSelection
    ensures forall i :: FirstHit(PurposeTable, Lower(userMessage), i) ==>
      ProcessUserInput(userMessage, s).userInfo
        == Some(Entries(s.userInfo) + [("purpose", VStr(PurposeTable[i].1))])
    ensures (forall i :: 0 <= i < |PurposeTable| ==> !Contains(Lower(userMessage), PurposeTable[i].0))
      ==> ProcessUserInput(userMessage, s) == s
  {
  }

  /**
   * While gathering details exactly one fact is recorded per message: the
   * current country (the stripped message) while it is falsy, then the
   * application status (whether "yes" occurs) while it is absent, and
   * otherwise the applicant type.
   */
  lemma InfoGatheringRecordsExactlyOne(userMessage: string, s: StateValue)
    requires s.currentStep == InfoGathering
    ensures var t := ProcessUserInput(userMessage, s);
      var n := |Entries(s.userInfo)|;
      && |Entries(t.userInfo)| == n + 1
      && Entries(t.userInfo)[..n] == Entries(s.userInfo)
      && Entries(t.userInfo)[n] ==
        if !Truthy(GetUserInfo(s.userInfo, "current_country")) then
          ("current_country", VStr(Strip(userMessage)))
        else if GetUserInfo(s.userInfo, "application_status").None? then
          ("application_status", VBool(Contains(Lower(userMessage), "yes")))
        else
          ("applicant_type", VStr(ApplicantType(userMessage)))
  {
    var t := ProcessUserInput(userMessage, s);
    assert Entries(t.userInfo)[..|Entries(s.userInfo)|] == Entries(s.userInfo);
  }

  /** The applicant type is "myself" exactly when the message mentions it, otherwise "someone else". */
  lemma ApplicantTypeIsOneOfTwo(userMessage: string)
    ensures ApplicantType(userMessage) == "myself" <==> exists i :: OccursAt(Lower(userMessage), "myself", i)
    ensures ApplicantType(userMessage) != "myself" ==> ApplicantType(userMessage) == "someone else"
  {
    assert "myself"[0] != "someone else"[0];
  }

  // ----- When the nodes advance -----

  /**
   * The three questioning nodes move on only when the fact they need is
   * present and truthy (the application status only has to be present);
   * otherwise they stay and ask again. No node touches the fact list.
   */
  lemma NodesAdvanceOnlyOnFacts(s: StateValue)
    requires s.currentStep in {CountrySelection, PurposeSelection, InfoGathering}
    ensures CountrySelectionNode(s).userInfo == s.userInfo
    ensures PurposeSelectionNode(s).userInfo == s.userInfo
    ensures InfoGatheringNode(s).userInfo == s.userInfo
    ensures CountrySelectionNode(s).currentStep == PurposeSelection
      <==> Truthy(GetUserInfo(s.userInfo, "destination_country"))
    ensures CountrySelectionNode(s).currentStep != PurposeSelection
      ==> CountrySelectionNode(s) == s.(currentMessage := AskDestination.Wording(), currentStep := CountrySelection)
    ensures PurposeSelectionNode(s).currentStep == InfoGathering
      <==> Truthy(GetUserInfo(s.userInfo, "purpose"))
    ensures PurposeSelectionNode(s).currentStep != InfoGathering
      ==> PurposeSelectionNode(s) == s.(currentMessage := AskPurpose.Wording(), currentStep := PurposeSelection)
    ensures s.currentStep == InfoGathering ==>
      (InfoGatheringNode(s).currentStep == Analysis <==>
        && Truthy(GetUserInfo(s.userInfo, "current_country"))
        && GetUserInfo(s.userInfo, "application_status").Some?
        && Truthy(GetUserInfo(s.userInfo, "applicant_type")))
    ensures s.currentStep == InfoGathering && InfoGatheringNode(s).currentStep != Analysis
      ==> InfoGatheringNode(s).currentStep == InfoGathering
    ensures s.currentStep == InfoGathering && !Truthy(GetUserInfo(s.userInfo, "current_country"))
      ==> InfoGatheringNode(s) == s.(currentMessage := AskCurrentCountry.Wording())
    ensures s.currentStep == InfoGathering && Truthy(GetUserInfo(s.userInfo, "current_country"))
      && GetUserInfo(s.userInfo, "application_status").None?
      ==> InfoGatheringNode(s) == s.(currentMessage := AskApplicationStatus.Wording())
    ensures s.currentStep == InfoGathering && Truthy(GetUserInfo(s.userInfo, "current_country"))
      && GetUserInfo(s.userInfo, "application_status").Some?
      && !Truthy(GetUserInfo(s.userInfo, "applicant_type"))
      ==> InfoGatheringNode(s) == s.(currentMessage := AskApplicantType.Wording())
  {
  }

  // ----- The step only moves forward -----

  /**
   * Running a node never touches the fact list and never moves the step
   * back; past the start it moves at most one position, and the start ends
   * at the destination question, or at the purpose question when a truthy
   * destination is already known.
   */
  lemma RunNodeMovesAtMostOne(s: StateValue)
    ensures RunNode(s).userInfo == s.userInfo
    ensures s.currentStep.Ordinal() <= RunNode(s).currentStep.Ordinal()
    ensures s.currentStep != Start ==> RunNode(s).currentStep.Ordinal() <= s.currentStep.Ordinal() + 1
    ensures s.currentStep == Start ==>
      RunNode(s).currentStep ==
        (if Truthy(GetUserInfo(s.userInfo, "destination_country")) then PurposeSelection else CountrySelection)
  {
  }

  /**
   * A turn never moves the step backwards. Outside the start step it moves
   * at most one position forward. From the start step the message is
   * ignored, nothing is recorded, and the turn ends at the destination
   * question, or at the purpose question when a truthy destination was
   * already supplied.
   */
  lemma TurnNeverMovesBack(userMessage: string, s: StateValue)
    ensures var t := Turn(userMessage, s);
      && s.currentStep.Ordinal() <= t.currentStep.Ordinal()
      && (s.currentStep != Start ==> t.currentStep.Ordinal() <= s.currentStep.Ordinal() + 1)
    ensures s.currentStep == Start ==>
      var t := Turn(userMessage, s);
      && t.userInfo == s.userInfo
      && t == Turn("", s)
      && t.currentStep == (if Truthy(GetUserInfo(s.userInfo, "destination_country")) then PurposeSelection else CountrySelection)
  {
    var p := if s.currentStep != Start then ProcessUserInput(userMessage, s) else s;
    ProcessAppendsAtMostOne(userMessage, s);
    RunNodeMovesAtMostOne(p);
  }

  /**
   * The last steps ignore the message: the summary always leads to the
   * recommendation and the recommendation always leads to the end, with
   * nothing recorded; at the end a turn changes nothing at all.
   */
  lemma LateStepsIgnoreMessage(userMessage: string, s: StateValue)
    ensures s.currentStep == Analysis ==>
      Turn(userMessage, s).currentStep == Recommendation && Turn(userMessage, s).userInfo == s.userInfo
    ensures s.currentStep == Recommendation ==>
      Turn(userMessage, s) == s.(currentMessage := Upsell.Wording(), currentStep := End)
    ensures s.currentStep == End ==> Turn(userMessage, s) == s
  {
  }

  /**
   * Over a whole conversation the step never moves back, moves at most one
   * position per turn once past the start, and the fact list only grows,
   * by at most one entry per message.
   */
  lemma {:induction false} RunNeverMovesBack(s: StateValue, messages: seq<string>)
    ensures var t := Run(s, messages);
      && s.currentStep.Ordinal() <= t.currentStep.Ordinal()
      && (s.currentStep != Start ==> t.currentStep.Ordinal() <= s.currentStep.Ordinal() + |messages|)
      && Entries(s.userInfo) <= Entries(t.userInfo)
      && |Entries(t.userInfo)| <= |Entries(s.userInfo)| + |messages|
    decreases |messages|
  {
    if messages != [] {
      var s1 := Turn(messages[0], s);
      TurnNeverMovesBack(messages[0], s);
      TurnGrowsFactsByAtMostOne(messages[0], s);
      RunNeverMovesBack(s1, messages[1..]);
    }
  }

  // ----- What whole conversations reach -----

  lemma RunCons(s: StateValue, userMessage: string, rest: seq<string>)
    ensures Run(s, [userMessage] + rest) == Run(Turn(userMessage, s), rest)
  {
    assert ([userMessage] + rest)[1..] == rest;
  }

  /**
   * Once a falsy current country (such as a blank answer) is the first one
   * recorded, the conversation can never leave the details step: every
   * later answer is appended behind it and never looked at.
   */
  lemma {:induction false} FalsyCurrentCountryTrap(s: StateValue, messages: seq<string>)
    requires s.currentStep == InfoGathering
    requires GetUserInfo(s.userInfo, "current_country").Some?
    requires !Truthy(GetUserInfo(s.userInfo, "current_country"))
    ensures Run(s, messages).currentStep == InfoGathering
    ensures GetUserInfo(Run(s, messages).userInfo, "current_country") == GetUserInfo(s.userInfo, "current_country")
    decreases |messages|
  {
    if messages != [] {
      var p := ProcessUserInput(messages[0], s);
      AddUserInfoKeepsEarlierFacts(s, "current_country", VStr(Strip(messages[0])), "current_country");
      assert GetUserInfo(p.userInfo, "current_country") == GetUserInfo(s.userInfo, "current_country");
      FalsyCurrentCountryTrap(Turn(messages[0], s), messages[1..]);
    }
  }

  /** A blank first answer to the current-country question falls into that trap. */
  lemma BlankAnswerTrapsConversation(s: StateValue, blank: string, messages: seq<string>)
    requires s.currentStep == InfoGathering
    requires GetUserInfo(s.userInfo, "current_country").None?
    requires AllSpace(blank)
    ensures Run(s, [blank] + messages).currentStep == InfoGathering
    ensures GetUserInfo(Run(s, [blank] + messages).userInfo, "current_country") == Some(VStr(""))
  {
    var t := Turn(blank, s);
    AddUserInfoKeepsEarlierFacts(s, "current_country", VStr(Strip(blank)), "current_country");
    assert GetUserInfo(t.userInfo, "current_country") == Some(VStr(""));
    RunCons(s, blank, messages);
    FalsyCurrentCountryTrap(t, messages);
  }

  /** The facts the details step looks at, as a triple. */
  function Details(s: StateValue): (Option<Value>, Option<Value>, Option<Value>)
  {
    (GetUserInfo(s.userInfo, "current_country"),
     GetUserInfo(s.userInfo, "application_status"),
     GetUserInfo(s.userInfo, "applicant_type"))
  }

  /** One details turn: the fact is appended and the three looked-up details change only where one was absent. */
  lemma DetailsTurn(userMessage: string, s: StateValue, key: string, value: Value)
    requires s.currentStep == InfoGathering
    requires ProcessUserInput(userMessage, s) == AddUserInfo(s, key, value)
    ensures var p := AddUserInfo(s, key, value);
      && Turn(userMessage, s) == InfoGatheringNode(p)
      && Entries(p.userInfo) == Entries(s.userInfo) + [(key, value)]
      && GetUserInfo(p.userInfo, "current_country") ==
           (if Details(s).0.Some? then Details(s).0 else if key == "current_country" then Some(value) else None)
      && GetUserInfo(p.userInfo, "application_status") ==
           (if Details(s).1.Some? then Details(s).1 else if key == "application_status" then Some(value) else None)
      && GetUserInfo(p.userInfo, "applicant_type") ==
           (if Details(s).2.Some? then Details(s).2 else if key == "applicant_type" then Some(value) else None)
  {
    AddUserInfoKeepsEarlierFacts(s, key, value, "current_country");
    AddUserInfoKeepsEarlierFacts(s, key, value, "application_status");
    AddUserInfoKeepsEarlierFacts(s, key, value, "applicant_type");
  }

  lemma DetailsFirstAnswer(s: StateValue, country: string)
    requires s.currentStep == InfoGathering
    requires Details(s) == (None, None, None)
    requires !AllSpace(country)
    ensures Turn(country, s).currentStep == InfoGathering
    ensures Details(Turn(country, s)) == (Some(VStr(Strip(country))), None, None)
    ensures Entries(Turn(country, s).userInfo) == Entries(s.userInfo) + [("current_country", VStr(Strip(country)))]
  {
    DetailsTurn(country, s, "current_country", VStr(Strip(country)));
  }

  lemma DetailsSecondAnswer(s: StateValue, status: string)
    requires s.currentStep == InfoGathering
    requires Truthy(Details(s).0) && Details(s).1.None? && Details(s).2.None?
    ensures Turn(status, s).currentStep == InfoGathering
    ensures Details(Turn(status, s)) == (Details(s).0, Some(VBool(Contains(Lower(status), "yes"))), None)
    ensures Entries(Turn(status, s).userInfo)
      == Entries(s.userInfo) + [("application_status", VBool(Contains(Lower(status), "yes")))]
  {
    DetailsTurn(status, s, "application_status", VBool(Contains(Lower(status), "yes")));
  }

  lemma DetailsThirdAnswer(s: StateValue, applicant: string)
    requires s.currentStep == InfoGathering
    requires Truthy(Details(s).0) && Details(s).1.Some? && Details(s).2.None?
    ensures Turn(applicant, s).currentStep == Analysis
    ensures Entries(Turn(applicant, s).userInfo)
      == Entries(s.userInfo) + [("applicant_type", VStr(ApplicantType(applicant)))]
  {
    DetailsTurn(applicant, s, "applicant_type", VStr(ApplicantType(applicant)));
  }

  /**
   * With none of the three details recorded yet, three answers whose first
   * is not blank complete the details step: the conversation moves to the
   * summary with exactly those three facts added.
   */
  lemma DetailsCompleteInThreeTurns(s: StateValue, country: string, status: string, applicant: string)
    requires s.currentStep == InfoGathering
    requires Details(s) == (None, None, None)
    requires !AllSpace(country)
    ensures var t := Turn(applicant, Turn(status, Turn(country, s)));
      && t.currentStep == Analysis
      && Entries(t.userInfo) == Entries(s.userInfo) + [
           ("current_country", VStr(Strip(country))),
           ("application_status", VBool(Contains(Lower(status), "yes"))),
           ("applicant_type", VStr(ApplicantType(applicant)))]
  {
    DetailsFirstAnswer(s, country);
    var s1 := Turn(country, s);
    DetailsSecondAnswer(s1, status);
    var s2 := Turn(status, s1);
    DetailsThirdAnswer(s2, applicant);
  }

  /**
   * The first call of a fresh session ignores the message, records nothing
   * and asks for the destination.
   */
  lemma FreshSessionFirstTurn(greeting: string, userMessage: string)
    ensures Turn(userMessage, StateValue(greeting, Start, None))
      == StateValue(AskDestination.Wording(), CountrySelection, None)
  {
  }

  /** "Canada" at the destination question records Canada and asks for the purpose. */
  lemma CanadaIsRecorded(s: StateValue)
    requires s.currentStep == CountrySelection
    requires GetUserInfo(s.userInfo, "destination_country").None?
    ensures Entries(Turn("Canada", s).userInfo) == Entries(s.userInfo) + [("destination_country", VStr("Canada"))]
    ensures Turn("Canada", s).currentStep == PurposeSelection
    ensures Turn("Canada", s).currentMessage == ConfirmDestination(VStr("Canada")).Wording()
  {
    assert Lower("Canada") == "canada";
    assert Contains("canada", "canada");
    assert !Contains("canada", "united states");
    assert FirstHit(CountryTable, "canada", 1);
    AddUserInfoKeepsEarlierFacts(s, "destination_country", VStr("Canada"), "destination_country");
  }

  /**
   * A message that mentions "study" in any letter case records a study
   * visa at the purpose question, whatever else it mentions, because study
   * is the first purpose keyword.
   */
  lemma StudyIsRecorded(userMessage: string, s: StateValue)
    requires s.currentStep == PurposeSelection
    requires exists i :: OccursAt(Lower(userMessage), "study", i)
    ensures Entries(ProcessUserInput(userMessage, s).userInfo) == Entries(s.userInfo) + [("purpose", VStr("Study Visa"))]
  {
    assert FirstHit(PurposeTable, Lower(userMessage), 0);
  }
}
