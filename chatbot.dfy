/**
 * The chat flow as the service runs it: each step changes the caller's
 * state object in place. Every method is proved to leave the state equal
 * to the corresponding function of module Flow applied to the old state.
 */
module Chatbot {
  import opened Wrappers
  import opened Schema
  import opened Text
  import Flow

  /** Appends one single-key entry to the fact list, creating the list when it is absent or empty. */
  method AddUserInfo(state: ImmigrationState, key: string, value: Value)
    modifies state
    ensures state.userInfo == Some(Flow.Entries(old(state.userInfo)) + [(key, value)])
    ensures state.currentMessage == old(state.currentMessage)
    ensures state.currentStep == old(state.currentStep)
  {
    if state.userInfo.None? || state.userInfo.value == [] {
      state.userInfo := Some([]);
    }
    state.userInfo := Some(state.userInfo.value + [(key, value)]);
  }

  method StartNode(state: ImmigrationState)
    modifies state
    ensures state.Value() == Flow.StartNode(old(state.Value()))
  {
    state.currentMessage := Flow.Reply.Greeting.Wording();
    state.currentStep := CountrySelection;
  }

  method CountrySelectionNode(state: ImmigrationState)
    modifies state
    ensures state.Value() == Flow.CountrySelectionNode(old(state.Value()))
  {
    var destinationCountry := Flow.GetUserInfo(state.userInfo, "destination_country");
    var response;
    if !Flow.Truthy(destinationCountry) {
      response := Flow.Reply.AskDestination.Wording();
      state.currentStep := CountrySelection;
    } else {
      response := Flow.Reply.ConfirmDestination(destinationCountry.value).Wording();
      state.currentStep := PurposeSelection;
    }
    state.currentMessage := response;
  }

  method PurposeSelectionNode(state: ImmigrationState)
    modifies state
    ensures state.Value() == Flow.PurposeSelectionNode(old(state.Value()))
  {
    var purpose := Flow.GetUserInfo(state.userInfo, "purpose");
    var response;
    if !Flow.Truthy(purpose) {
      response := Flow.Reply.AskPurpose.Wording();
      state.currentStep := PurposeSelection;
    } else {
      response := Flow.Reply.ConfirmPurpose(purpose.value).Wording();
      state.currentStep := InfoGathering;
    }
    state.currentMessage := response;
  }

  method InfoGatheringNode(state: ImmigrationState)
    modifies state
    ensures state.Value() == Flow.InfoGatheringNode(old(state.Value()))
  {
    var currentCountry := Flow.GetUserInfo(state.userInfo, "current_country");
    var applicationStatus := Flow.GetUserInfo(state.userInfo, "application_status");
    var applicantType := Flow.GetUserInfo(state.userInfo, "applicant_type");
    var response;
    if !Flow.Truthy(currentCountry) {
      response := Flow.Reply.AskCurrentCountry.Wording();
    } else if applicationStatus.None? {
      response := Flow.Reply.AskApplicationStatus.Wording();
    } else if !Flow.Truthy(applicantType) {
      response := Flow.Reply.AskApplicantType.Wording();
    } else {
      response := Flow.Reply.AskPriorApplication.Wording();
      state.currentStep := Analysis;
    }
    state.currentMessage := response;
  }

  method AnalysisNode(state: ImmigrationState)
    modifies state
    ensures state.Value() == Flow.AnalysisNode(old(state.Value()))
  {
    var destination := Flow.GetUserInfo(state.userInfo, "destination_country");
    var purpose := Flow.GetUserInfo(state.userInfo, "purpose");
    var currentCountry := Flow.GetUserInfo(state.userInfo, "current_country");
    state.currentMessage := Flow.Reply.Summary(destination, purpose, currentCountry).Wording();
    state.currentStep := Recommendation;
  }

  method RecommendationNode(state: ImmigrationState)
    modifies state
    ensures state.Value() == Flow.RecommendationNode(old(state.Value()))
  {
    state.currentMessage := Flow.Reply.Upsell.Wording();
    state.currentStep := End;
  }

  /**
   * Scans a keyword table in order and records the name of the first row
   * whose keyword occurs in the lower-cased message under `key`, then stops;
   * records nothing when no keyword occurs.
   */
  method RecordFirstMatch(state: ImmigrationState, table: seq<(string, string)>, key: string, userMessage: string)
    modifies state
    ensures state.Value() == Flow.RecordMatch(old(state.Value()), key, Flow.FirstMatch(table, Lower(userMessage)))
  {
    var i := 0;
    while i < |table|
      invariant 0 <= i <= |table|
      invariant state.Value() == old(state.Value())
      invariant forall j :: 0 <= j < i ==> !Contains(Lower(userMessage), table[j].0)
    {
      var (keyword, name) := table[i];
      if Contains(Lower(userMessage), keyword) {
        assert Flow.FirstHit(table, Lower(userMessage), i);
        AddUserInfo(state, key, VStr(name));
        return;
      }
      i := i + 1;
    }
  }

  /** Interprets the message against the current step, recording at most one fact. */
  method ProcessUserInput(userMessage: string, state: ImmigrationState)
    modifies state
    ensures state.Value() == Flow.ProcessUserInput(userMessage, old(state.Value()))
  {
    if state.currentStep == CountrySelection {
      RecordFirstMatch(state, Flow.CountryTable, "destination_country", userMessage);
    } else if state.currentStep == PurposeSelection {
      RecordFirstMatch(state, Flow.PurposeTable, "purpose", userMessage);
    } else if state.currentStep == InfoGathering {
      var currentCountry := Flow.GetUserInfo(state.userInfo, "current_country");
      var applicationStatus := Flow.GetUserInfo(state.userInfo, "application_status");
      if !Flow.Truthy(currentCountry) {
        AddUserInfo(state, "current_country", VStr(Strip(userMessage)));
      } else if applicationStatus.None? {
        AddUserInfo(state, "application_status", VBool(Contains(Lower(userMessage), "yes")));
      } else {
        AddUserInfo(state, "applicant_type",
                    VStr(if Contains(Lower(userMessage), "myself") then "myself" else "someone else"));
      }
    }
  }

  /**
   * The chat interface: interprets the message (outside the start step),
   * runs the node of the current step and answers with the new reply and
   * the same, updated state object.
   */
  method ChatWithAI(userMessage: string, currentState: ImmigrationState) returns (response: ChatResponse)
    modifies currentState
    ensures currentState.Value() == Flow.Turn(userMessage, old(currentState.Value()))
    ensures response == ChatResponse(currentState.currentMessage, "success", "Chat processed successfully", Some(currentState))
  {
    if currentState.currentStep != Start {
      ProcessUserInput(userMessage, currentState);
    }

    if currentState.currentStep == Start {
      StartNode(currentState);
      CountrySelectionNode(currentState);
    } else if currentState.currentStep == CountrySelection {
      CountrySelectionNode(currentState);
    } else if currentState.currentStep == PurposeSelection {
      PurposeSelectionNode(currentState);
    } else if currentState.currentStep == InfoGathering {
      InfoGatheringNode(currentState);
    } else if currentState.currentStep == Analysis {
      AnalysisNode(currentState);
    } else if currentState.currentStep == Recommendation {
      RecommendationNode(currentState);
    }

    response := ChatResponse(
      response := currentState.currentMessage,
      status := "success",
      message := "Chat processed successfully",
      state := Some(currentState));
  }
}
