/**
 * The data model of the chat service: the conversation steps, the values a
 * fact can hold, the state the caller carries from turn to turn, and the
 * request and response records of the chat endpoint.
 */
module Schema {
  import opened Wrappers

  /** The seven conversation steps, in the order the script walks through them. */
  datatype ConversationState =
    | Start
    | CountrySelection
    | PurposeSelection
    | InfoGathering
    | Analysis
    | Recommendation
    | End
  {
    /** Position of the step in the script. */
    function Ordinal(): (n: nat)
      ensures n < |AllStates| && AllStates[n] == this
    {
      match this
      case Start => 0
      case CountrySelection => 1
      case PurposeSelection => 2
      case InfoGathering => 3
      case Analysis => 4
      case Recommendation => 5
      case End => 6
    }

    /** The string value the enum member carries on the wire. */
    function Code(): string
    {
      match this
      case Start => "start"
      case CountrySelection => "country_selection"
      case PurposeSelection => "purpose_selection"
      case InfoGathering => "info_gathering"
      case Analysis => "analysis"
      case Recommendation => "recommendation"
      case End => "end"
    }
  }

  /** Every member of the enum, in declaration order. */
  const AllStates: seq<ConversationState> :=
    [Start, CountrySelection, PurposeSelection, InfoGathering, Analysis, Recommendation, End]

  /** The enum has exactly seven distinct members, each at the position its ordinal names. */
  lemma AllStatesEnumerated(s: ConversationState)
    ensures |AllStates| == 7
    ensures s in AllStates
    ensures forall i, j :: 0 <= i < j < |AllStates| ==> AllStates[i] != AllStates[j]
    ensures forall i :: 0 <= i < |AllStates| ==> AllStates[i].Ordinal() == i
  {
  }

  /** Distinct members carry distinct wire values. */
  lemma CodeInjective(s: ConversationState, t: ConversationState)
    ensures s.Code() == t.Code() <==> s == t
  {
    if s != t {
      assert s.Code()[..2] != t.Code()[..2] || s.Code()[2] != t.Code()[2] || |s.Code()| != |t.Code()|;
    }
  }

  /**
   * A value stored in the fact list. Only the two kinds the script itself
   * stores are modelled: strings and booleans.
   */
  datatype Value = VStr(s: string) | VBool(b: bool)

  /** One entry of the fact list: a dictionary holding exactly one key. */
  type Entry = (string, Value)

  /** The value view of a conversation state. */
  datatype StateValue = StateValue(
    currentMessage: string,
    currentStep: ConversationState,
    userInfo: Option<seq<Entry>>)

  /**
   * The conversation state as a mutable record: the chat flow overwrites its
   * fields in place. `currentMessage` has no default, the step defaults to
   * the start of the script and the fact list is absent until the first fact.
   */
  class ImmigrationState {
    var currentMessage: string
    var currentStep: ConversationState
    var userInfo: Option<seq<Entry>>

    constructor (currentMessage: string,
                 currentStep: ConversationState := ConversationState.Start,
                 userInfo: Option<seq<Entry>> := None)
      ensures Value() == StateValue(currentMessage, currentStep, userInfo)
    {
      this.currentMessage := currentMessage;
      this.currentStep := currentStep;
      this.userInfo := userInfo;
    }

    function Value(): StateValue
      reads this
    {
      StateValue(currentMessage, currentStep, userInfo)
    }
  }

  /** Body of a chat request: the message, an optional session id and an optional state. */
  datatype ChatRequest = ChatRequest(
    userMessage: string,
    sessionId: Option<string> := None,
    state: Option<ImmigrationState> := None)

  /** Body of a chat response: the reply, a status, a note and the updated state. */
  datatype ChatResponse = ChatResponse(
    response: string,
    status: string := "success",
    message: string := "",
    state: Option<ImmigrationState> := None)

  /** Omitted fields of the request and response records take their defaults. */
  lemma RecordDefaults(userMessage: string, response: string)
    ensures ChatRequest(userMessage).sessionId.None? && ChatRequest(userMessage).state.None?
    ensures ChatResponse(response).status == "success"
    ensures ChatResponse(response).message == ""
    ensures ChatResponse(response).state.None?
  {
  }
}
