/**
 * The scripted conversation as pure functions over the value of the state:
 * looking facts up, extracting at most one fact from the user's message,
 * the six step nodes, and one whole chat turn. The imperative methods in
 * module Chatbot are proved to compute exactly these functions.
 */
module Flow {
  import opened Wrappers
  import opened Schema
  import opened Text

  // ----- Facts -----

  /** Python truthiness of a looked-up fact: absent, `""` and `False` are falsy. */
  predicate Truthy(v: Option<Value>)
  {
    match v
    case None => false
    case Some(VStr(s)) => s != ""
    case Some(VBool(b)) => b
  }

  /** The entries of the fact list; an absent list has none. */
  function Entries(info: Option<seq<Entry>>): seq<Entry>
  {
    if info.Some? then info.value else []
  }

  /** Entry `i` is the first entry of `es` whose key is `key`. */
  ghost predicate FirstWithKey(es: seq<Entry>, key: string, i: int)
  {
    0 <= i < |es| && es[i].0 == key && forall j :: 0 <= j < i ==> es[j].0 != key
  }

  /** The value of the first entry holding `key`, scanning from the front. */
  function FirstValue(es: seq<Entry>, key: string): (r: Option<Value>)
    ensures r.None? <==> forall i :: 0 <= i < |es| ==> es[i].0 != key
    ensures forall i :: FirstWithKey(es, key, i) ==> r == Some(es[i].1)
  {
    if es == [] then None
    else if es[0].0 == key then
      assert FirstWithKey(es, key, 0);
      Some(es[0].1)
    else
      var r := FirstValue(es[1..], key);
      assert forall i :: 0 < i ==> (FirstWithKey(es, key, i) <==> FirstWithKey(es[1..], key, i - 1));
      r
  }

  /**
   * Looks a fact up: nothing when the list is absent or empty, otherwise the
   * value of the first entry holding the key, so that a later entry with the
   * same key never replaces an earlier one.
   */
  function GetUserInfo(info: Option<seq<Entry>>, key: string): (r: Option<Value>)
    ensures info.None? || info == Some([]) ==> r.None?
    ensures r.None? <==> forall i :: 0 <= i < |Entries(info)| ==> Entries(info)[i].0 != key
    ensures forall i :: FirstWithKey(Entries(info), key, i) ==> r == Some(Entries(info)[i].1)
  {
    if info.None? || info.value == [] then None
    else
      assert Entries(info) == info.value;
      FirstValue(info.value, key)
  }

  /** Appends one single-key entry at the end of the fact list, creating the list when absent or empty. */
  function AddUserInfo(s: StateValue, key: string, value: Value): StateValue
  {
    s.(userInfo := Some(Entries(s.userInfo) + [(key, value)]))
  }

  /**
   * Appending an entry never changes the answer for a key that was already
   * present; for any other key the new entry is the answer exactly when it
   * holds that key.
   */
  lemma {:induction false} LaterEntryNeverShadows(es: seq<Entry>, e: Entry, key: string)
    ensures FirstValue(es + [e], key) ==
      if FirstValue(es, key).Some? then FirstValue(es, key)
      else if e.0 == key then Some(e.1)
      else None
  {
    if es != [] {
      assert (es + [e])[1..] == es[1..] + [e];
      LaterEntryNeverShadows(es[1..], e, key);
    }
  }

  /** The same, for the fact list of a state after one fact is added. */
  lemma AddUserInfoKeepsEarlierFacts(s: StateValue, key: string, value: Value, k: string)
    ensures Entries(AddUserInfo(s, key, value).userInfo) == Entries(s.userInfo) + [(key, value)]
    ensures GetUserInfo(AddUserInfo(s, key, value).userInfo, k) ==
      if GetUserInfo(s.userInfo, k).Some? then GetUserInfo(s.userInfo, k)
      else if k == key then Some(value)
      else None
  {
    LaterEntryNeverShadows(Entries(s.userInfo), (key, value), k);
  }

  // ----- Extracting a fact from the user's message -----

  /** Destination keywords and the canonical name each records, in matching order. */
  const CountryTable: seq<(string, string)> := [
    ("united states", "United States"),
    ("canada", "Canada"),
    ("united kingdom", "United Kingdom"),
    ("australia", "Australia")
  ]

  /** Purpose keywords and the visa purpose each records, in matching order. */
  const PurposeTable: seq<(string, string)> := [
    ("study", "Study Visa"),
    ("work", "Work Visa"),
    ("tourism", "Tourism"),
    ("business", "Business"),
    ("family", "Family Visit")
  ]

  /** Row `i` is the first row of `table` whose keyword occurs in `text`. */
  ghost predicate FirstHit(table: seq<(string, string)>, text: string, i: int)
  {
    0 <= i < |table| && Contains(text, table[i].0)
    && forall j :: 0 <= j < i ==> !Contains(text, table[j].0)
  }

  /** The name of the first row whose keyword occurs in `text`, if any does. */
  function FirstMatch(table: seq<(string, string)>, text: string): (r: Option<string>)
    ensures r.None? <==> forall i :: 0 <= i < |table| ==> !Contains(text, table[i].0)
    ensures forall i :: FirstHit(table, text, i) ==> r == Some(table[i].1)
  {
    if table == [] then None
    else if Contains(text, table[0].0) then
      assert FirstHit(table, text, 0);
      Some(table[0].1)
    else
      var r := FirstMatch(table[1..], text);
      assert forall i :: 0 < i ==> (FirstHit(table, text, i) <==> FirstHit(table[1..], text, i - 1));
      r
  }

  /** Records the matched name under `key`, or leaves the state alone when nothing matched. */
  function RecordMatch(s: StateValue, key: string, found: Option<string>): StateValue
  {
    match found
    case Some(name) => AddUserInfo(s, key, VStr(name))
    case None => s
  }

  /** The applicant type recorded for a message: whether it mentions "myself". */
  function ApplicantType(userMessage: string): string
  {
    if Contains(Lower(userMessage), "myself") then "myself" else "someone else"
  }

  /**
   * Interprets the message against the current step and records at most one
   * fact. Steps other than the three questioning ones record nothing.
   */
  function ProcessUserInput(userMessage: string, s: StateValue): StateValue
  {
    match s.currentStep
    case CountrySelection =>
      RecordMatch(s, "destination_country", FirstMatch(CountryTable, Lower(userMessage)))
    case PurposeSelection =>
      RecordMatch(s, "purpose", FirstMatch(PurposeTable, Lower(userMessage)))
    case InfoGathering =>
      if !Truthy(GetUserInfo(s.userInfo, "current_country")) then
        AddUserInfo(s, "current_country", VStr(Strip(userMessage)))
      else if GetUserInfo(s.userInfo, "application_status").None? then
        AddUserInfo(s, "application_status", VBool(Contains(Lower(userMessage), "yes")))
      else
        AddUserInfo(s, "applicant_type", VStr(ApplicantType(userMessage)))
    case _ => s
  }

  // ----- Replies -----

  /** Python's `str()` of a looked-up fact, as an f-string renders it. */
  function Render(v: Option<Value>): string
  {
    match v
    case None => "None"
    case Some(VStr(s)) => s
    case Some(VBool(b)) => if b then "True" else "False"
  }

  /** The kinds of reply the script produces. */
  datatype Reply =
    | Greeting
    | AskDestination
    | ConfirmDestination(destination: Value)
    | AskPurpose
    | ConfirmPurpose(purpose: Value)
    | AskCurrentCountry
    | AskApplicationStatus
    | AskApplicantType
    | AskPriorApplication
    | Summary(applyingTo: Option<Value>, visaPurpose: Option<Value>, currentLocation: Option<Value>)
    | Upsell
  {
    /** The reply's wording. */
    function Wording(): string
    {
      match this
      case Greeting =>
        "\U{1F3C6} Hi! I'm Immigration AI Assistant. Let's find the perfect visa for you."
      case AskDestination =>
        "Nice. Which country are you applying to?"
      case ConfirmDestination(d) =>
        "Great! You're applying to " + Render(Some(d)) + ". What's the purpose of your visit?"
      case AskPurpose =>
        "What is the purpose of your visit? Study Visa, Work Visa, Tourism, Business, or Family Visit?"
      case ConfirmPurpose(p) =>
        "Perfect! You're looking for a " + Render(Some(p)) + ". Which country are you currently living in?"
      case AskCurrentCountry =>
        "Which country are you currently living in?"
      case AskApplicationStatus =>
        "Have you already started any visa application?"
      case AskApplicantType =>
        "Are you applying for yourself or someone else?"
      case AskPriorApplication =>
        "Have you ever applied for this visa before?"
      case Summary(d, p, c) =>
        "Great! What is the purpose of your visit?\n        \nBased on your information:\n- Applying to: "
        + Render(d) + "\n- Purpose: " + Render(p) + " \n- Current location: " + Render(c)
        + "\n\nI'm analyzing your requirements..."
      case Upsell =>
        "Perfect! I've gathered your basic info. Based on your answers, I can recommend the exact visa form "
        + "you should fill and walk you through each step so you don't make any mistakes.\n\n"
        + "To continue, please unlock your personalized immigration AI assistant. "
        + "It'll guide you through your official immigration form.\n\n"
        + "\U{1F4BC} Buy I Form    \U{1F4B0} Buy Family Package"
    }
  }

  // ----- The step nodes -----

  function StartNode(s: StateValue): StateValue
  {
    s.(currentMessage := Greeting.Wording(), currentStep := CountrySelection)
  }

  function CountrySelectionNode(s: StateValue): StateValue
  {
    var destination := GetUserInfo(s.userInfo, "destination_country");
    if !Truthy(destination) then
      s.(currentMessage := AskDestination.Wording(), currentStep := CountrySelection)
    else
      s.(currentMessage := ConfirmDestination(destination.value).Wording(), currentStep := PurposeSelection)
  }

  function PurposeSelectionNode(s: StateValue): StateValue
  {
    var purpose := GetUserInfo(s.userInfo, "purpose");
    if !Truthy(purpose) then
      s.(currentMessage := AskPurpose.Wording(), currentStep := PurposeSelection)
    else
      s.(currentMessage := ConfirmPurpose(purpose.value).Wording(), currentStep := InfoGathering)
  }

  function InfoGatheringNode(s: StateValue): StateValue
  {
    var currentCountry := GetUserInfo(s.userInfo, "current_country");
    var applicationStatus := GetUserInfo(s.userInfo, "application_status");
    var applicantType := GetUserInfo(s.userInfo, "applicant_type");
    if !Truthy(currentCountry) then
      s.(currentMessage := AskCurrentCountry.Wording())
    else if applicationStatus.None? then
      s.(currentMessage := AskApplicationStatus.Wording())
    else if !Truthy(applicantType) then
      s.(currentMessage := AskApplicantType.Wording())
    else
      s.(currentMessage := AskPriorApplication.Wording(), currentStep := Analysis)
  }

  function AnalysisNode(s: StateValue): StateValue
  {
    var destination := GetUserInfo(s.userInfo, "destination_country");
    var purpose := GetUserInfo(s.userInfo, "purpose");
    var currentCountry := GetUserInfo(s.userInfo, "current_country");
    s.(currentMessage := Summary(destination, purpose, currentCountry).Wording(), currentStep := Recommendation)
  }

  function RecommendationNode(s: StateValue): StateValue
  {
    s.(currentMessage := Upsell.Wording(), currentStep := End)
  }

  // ----- One chat turn -----

  /** Runs the node of the current step; the start step greets and then asks for the destination. */
  function RunNode(s: StateValue): StateValue
  {
    match s.currentStep
    case Start => CountrySelectionNode(StartNode(s))
    case CountrySelection => CountrySelectionNode(s)
    case PurposeSelection => PurposeSelectionNode(s)
    case InfoGathering => InfoGatheringNode(s)
    case Analysis => AnalysisNode(s)
    case Recommendation => RecommendationNode(s)
    case End => s
  }

  /**
   * One call of the chat interface: outside the start step the message is
   * interpreted first, then the node of the (unchanged) current step runs.
   */
  function Turn(userMessage: string, s: StateValue): StateValue
  {
    RunNode(if s.currentStep != Start then ProcessUserInput(userMessage, s) else s)
  }

  /** A conversation: the turns for `messages`, one after the other. */
  function Run(s: StateValue, messages: seq<string>): StateValue
    decreases |messages|
  {
    if messages == [] then s else Run(Turn(messages[0], s), messages[1..])
  }
}
