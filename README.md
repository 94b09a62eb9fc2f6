# Immigration chatbot: the scripted conversation, in Dafny

This project models the conversation engine of the Immigration AI chat
service. It is a fixed questionnaire that walks a user through seven steps:
start, country selection, purpose selection, information gathering,
analysis, recommendation and end. Each call of the chat interface takes the
user's message and the conversation state that the caller carries between
requests, and does two things:

1. Outside the start step it pulls at most one fact out of the message.
   Extraction is a lower-case substring test against fixed keyword tables,
   and the first table row that matches wins. While gathering details it
   records the stripped message, a "yes" test, or a "myself" test instead.
2. It runs the node of the current step. A questioning node either asks
   again or moves the step one position forward, and analysis and
   recommendation always move forward. The start step is special: it runs
   two nodes, the greeting and then the destination question, so a first
   call can move two positions when a destination was already supplied.
   At the end step no node runs and the call changes nothing.

Facts live in an append-only list of single-key entries. A lookup returns
the first entry for a key, so a later entry never replaces an earlier one.

## Layout

- `wrappers.dfy` (module `Wrappers`): `Option`, which stands for Python's `None`.
- `schema.dfy` (module `Schema`): the data model. It holds the
  `ConversationState` enum, the stored `Value`s (strings and booleans),
  the `StateValue` view of a state, and the mutable `ImmigrationState` record
  with its defaults. It also holds the `ChatRequest` and `ChatResponse` records.
- `text.dfy` (module `Text`): the string operations over ASCII:
  `str.lower()`, `str.strip()` and the substring test `in`.
- `flow.dfy` (module `Flow`): the conversation as pure functions. It covers
  lookup, appending, keyword extraction, the six nodes, one turn (`Turn`) and
  a conversation (`Run`).
- `properties.dfy` (module `FlowProperties`): what the flow guarantees.
- `chatbot.dfy` (module `Chatbot`): the service's methods. They change the
  caller's `ImmigrationState` object in place, and each one is proved to
  leave the state equal to its `Flow` counterpart applied to the old state.

The model follows the code wherever the code is stricter than a plain
reading of the flow:
- A node advances only when its fact is truthy. An empty string or `False`
  counts as missing. The application status is the exception: it only has
  to be present.
- The first call of a fresh session ends at the purpose question, not the
  destination question, when the caller already supplied a truthy
  destination.

## Model

| member | source | states |
|---|---|---|
| `Schema.AllStatesEnumerated` | app/services/chat/chatbot_schema.py:5-12 | The enum has exactly seven distinct members. They are ordered start, country selection, purpose selection, info gathering, analysis, recommendation, end, and each member's ordinal is its position. |
| `Schema.ConversationState.Ordinal` | app/services/chat/chatbot_schema.py:5-12 | Every step has a position below seven in the enumeration, and the member at that position is the step itself. |
| `Schema.CodeInjective` | app/services/chat/chatbot_schema.py:5-12 | Distinct steps carry distinct string values. |
| `Schema.ImmigrationState.constructor` | app/services/chat/chatbot_schema.py:14-17 | The current message must be supplied. The step defaults to START and the fact list defaults to absent. |
| `Schema.RecordDefaults` | app/services/chat/chatbot_schema.py:19-28 | A request without a session id or a state has neither. A response defaults its status to "success", its note to "" and its state to absent. |
| `Text.Lower` | app/services/chat/chatbot.py:184 | Lower-casing keeps the length, lower-cases each character and leaves no upper-case ASCII letter. |
| `Text.Strip` | app/services/chat/chatbot.py:207 | The stripped message is a contiguous piece of the message. Only whitespace is cut off, and the piece neither starts nor ends with whitespace. It is empty exactly when the message is all whitespace. |
| `Text.Contains` | app/services/chat/chatbot.py:184 | The keyword test is true exactly when the keyword occurs at some position of the text. |
| `Flow.FirstValue` | app/services/chat/chatbot.py:47-50 | The scan finds nothing exactly when no entry holds the key. When entry i is the first entry holding the key, the scan returns entry i's value. |
| `Flow.GetUserInfo` | app/services/chat/chatbot.py:43-50 | An absent or empty fact list gives nothing. Otherwise the lookup gives nothing exactly when no entry holds the key, and it gives the value of the first entry that holds it. |
| `Flow.LaterEntryNeverShadows` | app/services/chat/chatbot.py:43-56 | After one entry is appended, a key that was already present keeps its old answer. Any other key is answered by the new entry exactly when the new entry holds it. |
| `Flow.AddUserInfoKeepsEarlierFacts` | app/services/chat/chatbot.py:52-56 | Adding a fact appends exactly that one entry after all the old ones. Every earlier answer is kept. |
| `Flow.FirstMatch` | app/services/chat/chatbot.py:183-186 | The table scan finds nothing exactly when no keyword occurs in the text. When row i is the first row whose keyword occurs, the scan returns row i's name. |
| `Chatbot.AddUserInfo` | app/services/chat/chatbot.py:52-56 | The fact list becomes the old entries (none when the list was absent or empty) followed by the one new entry. The step and the reply do not change. |
| `Chatbot.StartNode` | app/services/chat/chatbot.py:58-63 | Leaves the state equal to `Flow.StartNode` of the old state: the greeting is the reply and the step is country selection. |
| `Chatbot.CountrySelectionNode` | app/services/chat/chatbot.py:65-77 | Leaves the state equal to `Flow.CountrySelectionNode` of the old state. `FlowProperties.NodesAdvanceOnlyOnFacts` says when that advances. |
| `Chatbot.PurposeSelectionNode` | app/services/chat/chatbot.py:79-91 | Leaves the state equal to `Flow.PurposeSelectionNode` of the old state. |
| `Chatbot.InfoGatheringNode` | app/services/chat/chatbot.py:93-110 | Leaves the state equal to `Flow.InfoGatheringNode` of the old state. |
| `Chatbot.AnalysisNode` | app/services/chat/chatbot.py:112-129 | Leaves the state equal to `Flow.AnalysisNode` of the old state: the summary of the destination, purpose and current country is the reply, and the step is recommendation. |
| `Chatbot.RecommendationNode` | app/services/chat/chatbot.py:131-141 | Leaves the state equal to `Flow.RecommendationNode` of the old state: the offer is the reply and the step is end. |
| `Chatbot.RecordFirstMatch` | app/services/chat/chatbot.py:183-186 | The keyword loop records the name of the first row that matches, under the given key, and then stops. When no row matches it records nothing. The state ends equal to the `Flow.FirstMatch` outcome. |
| `Chatbot.ProcessUserInput` | app/services/chat/chatbot.py:174-213 | Leaves the state equal to `Flow.ProcessUserInput` of the message and the old state. |
| `Chatbot.ChatWithAI` | app/services/chat/chatbot.py:143-172 | Leaves the caller's state equal to `Flow.Turn` of the message and the old state. The response carries the new reply, status "success", the fixed note and the same state object. |
| `FlowProperties.ProcessAppendsAtMostOne` | app/services/chat/chatbot.py:174-213 | Interpreting a message keeps the step and the reply. It either changes nothing or appends exactly one entry after the old ones. |
| `FlowProperties.TurnGrowsFactsByAtMostOne` | app/services/chat/chatbot.py:143-172 | Over one call, the old fact list is a prefix of the new one, and the new one is at most one entry longer. If nothing was recorded the list is unchanged, so an absent list stays absent. |
| `FlowProperties.CountrySelectionRecordsFirstKeyword` | app/services/chat/chatbot.py:176-186 | At country selection the recorded destination is the canonical name of the first table keyword found in the lower-cased message. The table order is united states, canada, united kingdom, australia. When no keyword occurs the state is unchanged. |
| `FlowProperties.PurposeSelectionRecordsFirstKeyword` | app/services/chat/chatbot.py:188-199 | At purpose selection the recorded purpose belongs to the first keyword found. The order is study, work, tourism, business, family. When none occurs the state is unchanged. |
| `FlowProperties.InfoGatheringRecordsExactlyOne` | app/services/chat/chatbot.py:201-211 | While gathering details exactly one entry is appended. It is the stripped message as the current country while that is falsy; otherwise the "yes" test as the application status while that is absent; otherwise the applicant type. |
| `FlowProperties.ApplicantTypeIsOneOfTwo` | app/services/chat/chatbot.py:211 | The applicant type is "myself" exactly when the lower-cased message contains "myself". Otherwise it is "someone else". |
| `FlowProperties.NodesAdvanceOnlyOnFacts` | app/services/chat/chatbot.py:65-110 | The three questioning nodes never touch the facts. Each advances exactly when its facts are present and truthy; the application status only has to be present. Otherwise it stays and sets its re-prompt; while gathering details that is the question for the first missing detail (current country, then application status, then applicant type). |
| `FlowProperties.RunNodeMovesAtMostOne` | app/services/chat/chatbot.py:153-165 | Running the node of the current step never records anything and never moves the step back. Past start it moves at most one position. Start ends at country selection, or at purpose selection when a truthy destination is known. |
| `FlowProperties.TurnNeverMovesBack` | app/services/chat/chatbot.py:149-165 | A call never moves the step back, and past start it moves at most one position. From start the message is ignored and nothing is recorded; the call ends at country selection, or at purpose selection when a truthy destination was supplied. |
| `FlowProperties.LateStepsIgnoreMessage` | app/services/chat/chatbot.py:112-141 | Analysis always moves to recommendation and recommendation always moves to end, with nothing recorded, whatever the message. At end a call changes nothing at all. |
| `FlowProperties.RunNeverMovesBack` | app/services/chat/chatbot.py:143-172 | Over any sequence of calls the step never moves back, and past start it moves at most one position per call. The fact list only grows, by at most one entry per message. |
| `FlowProperties.FalsyCurrentCountryTrap` | app/services/chat/chatbot.py:99-100 | Once the first recorded current country is falsy, no sequence of messages leaves info gathering. The looked-up current country never changes. |
| `FlowProperties.BlankAnswerTrapsConversation` | app/services/chat/chatbot.py:205-207 | An all-whitespace first answer to the current-country question records "" and traps the conversation in info gathering for good. |
| `FlowProperties.DetailsTurn` | app/services/chat/chatbot.py:93-110 | During info gathering, the call's result is the details node run on the state with the fact appended. Each of the three details changes only if it was absent and the new fact is for that key. |
| `FlowProperties.DetailsFirstAnswer` | app/services/chat/chatbot.py:205-207 | With no details yet, a non-blank answer records its stripped text as the current country, and the step stays at info gathering. |
| `FlowProperties.DetailsSecondAnswer` | app/services/chat/chatbot.py:208-209 | With a truthy current country and no status, the next answer records whether it says "yes", and the step stays. |
| `FlowProperties.DetailsThirdAnswer` | app/services/chat/chatbot.py:210-211 | With a country and a status recorded, the next answer records the applicant type, and the step moves to analysis. |
| `FlowProperties.DetailsCompleteInThreeTurns` | app/services/chat/chatbot.py:93-107 | With none of the three details recorded, three answers complete info gathering, provided the first is not blank. Exactly those three facts are appended in order. |
| `FlowProperties.FreshSessionFirstTurn` | app/services/chat/chatbot.py:149-155 | The first call of a fresh session ignores the message and records nothing. It ends at country selection with the destination question as the reply. |
| `FlowProperties.CanadaIsRecorded` | app/services/chat/chatbot.py:176-186 | "Canada" at country selection appends the destination "Canada" when none was known. The step moves to purpose selection and the reply confirms Canada. |
| `FlowProperties.StudyIsRecorded` | app/services/chat/chatbot.py:188-199 | Any message mentioning "study", in any letter case, records "Study Visa" at purpose selection, whatever else it mentions. |

## Left out

- The language-model client and the loading of its API key (app/services/chat/chatbot.py:8, 11-17). They are a network call the flow never makes.
- The graph workflow built at app/services/chat/chatbot.py:20-41. It comes from a foreign library and is never invoked; the chat interface dispatches on the step by hand, and that dispatch is what `Flow.RunNode` models.
- The default path at app/services/chat/chatbot.py:145-146. It builds a state without the required current message, and that construction fails record validation. `Chatbot.ChatWithAI` therefore takes the state as a required argument.
- The HTTP application, its middleware, its health endpoints and the chat route (main.py, app/services/chat/chatbot_route.py). The route imports names that do not exist, and it has no logic to model.
- Record validation, JSON serialisation, and the unused `session_id`.
- Fact-list entries with several keys, empty entries, and stored values other than strings and booleans (such as JSON `null` or numbers). Every entry is modelled as one key with a string or boolean value.
- Text.Lower: lower-cases ASCII letters only, not the full Unicode case mapping of `str.lower()`.
- Text.Strip: strips the ASCII whitespace characters only (tab to carriage return, the separators 28 to 31, and space), not the other Unicode whitespace that `str.strip()` also removes.
