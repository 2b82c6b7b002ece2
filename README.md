# Mock-interview backend: a Dafny model of its turn logic

This project models the core of a Node.js backend that runs mock job
interviews against a hosted language model.

- **`TurnEngine`, `StageTable`, `InterviewSessions`** model `GeminiAIEX`, the staged interviewer.
  - A per-session record holds the conversation history, the current stage, a follow-up counter and the collected answers.
  - Each request records the user's input and consults a six-stage table: `initial`, `awaiting_first_core_question`, `asking_follow_ups`, `pre_feedback`, `generating_feedback`, `interview_complete`.
  - It then builds the stage's instruction, sends it to the model together with the history (minus a leading model turn), and moves the stage and counter on.
- **`HistoryManager`** models `updateHistory`, the shared helper that appends a user turn and a model turn to a session's history in a map.
- **`StreamHandler`** models `extractTextFromStream`, which concatenates the text of streamed response chunks. A chunk's text may be an accessor, a string, or neither. In the last case the first candidate's first part is used.
- **`GeminiAI10`** models `GeminiAI_1_0`, the older single-model chat handler.
  - It seeds an empty history with a user turn and forces the first turn to be user-authored.
  - It rejects histories with malformed entries and converts them to chat format.
  - It records the exchange after each reply.

The hosted model is never called. Its answer is a parameter of each handler: `Some(text)`, or `None` when the call throws. The handlers return the request they would send, so the contracts can say whether the model is called and with what.

JavaScript values that the code inspects are modelled as `Value = Undefined | Null | Str(s)`. Only a non-empty string is truthy. Histories are sequences of `Turn(role, text)` over these values, so the `!msg.role`, `!msg.text` and `role === "model"` tests are modelled exactly.

Stages are stored as strings, as in the source. A string with no entry in the table takes the unknown-stage path.

`GeminiAIEX.Handle` keeps an invariant over every stored session. `ValidSession` says the pair (stage, counter) is reachable and no model turn is empty. `ReachableIsClosed` shows that, for a reachable pair, neither the unknown-stage path nor the silent follow-up skip can happen.

Two behaviours of `GeminiAIEX.handle` follow from the order of its statements, and the model keeps them:

- A failed model call does not roll back. The user turn and the collected answer pushed before the call stay in the session (config/GeminiAIEX.js:166-175). Only the stage and the counter keep their old values.
- A new session is stored before anything is pushed onto it (config/GeminiAIEX.js:156-164), so it stays stored even when the turn fails.

`GeminiAI_1_0` keeps an invariant too: `Valid` says every stored history passes the malformed-entry check. The constructor establishes it, `updateHistory` and `handle` keep it, so on a valid store `handle` never takes the malformed-history 500 path.

## Model

| member | source | states |
|---|---|---|
| Values.Render | config/GeminiAIEX.js:53 | The text interpolation produces: the string itself, `"undefined"` or `"null"` |
| Values.Or | config/GeminiAI_1.0.js:73 | `a \|\| b`: `a` when truthy, otherwise `b` |
| Turns.ToContents | config/GeminiAIEX.js:73-76 | One chat content per turn: the lengths agree |
| Turns.ToContentsAt | config/GeminiAIEX.js:73-76 | Content `i` has turn `i`'s role and exactly one part holding turn `i`'s text |
| Turns.ContentsRoundTrip | config/GeminiAIEX.js:73-76 | Reading the chat format back gives the original history, so the conversion loses nothing |
| Turns.ToContentsAppend | config/GeminiAI_1.0.js:23-32 | The conversion distributes over concatenation, so order is kept |
| StageTable.Parse | config/GeminiAIEX.js:90-91 | A stage found for a stored name has exactly that name |
| StageTable.Config | config/GeminiAIEX.js:25-65 | Only `initial` has no output-token cap, only `asking_follow_ups` has a follow-up cap (2), and only `interview_complete` has no successor |
| StageTable.ParseName | config/GeminiAIEX.js:25-65 | Every stage is found under its own name, so the six names are distinct |
| StageTable.TableIsOneChain | config/GeminiAIEX.js:25-65 | The successors form one chain `initial` → … → `interview_complete`. Only the last stage has no successor, nothing leads back to `initial`, and only `asking_follow_ups` has a follow-up cap |
| StageTable.BuildInstruction | config/GeminiAIEX.js:100-103 | `generating_feedback`, and only that stage, gets the feedback instruction, carrying the job title and the enumerated answers. Exactly the three opening stages mention the job title |
| StageTable.Decimal | config/GeminiAIEX.js:53 | A question number prints as a non-empty string of decimal digits without a leading zero (only 0 prints starting with `0`) |
| StageTable.DecimalRoundTrip | config/GeminiAIEX.js:53 | Reading the printed number back gives the number, so distinct question numbers print differently |
| StageTable.Entries | config/GeminiAIEX.js:52-53 | One entry per answer, in order: entry `i` is `Question {i+1} Answer: {answer i}` |
| StageTable.Join | config/GeminiAIEX.js:54-56 | No strings join to the empty string, one string joins to itself, and the result is at least as long as the first string |
| StageTable.JoinStartsWithFirst | config/GeminiAIEX.js:54-56 | A join starts with its first string |
| StageTable.AnswerList | config/GeminiAIEX.js:52-56 | The enumeration is empty exactly when no answer was collected |
| StageTable.JoinSnoc | config/GeminiAIEX.js:54-56 | Joining one more string appends the separator and that string (or the string alone after nothing) |
| StageTable.AnswerListEmpty | config/GeminiAIEX.js:52-56 | No collected answers give an empty enumeration |
| StageTable.AnswerListSnoc | config/GeminiAIEX.js:52-56 | One more answer adds one entry `Question {n+1} Answer: {a}` after the separator and keeps every earlier entry in order |
| TurnEngine.FilterFrom | config/GeminiAIEX.js:69-71 | The filter never adds entries, and past index 0 it keeps every entry |
| TurnEngine.SafeHistory | config/GeminiAIEX.js:69-71 | The filtered history is the stored one without its first entry when that entry is a model turn, and the stored one otherwise |
| TurnEngine.SafeHistoryLeadingModel | config/GeminiAIEX.js:69-71 | The filtered history starts with a model turn only when the stored one starts with two |
| TurnEngine.Transition | config/GeminiAIEX.js:123-138 | The per-stage transition after a reply: the two opening stages reset the counter, `asking_follow_ups` counts one more and leaves at the cap, the others keep it; each moves to its successor and `interview_complete` stays |
| TurnEngine.ProcessInterviewTurn | config/GeminiAIEX.js:83-140 | An unknown stage returns the fixed error text with stage and counter unchanged, without a model call. A capped follow-up stage returns empty text, `pre_feedback` and the same counter, without a call. Otherwise exactly one call is made: it carries the stage's instruction and output cap, and no history in `initial` or the filtered history elsewhere. The turn throws exactly when the call does, and the reply text is returned |
| TurnEngine.TurnFollowsTable | config/GeminiAIEX.js:123-138 | After a reply, the new stage is a table stage, and (stage, counter) → (new stage, new counter) follows the per-stage transition relation (reset, count and leave at the cap, keep) |
| TurnEngine.Reachable | config/GeminiAIEX.js:157-162 | The (stage, counter) pairs a session can hold: counter 0 in the opening stages, below the cap in `asking_follow_ups`, at the cap afterwards |
| TurnEngine.ReachableIsClosed | config/GeminiAIEX.js:106-138 | From a reachable (stage, counter) the model is always called, and the returned pair is reachable again |
| TurnEngine.NoCallIgnoresReply | config/GeminiAIEX.js:90-115 | When no call is made, the result does not depend on what the model would have said |
| InterviewSessions.WellFormedRequest | config/GeminiAIEX.js:146-152 | A request is served when the id and job title are truthy and a response is present; `null` passes |
| InterviewSessions.RecordInput | config/GeminiAIEX.js:166-175 | Recording leaves stage and counter alone, adds one history turn unless the input is the sentinel, and one answer exactly when the input is not the sentinel and the stage is not excluded |
| InterviewSessions.ApplyResult | config/GeminiAIEX.js:188-194 | The stage and counter become the engine's, the answers are kept, and one model turn is added exactly when the returned text is non-empty |
| InterviewSessions.SessionTurn | config/GeminiAIEX.js:166-194 | A failed model call leaves the stage and counter as they were; otherwise they are the ones the engine returned |
| InterviewSessions.SessionTurnEffects | config/GeminiAIEX.js:166-194 | The engine sees the input already recorded. The history only grows: a user turn unless the input is the sentinel, then a model turn exactly when the returned text is non-empty. The input becomes an answer exactly when it is not the sentinel and the stage is not excluded |
| InterviewSessions.NewSessionIsValid | config/GeminiAIEX.js:157-162 | A new session satisfies the session invariant |
| InterviewSessions.SessionTurnPreservesValid | config/GeminiAIEX.js:166-194 | Every turn, failed or not, keeps the session invariant: a reachable (stage, counter) and no empty model turn |
| InterviewSessions.AnswersOnlyInQuestionStages | config/GeminiAIEX.js:12-17 | In a valid session, input is collected as an answer exactly in `awaiting_first_core_question` and `asking_follow_ups` |
| InterviewSessions.OpeningTurn | config/GeminiAIEX.js:155-194 | The sentinel on a new session stores only the model's opening turn and moves to `awaiting_first_core_question` |
| InterviewSessions.FirstAnswerTurn | config/GeminiAIEX.js:166-194 | The first answer appends a user and a model turn, is collected, and moves to `asking_follow_ups` with counter 0 |
| InterviewSessions.FollowUpTurn | config/GeminiAIEX.js:166-194 | A follow-up answer appends a user and a model turn, is collected, and raises the counter. The stage becomes `pre_feedback` when the counter reaches 2 |
| InterviewSessions.FullInterview | config/GeminiAIEX.js:142-206 | The sentinel and three answers walk `initial`, `awaiting_first_core_question`, `asking_follow_ups` (counters 0, 1) and `pre_feedback` (counter 2). They collect the three answers in order and build the seven-turn history |
| InterviewSessions.GeminiAIEX.constructor | config/GeminiAIEX.js:24 | The session store starts empty |
| InterviewSessions.GeminiAIEX.Handle | config/GeminiAIEX.js:142-206 | A rejected request gives 400, no call and no change. Otherwise the stored (or new) session is replaced by the session one turn leaves behind, and no other session changes. The response is 500 on failure, or the text, history, stage and counter. The store invariant is kept |
| HistoryManager.ChatHistories.constructor | utils/historyManager.js:2 | The map of histories a caller passes in starts empty |
| HistoryManager.AppendedTurns | utils/historyManager.js:5-12 | One or two turns: a user turn exactly for a truthy non-sentinel input, and always a model turn last, even an empty one |
| HistoryManager.UpdateHistory | utils/historyManager.js:2-17 | The returned history is the stored one (or empty) plus the appended turns. It is stored under the id and no other id changes |
| HistoryManager.UpdateIsAppendOnly | utils/historyManager.js:2-17 | An update keeps every earlier turn in place and adds one or two turns ending with the model turn |
| StreamHandler.Fallback | utils/streamHandler.js:19-27 | The candidate text is used exactly when the whole path `candidates[0].content.parts[0]` exists |
| StreamHandler.Contribution | utils/streamHandler.js:7-28 | A chunk adds nothing readable (the call fails) exactly when its text is an accessor that throws |
| StreamHandler.Drain | utils/streamHandler.js:6-29 | The contributions concatenated in arrival order; the whole result fails exactly when some chunk's accessor throws |
| StreamHandler.ExtractTextFromStream | utils/streamHandler.js:3-32 | The loop's result is `Drain` of the stream: every chunk's contribution concatenated in arrival order, or a failure when an accessor throws |
| StreamHandler.DrainFailsFrom | utils/streamHandler.js:7-8 | One throwing accessor anywhere makes the whole extraction fail |
| StreamHandler.DrainAppend | utils/streamHandler.js:6-29 | The text of a stream split in two is the two texts one after the other |
| StreamHandler.DrainSnoc | utils/streamHandler.js:6-29 | One more chunk appends exactly its own contribution |
| StreamHandler.DrainSingle | utils/streamHandler.js:6-29 | A single chunk drains to its contribution |
| StreamHandler.AccessorThenString | utils/streamHandler.js:7-10 | An accessor chunk returning `foo` then a string chunk `bar` give `foobar` |
| StreamHandler.UnusableChunkAddsNothing | utils/streamHandler.js:11-28 | A chunk with neither usable text nor the candidate path adds nothing |
| StreamHandler.ConcatUnit | utils/streamHandler.js:4 | The empty starting text is a unit of concatenation on both sides |
| StreamHandler.ConcatAssociative | utils/streamHandler.js:8-26 | Concatenating partial results is associative, failures included |
| GeminiAI10.WellFormedRequest | config/GeminiAI_1.0.js:64-66 | A request is served when the id and job title are truthy and the response is neither absent nor `null` |
| GeminiAI10.ConvertHistory | config/GeminiAI_1.0.js:23-32 | The conversion succeeds exactly when every entry has truthy role and text, and then equals the chat-format history. On failure it names the first malformed entry |
| GeminiAI10.Normalised | config/GeminiAI_1.0.js:18-21 | The result is non-empty, starts with a user turn, and has at most one turn more. A history that already starts with a user turn is unchanged; when a turn is added it is the sentinel user turn in front of the original history |
| GeminiAI10.NormalisedEndsWithOriginal | config/GeminiAI_1.0.js:18-21 | The original history is the tail of the normalised one |
| GeminiAI10.NormalisedIdempotent | config/GeminiAI_1.0.js:18-21 | Normalising twice is normalising once |
| GeminiAI10.NormalisedKeepsWellFormed | config/GeminiAI_1.0.js:18-32 | Normalising a history whose entries all pass the malformed-entry check keeps them passing |
| GeminiAI10.Seeded | config/GeminiAI_1.0.js:72-74 | A non-empty history is untouched. An empty one becomes one well-formed user turn, holding the input when it is truthy |
| GeminiAI10.Prepared | config/GeminiAI_1.0.js:69-74 | The history handed to the chat starts with a user turn and has at most one turn more than the stored one. An empty history becomes exactly one user turn holding the input, or the sentinel when the input is falsy; one starting with a user turn is unchanged; any other gets the sentinel user turn in front |
| GeminiAI10.PreparedEndsWithStored | config/GeminiAI_1.0.js:69-74 | The stored history is the tail of the prepared one |
| GeminiAI10.PreparedFor | config/GeminiAI_1.0.js:69-79 | The history handed to the chat for a request starts with a user turn: the stored history prepared, or, for an id with none, one user turn holding the input or the sentinel |
| GeminiAI10.StoreAfter | config/GeminiAI_1.0.js:61-90 | The store after `handle`, as a function of the store before, the request and the reply |
| GeminiAI10.PreparedWellFormed | config/GeminiAI_1.0.js:69-79 | On a store of well-formed histories, or for an id with no history, the prepared history passes the malformed-entry check, so the chat is always started |
| GeminiAI10.StoreAfterKeepsWellFormed | config/GeminiAI_1.0.js:61-90 | `handle` keeps every stored history well formed |
| GeminiAI10.StoreAfterTouchesOnlyItsId | config/GeminiAI_1.0.js:61-90 | `handle` never adds, removes or changes the history of any other id |
| GeminiAI10.StoreStaysWellFormed | config/GeminiAI_1.0.js:46-59 | Histories built by this handler stay well formed before and after an update, so the malformed-entry failure cannot occur on them |
| GeminiAI10.UpdateTurns | config/GeminiAI_1.0.js:49-55 | One turn per condition: a user turn first exactly for a truthy non-sentinel input, and a model turn last exactly for a truthy reply. All are well formed |
| GeminiAI10.AppendKeepsWellFormed | config/GeminiAI_1.0.js:46-59 | Appending well-formed turns to a well-formed history keeps it well formed |
| GeminiAI10.GeminiAI_1_0.constructor | config/GeminiAI_1.0.js:10-11 | The history map starts empty, which is a valid store |
| GeminiAI10.GeminiAI_1_0.GetAIChat | config/GeminiAI_1.0.js:14-44 | The array after the call is the normalised history. The chat is that history in chat format with a 500-token cap exactly when every entry is well formed; otherwise it fails with the initialisation error |
| GeminiAI10.GeminiAI_1_0.UpdateHistory | config/GeminiAI_1.0.js:46-59 | The returned history is the stored one (or empty) plus the update turns. It is stored under the id, no other id changes, and a valid store stays valid |
| GeminiAI10.GeminiAI_1_0.Handle | config/GeminiAI_1.0.js:61-90 | The new store is `StoreAfter`. A rejected request (including a `null` response) gives 400 and no call. Otherwise the chat is started, on the prepared history in chat format with the 500-token cap and the input as message, exactly when that history is well formed. A reply comes back with the stored history exactly when the chat was started and the message answered; every other case gives 500. On a valid store (and always for a new id) the chat is started, and the store stays valid |

## Left out

- The hosted model client is not modelled: model construction, `startChat` and `sendMessage`. Their results are parameters, and the request that would be sent is returned.
- The prose of the stage instructions is not modelled. An instruction records its stage, whether it carries the job title, and the feedback stage's answer enumeration.
- Environment loading, the missing-API-key exit and the 1.0 constructor's missing-key throw are left out because they are process start-up, not turn logic.
- Console logging is left out because it has no effect on state or responses.
- The HTTP layer (server.js), the other handlers (config/GeminiAI.js, config/OpenAI.js) and the test files are not part of this model.
- `async`/`await` and request concurrency are left out. Each handler runs as one atomic step, so interleaved requests for one session are not modelled.
- JSON values other than strings, `null` and an absent field (numbers, booleans, objects) are not modelled as request fields or texts.
- A stage string that names an `Object.prototype` member (such as `"toString"`) is treated as an unknown stage. In JavaScript the table lookup would find the inherited member.
- StreamHandler.ExtractTextFromStream: a stream whose iteration itself rejects (the `for await` at utils/streamHandler.js:6) is not modelled; the stream is a finite sequence of chunks. A throwing accessor is modelled, as a failed result.
- StreamHandler.Fallback: a `null` candidate or part element, which makes the source throw, is not modelled, and candidate elements are always objects.
- InterviewSessions.GeminiAIEX.Handle: sessions are values written back into the map after each change rather than shared objects. This is equivalent because no reference to a session escapes the map during a request. The one exception is the response history, which the model returns as a copy.
- GeminiAI10.GeminiAI_1_0.Handle: histories are values written back into the map when they came from it. Sharing of the stored array with the caller beyond the map is not captured.
- GeminiAI10.GeminiAI_1_0.GetAIChat: the `Malformed message at index i` error is reported only as the generic initialisation failure the source rethrows. The index is kept in `ConvertHistory`.
