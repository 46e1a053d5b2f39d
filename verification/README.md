# Verified model of the cozy-buddy server

This project models one voice turn of the server end to end, and the stateful services beside it, and proves what the
design promises about them. `dafny verify dfyconfig.toml` checks everything.

A hub (a device in a room) holds one socket. It streams microphone audio or a text query; the server recognises the
speech, lets a language model answer with the help of tools, cuts the answer into sentences while it is still being
produced, speaks them, and stores the turn. The hub may barge in at any moment. Beside this the server keeps timers,
scenarios and their schedules, and devices that are addressed by spoken names.

Speech recognition, the model, tools, synthesis, device adapters and the clock are arbitrary: functions or sequences
that a theorem quantifies over. A task's `await` may resume, raise, or be the place where a cancellation surfaces, and
the hub may barge in during any of them.

| file | what it models |
|---|---|
| `Text.dfy` | `strip`, `join`, slices and sorted keys, with the laws the rest needs |
| `Sentence.dfy` | the incremental sentence splitter and its regular expression |
| `Streams.dfy` | streams of pieces: when cutting one shows in what is spoken |
| `Llm.dfy` | messages, deltas, and when a message list is well formed |
| `Orchestrator.dfy` | the bounded model/tool loop |
| `Anthropic.dfy` | block events to deltas, and messages to API messages |
| `Chat.dfy` | sessions, stored messages, the context window, the rolling summary |
| `Frames.dfy` | the grammar of the frames a pipeline sends |
| `Pipeline.dfy` | one pipeline task with every way its awaits can end |
| `Conversation.dfy` | pipelines and sessions joined over many turns |
| `BargeIn.dfy` | the receive loop and all pipeline tasks, interleaved |
| `Utterance.dfy` | the utterance buffer against the log of frames received |
| `Timers.dfy` | timer table, job store, firing, crash and restart; `HH:MM` arithmetic |
| `Devices.dfy` | room-aware resolution, retries, control |
| `Scenarios.dfy` | grouping and execution of scenario actions under any interleaving |
| `Schedules.dfy` | scenario jobs through create, delete and restart |
| `Startup.dfy` | the restart of both job stores |
| `Connections.dfy` | the hub connection map over interleaved socket lifetimes |

## How the parts fit

- `Pipeline.VoicePipeline.Run` calls `Orchestrator.RunTurn`, `Sentence.SentenceSplitter` and `Chat.ChatStore`, and its
  contract speaks of the frames sent (`Frames.StageOf`), the texts spoken, the audio heard and the rows stored.
  `Frames.CompleteRunIsWellFormed` says what a run that stays in the grammar looks like; `Pipeline.TextIsConserved`
  joins the three components' texts.
- What a run does is tied to what its world did, in both directions: `fails` says which of the awaits whose exceptions
  leave the `try` block raise, `speech` what each synthesis yields and that it may raise, `CancelledBefore` and
  `BargedBefore` what happened in the awaits so far. `Ends` says when the `try` block ends in an exception and when a
  turn is answered and stored. A failing synthesis is not among the reasons for an error.
- `Conversation.ServeTurn` follows the store over a run: the model is asked with a window of the session, what is
  committed is a turn of the kind the window theorem speaks of, and `StoreAfter` says into which session it goes and
  what becomes of the sessions. `Conversation.NextTurnRemembers` is the law between two turns of a hub.
- `Orchestrator.RunTurn` is proved against `IsTurn`, and everything said about turns (`DoneIsWellFormed`,
  `ReplyIsWhatWasStreamed`, `Chat.StoredTurnIsPaired`, `Chat.LoadedWindow`) is proved about `IsTurn`.
- `Anthropic.BlocksSurvive` composes the adapter with the orchestrator's reassembly.
- The state machines have safety theorems over every run and, beside them, theorems that something happens: a start is
  served (`BargeIn.IdleStartIsServed`, `BargeIn.BusyStartIsServed`), a task left alone answers
  (`BargeIn.ATaskLeftAloneAnswers`), a due timer fires (`Timers.DueTimersFire`), a pending one is kept
  (`Timers.PendingTimersAreKept`).
- Timers and schedules have a class whose methods are proved against store transformers, and a step machine over the
  same transformers whose reachable states are the subject of the theorems.

## Where the code and its promises part

Each of these is stated as an exact condition, or with a concrete input.

- Splitting depends on how the text was cut into pieces exactly when a cut falls inside a boundary match and more than
  blanks of that match are still to come, for instance a closing quote or a second full stop. This holds for two pieces
  (`Sentence.ChunkIndependence`) and for any number: later cuts never make up for an earlier one
  (`Streams.StreamIndependence`). `Sentence.CutInsideABoundary` is an input.
- `run_turn` documents `OrchDone` as always the last event. When the provider raises there is none
  (`Orchestrator.FailedTurnHasNoDone`). A timed-out turn carries no messages, so the tool rounds it had already run are
  not stored (`Orchestrator.DoneIsWellFormed`).
- On Anthropic, tool arguments that are not JSON get an error result and the loop goes on, but the next request cannot
  be built. If the provider raises for that reason only, the turn ends in an exception right after round `k` exactly
  when `k` is the first such round and one of the first four (`Anthropic.MalformedArgumentsEndTheTurn`). In the fifth
  round there is no next request: the turn ends normally and the call is stored. The session's next context then fails
  to convert exactly when that round had at most eighteen calls, and in no other case
  (`Conversation.NextContextConverts`). Every turn on such a context fails at its first request
  (`Conversation.ContextThatDoesNotConvert`), and rows and activity time stay as they are
  (`Conversation.ServeOnBrokenContext`). `Anthropic.MalformedFirstOrLast` gives both inputs.
- A reply is handed to the synthesiser a second time, as a whole, exactly when no sentence of it yielded any audio,
  unless the hub barges in (`Conversation.SpokenAgain`; `Conversation.SpeaksTwice` is a run).
- A turn that is stored more than three minutes after the session's last activity goes into a new session, although it
  was asked with the context of the old one: looking a session up does not renew it (`Conversation.NextTurnRemembers`).
- The rolling summary appends and cuts at 2000 characters, so once full it never changes again; 501 successful rolls
  always fill it and 500 may not (`Chat.SummaryFills`, `Chat.SummaryFillsNoSooner`, `Chat.SummariesNest`).
- `parse_fires_at` reads the clock twice. If the day changes between the readings, the result may not be in the future
  (`Timers.ClockTimesAreNext`, `Timers.MidnightCanPass`).
- A recurrence without a `cron` is scheduled like a one-shot but not deleted like one, and a timer whose cron the
  scheduler rejects is committed before the exception. Table and jobs agree in a quiescent state exactly when no stored
  timer has lost its job, which takes its creation with a rejected cron, the date job of a cronless row to run, or a
  restart to fail before it reached the row (`Timers.StoresAgree`). A run that creates no such timer and whose restarts
  succeed always agrees (`Timers.CarefulRunsAgree`); any cronless timer, once fired, stays stored without a job
  (`Timers.CronlessTimerLosesItsJob`).
- A scenario whose cron is rejected is stored and enabled but may have no job (`Schedules.RejectedCronIsStored`), and it
  keeps every later scenario from being scheduled after a restart (`Schedules.RejectedCronHidesTheNext`).
  `Schedules.JobsAgree` says for each row when it lacks the job it should have; when no scenario with a rejected cron is
  ever created, none does (`Schedules.CarefulRunsAgree`). The timers are restored after the scenarios, inside the same
  `try`, so everything is restored exactly when no stored, enabled scenario and no stored timer has a rejected cron
  (`Startup.Restore`).
- A touch command names its device to the resolver, so it reaches that device exactly when no other device matches the
  name (`Devices.OwnName`, `Devices.TouchCanBeAmbiguous`).

## Model

| member | source | states |
|---|---|---|
| Text.StripUnique | app/domain/voice/sentence.py:26 | `strip` returns the one core with no blank at either end |
| Text.Sorted | app/domain/llm/service.py:166 | the keys of a dictionary in strictly ascending order, none missing or added |
| Sentence.MatchInLanguage | app/domain/voice/sentence.py:8 | what the search returns is a match of the regular expression, read off its text |
| Sentence.MatchIsLeftmostLongest | app/domain/voice/sentence.py:8 | no match starts further left and none starting there is longer |
| Sentence.SentenceSplitter.Feed | app/domain/voice/sentence.py:18-30 | emits the sentences of buffer and new text together and keeps exactly the uncut rest |
| Sentence.SentenceSplitter.Flush | app/domain/voice/sentence.py:32-36 | returns the stripped rest when it has two characters and empties the buffer |
| Sentence.NothingLost | app/domain/voice/sentence.py:18-30 | segments and rest put together are the text, and the rest holds no boundary |
| Sentence.LongPiecesAreSpoken | app/domain/voice/sentence.py:18-36 | spoken are exactly the stripped segments of at least two characters, and a remainder of at least two |
| Sentence.ChunkIndependence | app/domain/voice/sentence.py:8-36 | feeding two pieces speaks and flushes what feeding them as one does, if and only if the cut is outside a match or only blanks of the match follow |
| Sentence.CutInsideABoundary | app/domain/voice/sentence.py:8-36 | "Hi." and then "." is not spoken like "Hi.." |
| Streams.StreamIndependence | app/domain/voice/sentence.py:18-36 | any number of pieces is spoken as the whole text if and only if every cut is seamless |
| Streams.NeverCatchesUp | app/domain/voice/sentence.py:18-30 | a stream that has fallen behind by punctuation sentences never catches up with the whole text, however it is cut further on |
| Streams.BadCutShows | app/domain/voice/sentence.py:18-30 | whatever follows a visible cut, the sentences differ from those of the whole text |
| Sentence.StreamNothingLost | app/domain/voice/sentence.py:18-30 | over a whole stream, segments plus buffer are the text fed, and what is spoken is the long enough segments in order |
| Llm.PairedSuffix | app/domain/chat/service.py:36-41 | any suffix of a well-formed conversation is severed tool results followed by a well-formed conversation |
| Orchestrator.Consume | app/domain/llm/service.py:130-146 | text events, the per-index accumulator (arguments concatenated, last non-empty id and name) and the last finish reason of a delta stream |
| Orchestrator.FinishCalls | app/domain/llm/service.py:160-167 | one call per index in ascending order, with a generated id where none was given |
| Orchestrator.RunTools | app/domain/llm/service.py:172-178 | each call executed once in order, a running and a final status around it, which is success exactly when its tool says so; one result message per call, with what its tool answered and its id |
| Orchestrator.RunTurn | app/domain/llm/service.py:89-184 | the turn is `IsTurn`; each provider call receives the system prompt, the history and the messages added so far; exactly the calls asked for are executed |
| Orchestrator.LogIsRounds | app/domain/llm/service.py:159-178 | the messages added by k tool rounds are, round by round, the streamed text with the calls asked for and what each tool answered to each of them |
| Orchestrator.DoneIsWellFormed | app/domain/llm/service.py:110-184 | every turn not ended by an exception ends with its only `OrchDone`; its messages are those k rounds and its text as a reply, k at most 4, and 5 exactly at the loop bound; none on a timeout; a cut-off turn has the fixed text |
| Orchestrator.FailedTurnHasNoDone | app/domain/llm/service.py:115-157 | a turn whose provider raises yields no `OrchDone` |
| Orchestrator.HowATurnEnds | app/domain/llm/service.py:110-184 | the turn ends in the first call that does not ask for another round, or after five: timed out if and only if nothing arrives in time, in an exception if and only if it raises, normally otherwise |
| Orchestrator.ReplyIsWhatWasStreamed | app/domain/llm/service.py:130-157 | the final text is the concatenation of all text pieces streamed over all rounds |
| Orchestrator.InterleavingIsIrrelevant | app/domain/llm/service.py:137-167 | two streams with the same fragments per index ask for the same calls, whatever else they interleave |
| Orchestrator.FinishReasonIs | app/domain/llm/service.py:113-146 | the finish reason is that of the last `Done`, `stop` without one |
| Orchestrator.LastNonEmptyIs | app/domain/llm/service.py:137-143 | id and name of a call are the last non-empty ones given |
| Orchestrator.GeneratedIdsDiffer | app/domain/llm/service.py:160-167 | calls without an id get different ones |
| Anthropic.ChatStream | app/domain/llm/providers/anthropic.py:100-162 | the deltas are the translation of the events handled, then one `Done`; handling stops at the first event seen with the cancel event set; an exception yields no `Done` |
| Anthropic.BlocksSurvive | app/domain/llm/providers/anthropic.py:133-162 | any interleaving of tool blocks with anything else, input deltas of blocks that are not tool blocks included, is executed as exactly those blocks, id, name and arguments, ascending by index |
| Anthropic.TextSurvives | app/domain/llm/providers/anthropic.py:145-152 | the text streamed to the hub is the text blocks' pieces in order, without thinking |
| Anthropic.StopReasonIsTheLast | app/domain/llm/providers/anthropic.py:153-156 | the finish reason is the mapped last non-empty stop reason: `end_turn` is `stop`, `tool_use` is `tool_calls`, `max_tokens` is `length` |
| Anthropic.ToolUseRunsTheBlocks | app/domain/llm/providers/anthropic.py:133-162 | a response with tool blocks makes the loop go on if and only if it stopped for tool use |
| Anthropic.CancelledStreamEndsTheTurn | app/domain/llm/providers/anthropic.py:133-137 | a stream broken off by a cancellation is the last of its turn: none of its calls is executed or recorded, and the turn ends as `cancelled` with what was streamed so far |
| Anthropic.SplitSystem | app/domain/llm/providers/anthropic.py:41-45 | system prompts and the other messages, both in order |
| Anthropic.RequestSplits | app/domain/llm/providers/anthropic.py:41-45 | an orchestrator request splits back into its prompt and its conversation |
| Anthropic.ToApiMessages | app/domain/llm/providers/anthropic.py:48-82 | converts every message to its API form if and only if all non-empty arguments parse; a result is sent in the role of the user, anything else in its own |
| Anthropic.ApiFormKeepsMessages | app/domain/llm/providers/anthropic.py:48-82 | conversation messages with the same API form have the same role, text, result id and calls |
| Anthropic.LogConverts | app/domain/llm/providers/anthropic.py:66-80 | the messages of the first k rounds convert if and only if no call of those rounds has arguments that do not parse |
| Anthropic.RaisingEndsTheTurn | app/domain/llm/service.py:121-148 | the turn ends in the exception of call k if and only if the k rounds before it were completed and that call raises |
| Anthropic.MalformedArgumentsEndTheTurn | app/domain/llm/providers/anthropic.py:70-78 | when only conversion raises: an exception right after round k if and only if k is the first broken round and below four; at the first request if and only if the history does not convert; what an ended turn stores converts unless its fifth round was broken |
| Anthropic.MalformedFirstOrLast | app/domain/llm/providers/anthropic.py:70-78 | one malformed call for which the turn fails, and one for which it ends normally and is stored |
| Chat.RoundTrip | app/domain/chat/service.py:44-115 | a stored message reads back as itself if and only if it is of the kind the server produces |
| Chat.RecentIsLast | app/domain/chat/crud.py:28-39 | the query returns the last n rows of the session, oldest first |
| Chat.Latest | app/domain/chat/crud.py:11-17 | the hub's session with the highest id |
| Chat.ChatStore.GetOrCreateSession | app/domain/chat/service.py:27-33 | the latest session within 180 seconds, else a new one; the result is fresh and the hub's latest |
| Chat.ChatStore.AppendMessages | app/domain/chat/service.py:44-64 | appends the encoded messages to this session only and renews its activity time |
| Chat.ChatStore.LoadContext | app/domain/chat/service.py:36-41 | the last 20 messages of the session, decoded, and its summary |
| Chat.Collect | app/domain/chat/service.py:88-93 | the text pieces up to the first `Done` |
| Chat.UntilDoneIs | app/domain/chat/service.py:88-93 | those are the deltas before the first `Done`, all of them if there is none |
| Chat.ChatStore.MaybeRollSummary | app/domain/chat/service.py:67-102 | nothing up to 30 messages; otherwise target plus the last 20 is the whole session; only the summary changes, as `RolledLength` and `RollGrows` say |
| Chat.StoredTurnIsPaired | app/domain/voice/service.py:241-246 | what a turn stores is well formed and survives the columns |
| Chat.LoadedWindow | app/domain/chat/service.py:36-41 | after any sequence of turns the window is the last 20 messages, orphaned tool results only at its front |
| Chat.RowsOfLog | app/domain/chat/service.py:44-64 | after any commits to any sessions, the rows of a session are its own commits end to end |
| Chat.ContextGrows | app/domain/chat/service.py:36-64 | a stored turn goes to the end of its session's context, the last 20 staying; other contexts stay as they are |
| Chat.NextSession | app/domain/chat/service.py:27-33 | within three minutes of a stored turn a lookup finds its session, afterwards a new one |
| Conversation.SavedIsStoredTurn | app/domain/voice/service.py:241-246 | what a pipeline commits is a stored turn |
| Conversation.ServeTurn | app/domain/voice/service.py:182-246 | whenever the model is asked, it is asked with the window of the session found; the rows grow by exactly the committed turn, or not at all; which session takes the turn, that no other session changes, and when its summary rolls |
| Conversation.NextTurnRemembers | app/domain/voice/service.py:180-247 | the next turn of the hub is asked with the last 20 messages of what the saved turn was asked with and of that turn; of that turn alone if it was stored in a new session; with nothing if three minutes have passed |
| Conversation.ServeTwice | app/domain/voice/service.py:180-247 | that law for two runs of the pipeline, one after the other |
| Conversation.HubsAreSeparate | app/domain/voice/service.py:180-247 | a turn of one hub leaves another hub's session, rows and summary alone |
| Conversation.EveryFailureCounts | app/domain/voice/service.py:158-255 | without cancellation and barge-in, a run ends in an exception if and only if an await on its way or the provider raises; otherwise what was understood is answered and stored, anything else gets the one request to repeat |
| Conversation.TheUsersWords | app/domain/voice/service.py:163-246 | the model is first asked with prompt, context and the words as typed or heard, which are stored first and, if heard, sent as the transcript |
| Conversation.ContextAfterTurns | app/domain/chat/service.py:36-41 | after any history of turns over any sessions, a context is the last 20 messages of its session, orphans only at the front |
| Conversation.NextContextConverts | app/domain/chat/service.py:36-41 | after a stored turn the next context converts if and only if the turn did not end at the loop bound with malformed arguments in its fifth round and at most 18 calls there |
| Conversation.ContextThatDoesNotConvert | app/domain/llm/providers/anthropic.py:125-132 | every turn on such a context fails at its first request, without an event |
| Conversation.ServeOnBrokenContext | app/domain/voice/service.py:178-247 | on such a context nothing is answered or stored, and the session stays as it is |
| Conversation.SpokenAgain | app/domain/voice/service.py:229-234 | without a barge-in, the whole text is spoken again if and only if it is not empty and no sentence of it yielded any audio |
| Conversation.SpeaksTwice | app/domain/voice/service.py:229-234 | a run that hands "Hi." to the synthesiser twice |
| Chat.RollGrows | app/domain/chat/service.py:94-98 | a roll keeps the old summary as a prefix, stays within 2000, grows strictly until full |
| Chat.RolledLength | app/domain/chat/service.py:97-98 | the exact length after a roll, and that it is the beginning of the old summary, a separator and the addition |
| Chat.SummaryFills | app/domain/chat/service.py:94-98 | k successful rolls fill at least 4k - 3 characters, 501 fill it |
| Chat.SummaryFillsNoSooner | app/domain/chat/service.py:94-98 | the bound is reached: 500 one-character rolls leave room |
| Chat.SummariesNest | app/domain/chat/service.py:94-98 | every summary is a prefix of all later ones, and a full one never changes |
| Frames.StageIsConsistent | app/domain/voice/service.py:158-286 | what the automaton's stage says about `tts.start`, `tts.end`, the response and the error frame so far |
| Frames.StageIsOrderly | app/domain/voice/service.py:158-286 | audio only after `tts.start`; neither audio nor `tts.end` after the response |
| Frames.CompleteRunIsWellFormed | app/domain/voice/service.py:158-286 | closed frames end in `state idle`, start and end speech at most once, in order, speech started has ended when there is a response, and an error is reported at most once, as the stage says |
| Frames.ShownOneByOne | app/domain/voice/service.py:210-223 | what precedes the final event is shown as one frame each, in order: text as a subtitle, a tool's status with its name |
| Frames.Projections | app/domain/voice/service.py:210-239 | what the contracts say of audio, visible frames and responses is said of the frames sent |
| Pipeline.VoicePipeline.Pause | app/domain/voice/service.py:163-164 | one await that does not raise, cancelled as the world says; the cancel event is set exactly when the hub has barged in by then |
| Pipeline.VoicePipeline.PauseAt | app/domain/voice/service.py:163-164 | one await whose exception leaves the `try` block: it raises exactly when the world says so, unless it is cancelled |
| Pipeline.VoicePipeline.Send | app/domain/voice/service.py:288-289 | one frame sent, unless the task is cancelled there and the frame lost; no subtitle or tool status, and of all audio frames at most the last, is sent with the cancel event already set |
| Pipeline.VoicePipeline.SendChunk | app/domain/voice/service.py:271-281 | one chunk of audio, `tts.start` before the first |
| Pipeline.VoicePipeline.Speak | app/domain/voice/service.py:264-286 | sends a prefix of the synthesis, all of it unless the hub barged in or the task was cancelled; a synthesis that raises changes nothing after it, and nothing is raised |
| Pipeline.VoicePipeline.SpeakAll | app/domain/voice/service.py:218-219 | the sentences of one piece spoken once each, in order, and in full unless the hub barged in or the task was cancelled |
| Pipeline.VoicePipeline.SendResponse | app/domain/voice/service.py:235-239 | `tts.end` exactly when speech was started, then the one response |
| Pipeline.VoicePipeline.RespondFixed | app/domain/voice/service.py:257-262 | a request to repeat is spoken and sent as the response |
| Pipeline.VoicePipeline.ShowEvent | app/domain/voice/service.py:210-223 | keeps frames, speech and splitter in step with the events shown, a subtitle before its speech |
| Pipeline.VoicePipeline.StreamReply | app/domain/voice/service.py:201-223 | shows a prefix of the turn's events, none once the hub has barged in, and all of them unless it did, the task was cancelled, or the provider raised, which alone is passed on as an exception |
| Pipeline.VoicePipeline.FinishReply | app/domain/voice/service.py:229-239 | speaks the remainder, the whole text only when nothing has sounded, then responds, unless cancelled; never raises |
| Pipeline.VoicePipeline.Prepare | app/domain/voice/service.py:178-191 | `state thinking` and the loading of the context, which raises exactly when one of its four awaits does |
| Pipeline.VoicePipeline.Load | app/domain/voice/service.py:180-191 | the session, opened only when there is none active within three minutes, its context and its summary as they were stored |
| Pipeline.VoicePipeline.Converse | app/domain/voice/service.py:193-239 | the full reply, with no barge-in before the event loop ended; otherwise an exception, the provider's only and after all it yielded was shown, or `state idle` without a response, after a barge-in only |
| Pipeline.VoicePipeline.StoreTurn | app/domain/voice/service.py:241-247 | raises exactly when the session, the commit or the summary does; the rows grow by the turn exactly when it was committed; it goes into the hub's latest session if that was active less than three minutes ago, else into a new one, which is active now; over 30 rows the summary rolls, if the await for it ends well |
| Pipeline.VoicePipeline.Answer | app/domain/voice/service.py:178-247 | the model is asked with this prompt and history; an exception ends the turn exactly when the context cannot be loaded, the provider's exception is reached, or the answered turn cannot be stored; without one the turn is answered and stored, or the hub has barged in; what is stored is the user's words and the turn's messages, after the response only |
| Pipeline.VoicePipeline.SendTranscript | app/domain/voice/service.py:175-176 | the final transcript, before anything else |
| Pipeline.VoicePipeline.Respond | app/domain/voice/service.py:160-247 | a recognition that raises ends the turn; unclear speech leads to the request to repeat, stores nothing and opens no session; everything else opens with the transcript, if spoken, and `state thinking`, and is answered |
| Pipeline.VoicePipeline.CloseOut | app/domain/voice/service.py:249-255 | exactly one error frame after an exception and none otherwise, then `state idle`, each lost only to a cancellation in its own send |
| Pipeline.VoicePipeline.Run | app/domain/voice/service.py:158-255 | for all worlds the frames stay in the grammar; unless cancelled, the `try` block ends in an exception if and only if recognition, the context, the provider or the storing raises where it is reached, and one error frame is sent if and only if it does; otherwise unclear speech gets the request to repeat and anything else the complete turn, asked, shown, spoken once and in order, and stored, unless the hub barged in; the audio is always a first part of what was spoken, and all of it in an answered turn without a barge-in; nothing is spoken before its subtitle; the rows grow by exactly what was saved, in the session and with the summary `StoreTurn` describes |
| Pipeline.TextIsConserved | app/domain/voice/service.py:201-239 | response text, concatenated subtitles, and the splitter's segments with its remainder are one text |
| Utterance.UtteranceBuffer.BeginUtterance | app/domain/voice/service.py:122-125 | empties the buffer and starts collecting |
| Utterance.UtteranceBuffer.ResetUtterance | app/domain/voice/service.py:127-129 | empties the buffer and stops collecting |
| Utterance.UtteranceBuffer.EndUtterance | app/domain/voice/service.py:131-137 | hands over what was collected, nothing when not collecting |
| Utterance.UtteranceBuffer.HandleBytes | app/domain/voice/service.py:106-114 | keeps a tagged payload while collecting, drops the utterance when it would overflow |
| Utterance.BufferRefinesLog | app/domain/voice/service.py:83-137 | the buffer collects exactly while the log records an utterance and then holds its payloads since the latest start; empty otherwise; at most 639999 bytes |
| BargeIn.ReachableInv | app/domain/voice/service.py:141-156 | the invariant of every reachable state |
| BargeIn.OnlyTheCurrentTaskRuns | app/domain/voice/service.py:141-148 | every task but the current one is done or about to be cancelled |
| BargeIn.AtMostOneLateChunk | app/domain/voice/service.py:264-282 | no two steps of a task send audio with its event set |
| BargeIn.NothingIsShownLate | app/domain/voice/service.py:205-223 | no step of a task shows an event with its event set |
| BargeIn.AtMostOneLateTool | app/domain/voice/service.py:205-227 | no two steps of a task start a tool with its event set |
| BargeIn.TasksReadTheirOwnEvent | app/domain/voice/service.py:141-148 | a task not yet cancelled reads the event installed at its own creation |
| BargeIn.EventSetOnlyByItsOwnStops | app/domain/voice/service.py:141-156 | a task's event is set if and only if a barge-in or start was handled while it was current |
| BargeIn.BreakingOffHasACause | app/domain/voice/service.py:208-227 | a task that leaves its event loop early was meant by some barge-in or start |
| BargeIn.CancelledTasksFallSilent | app/domain/voice/service.py:116-148 | a cancelled task sends no more audio and two of its own steps finish it |
| BargeIn.IdleStartIsServed | app/domain/voice/service.py:141-148 | a start that finds no task running adds one fresh task, its event unset, all earlier ones done or about to be cancelled |
| BargeIn.BusyStartIsServed | app/domain/voice/service.py:141-148 | a start that finds a task running sets its event and, whatever tasks do meanwhile, adds one fresh task when the handler resumes |
| BargeIn.BargeInIsServed | app/domain/voice/service.py:150-156 | a barge-in sets the newest task's event, adds no task and leaves the handler ready |
| BargeIn.DisconnectStopsEverything | app/domain/voice/service.py:116-118 | after a disconnect every task is done or about to be cancelled, for good, and none is added |
| BargeIn.ATaskLeftAloneAnswers | app/domain/voice/service.py:158-286 | a fresh task that nobody stops can show any number of events, send any number of chunks for each, and finish |
| Timers.ClockTimesAreNext | app/domain/timer/service.py:35-40 | the result is the least later instant with that time of day if and only if the second clock reading has not yet reached the following occurrence; with one reading always, and within a day |
| Timers.MidnightCanPass | app/domain/timer/service.py:37-39 | a pair of readings for which the result is not in the future |
| Timers.OtherTimes | app/domain/timer/service.py:28-42 | a duration counts from now whatever else is given, an ISO instant is taken as it is, and nothing else but a time of day is accepted |
| Timers.TimerService.Schedule | app/domain/timer/service.py:95-101 | one job per timer, by cron when there is one and by date otherwise; raises, with no job added, exactly on a rejected cron |
| Timers.TimerService.Unschedule | app/domain/timer/service.py:104-107 | the timer's job is gone and no other |
| Timers.TimerService.CreateTimer | app/domain/timer/service.py:44-67 | neither row nor job for an unknown kind; otherwise the row, and its job exactly when the scheduler does not reject the cron |
| Timers.TimerService.CancelTimer | app/domain/timer/service.py:70-82 | by id whatever the hub, else by label within the hub; row and job go together; not found changes nothing |
| Timers.TimerService.RescheduleAll | app/domain/timer/service.py:85-92 | looking at the rows one by one, up to the first rejected cron, gives the stores `RestoredRows` describes, and `RestartRestores` says what those are |
| Timers.RestartRestores | app/domain/timer/service.py:85-92 | of the rows dealt with, a restart removes exactly the one-shots due by then and gives every other its job; the rows after them stay, without a job |
| Timers.ReachableInv | app/domain/timer/service.py:44-128 | the invariant over create, with rejected crons too, cancel, fire, crash, restart and failing restart |
| Timers.PushedAtMostOnce | app/domain/timer/service.py:85-128 | a one-shot is pushed at most once in any run, a crash between push and delete included, and not before its time |
| Timers.PendingTimersAreKept | app/domain/timer/service.py:44-128 | in every run, what was never cancelled is still stored: a one-shot until it is due, anything else for good |
| Timers.DueTimersFire | app/domain/timer/service.py:110-128 | a stored timer with a due job can always be fired; it is then pushed once, a one-shot is gone, one with a cron is as it was |
| Timers.StoresAgree | app/domain/timer/service.py:44-128 | in every quiescent state a stored timer has its job, with the trigger its row determines, if and only if no step since the last crash took it away: its creation with a rejected cron, its date job running although it is cronless, or a restart failing before its row |
| Timers.CarefulRunsAgree | app/domain/timer/service.py:44-128 | without cronless timers, rejected crons and failing restarts, table and jobs agree in every quiescent state |
| Timers.CronlessTimerLosesItsJob | app/domain/timer/service.py:97-128 | any cronless timer, whenever due, is stored without a job after it has fired |
| Devices.ResolveIsOrderFree | app/domain/device/service.py:81-124 | permuting the rows changes neither the kind of answer, the device, nor the multiset of candidates |
| Devices.ResolveByScope | app/domain/device/service.py:93-124 | the answer is decided by how many rows are in scope |
| Devices.ResolveIsSound | app/domain/device/service.py:81-124 | found if and only if one row is in scope, not found if and only if none is, ambiguous with at least two, each candidate naming room and device of a row in scope; cross-room if and only if no room was named and none matches at the hub |
| Devices.ReferenceFinds | app/domain/device/service.py:60-124 | nothing is found if and only if no device in the named room can be meant, by name or by an alias word; what is found can be meant and is in the room named, or in the hub's when it is not cross-room |
| Devices.AliasFinds | app/domain/device/service.py:75-77 | an alias word finds the one device of its kinds, unless another can be meant |
| Devices.SpacesDoNotMatter | app/domain/device/service.py:60-61 | a name written with or without a space is the same name |
| Devices.OwnName | app/domain/device/service.py:69-124 | a stored device's own name yields it or an ambiguity, and yields it if and only if nothing else matches |
| Devices.TouchCanBeAmbiguous | app/domain/device/api.py:104-119 | two devices for which a touch command is refused |
| Devices.ExecuteWithRetry | app/domain/device/service.py:130-150 | the first success among three attempts, or the last failure |
| Devices.DeviceService.ControlDevice | app/domain/device/service.py:153-195 | the adapter is called only for a resolved device whose own capabilities, or else its kind's, include the one asked for; its online flag becomes whether an attempt worked; only success is broadcast |
| Scenarios.GroupActions | app/domain/scenario/service.py:77-89 | groups concatenate to the actions, a larger group shares one non-null number, neighbours never do |
| Scenarios.GroupingIsUnique | app/domain/scenario/service.py:77-89 | these conditions have only one solution |
| Scenarios.RunGroup | app/domain/scenario/service.py:35-51 | whatever coroutine runs next, the outcomes come in action order and depend on the answers alone |
| Scenarios.RetriesLikeControl | app/domain/scenario/service.py:98-105 | a device command works if and only if it is complete, its device stored, its adapter known, and one of three attempts works |
| Scenarios.ScenarioRunner.ExecuteScenario | app/domain/scenario/service.py:26-74 | one result per action in order: a command as `RetriesLikeControl` says, a wait if its seconds are a number, an announcement if it has hub and text and is delivered, nothing else; each device ends with the outcome of its last command; ok exactly when all are |
| Scenarios.OnlineIsLastOutcome | app/domain/scenario/service.py:53-61 | a device ends with the outcome of the last action that is a command for it, others keep their flag |
| Schedules.JobIsWanted | app/domain/scenario/service.py:143-160 | registering a scenario gives it the last cron it asks for, if and only if none is rejected, or the last one before the first rejected one is the same |
| Schedules.LastCronIsLast | app/domain/scenario/service.py:151-159 | with no rejected cron the job is the last one asked for |
| Schedules.WantedIs | app/domain/scenario/service.py:149-159 | an enabled scenario should run by its last non-empty schedule cron; without one, or disabled, not at all |
| Schedules.ScenarioService.SyncSchedule | app/domain/scenario/service.py:143-160 | the scenario's job becomes the one its row asks for; raises exactly on a rejected cron |
| Schedules.ScenarioService.CreateScenario | app/domain/scenario/api.py:20-34 | a taken name changes nothing; otherwise the row is stored and synchronised, and the call raises exactly when a cron is rejected |
| Schedules.ScenarioService.DeleteScenario | app/domain/scenario/api.py:54-61 | row and job go together |
| Schedules.ScenarioService.SyncAllSchedules | app/domain/scenario/service.py:163-167 | every row is synchronised up to the first that raises |
| Schedules.ReachableInv | app/domain/scenario/service.py:143-167 | the invariant over create, delete and restart |
| Schedules.JobsAgree | app/domain/scenario/service.py:143-167 | after any run only stored scenarios have jobs, and a stored one has the job it should have, the last cron it asks for while enabled, if and only if neither the last restart raised before its row nor a cron of its own was rejected on the way |
| Schedules.CarefulRunsAgree | app/domain/scenario/service.py:143-167 | if no scenario with a rejected cron is created, there are jobs for exactly the enabled scenarios that ask for one |
| Schedules.ResyncChangesNothing | app/domain/scenario/service.py:163-167 | where the jobs are those of the rows, synchronising any rows again, any number of times, changes nothing |
| Schedules.SettledAgrees | app/domain/scenario/service.py:143-167 | where no stored cron is rejected, the jobs of the rows are the jobs they ask for |
| Schedules.RejectedCronHidesTheNext | app/domain/scenario/service.py:163-167 | a valid scenario without a job after a restart |
| Schedules.RejectedCronIsStored | app/domain/scenario/service.py:151-159 | a scenario whose only cron is rejected is stored, enabled and without a job |
| Startup.Restore | app/main.py:55-63 | everything is restored if and only if no stored, enabled scenario and no stored timer has a rejected cron; otherwise the timers are dealt with up to the first rejected one, none at all if it was a scenario's, and the rest have no job and none of them is removed |
| Connections.HubConnectionManager.Register | app/core/websocket.py:13-16 | the hub maps to the new socket, other hubs unchanged |
| Connections.HubConnectionManager.Unregister | app/core/websocket.py:18-21 | removes the hub only when it still maps to this socket |
| Connections.MapsToTheLastOpenSocket | app/core/websocket.py:13-24 | in every run a hub maps to a socket if and only if it registered last and has not been closed since |
| Connections.GetFindsTheLastOpenSocket | app/core/websocket.py:23-24 | a push finds that socket and no other |
| Connections.LatestUntilClosed | app/domain/voice/ws.py:69-86 | with one registration and one close per socket, the latest socket is reachable exactly until its close |
| Connections.LateCloseIsHarmless | app/core/websocket.py:18-21 | the close of a replaced socket changes nothing |

## Left out

- Pipeline.VoicePipeline.Send: sends do not raise; a dead socket is not modelled.
- Pipeline.VoicePipeline.Speak: the synthesiser's sample rate, which `tts.start` announces, is not modelled.
- Pipeline.VoicePipeline.Converse: the turn's events are computed before they are shown, while the source pulls them from a generator; which tools still run after a barge-in is the subject of `BargeIn.AtMostOneLateTool`, on values.
- Pipeline.VoicePipeline.Run: after a first cancellation a second one may hit the sends of `except` and `finally`; libraries that swallow a cancellation are not modelled. A cancellation during an await of the database takes effect as a whole or not at all, and one during the summary keeps it from being rolled.
- Pipeline.VoicePipeline.Prepare: device block and scenario names are part of the arbitrary function that makes the prompt.
- BargeIn.ReachableInv: the handler is a step machine on values, not a class; `session_id` and `request_id`, which are attributes like `_cancel`, are not in the state.
- Orchestrator.RunTurn: the provider's whole stream is one value; time passing between deltas is not modelled, only whether the first one arrived in time.
- Anthropic.MalformedArgumentsEndTheTurn: other reasons for the provider to raise are excluded by `RaisesOnConversion`; without it the turn may fail earlier.
- Anthropic.ToApiMessages: JSON is an arbitrary predicate on strings, and a parsed object is represented by its source text.
- Anthropic.ChatStream: token usage and the registry of cancel events are not modelled; the cancel event is an arbitrary function of the event looked at.
- Conversation.ServeTurn: nobody else writes to the store while the pipeline runs; turns of other hubs come before or after it.
- Conversation.NextTurnRemembers: of the turns in between only those of other hubs are considered, and one hub's turns do not overlap in the store.
- BargeIn.ATaskLeftAloneAnswers: that the scheduler runs a task at all is not modelled; what is proved is that it can go on.
- Chat.ChatStore.MaybeRollSummary: the transcript and prompt sent for the summary are not modelled, nor is a failing commit.
- Timers.TimerService.CancelTimer: `row` stands for whichever labelled row the database returns.
- Startup.Restore: an exception of the database is not modelled here; in the step machine it is a restart that fails at that row.
- Timers.ClockTimesAreNext: `at` arrives parsed; splitting and converting the string is not modelled.
- Timers.PushedAtMostOnce: a push counts when it is attempted; ids are not reused, date jobs do not run early, and misfire rules and time zones are not modelled.
- Devices.ResolveIsSound: `lower` and the alias table are arbitrary, so nothing depends on their contents.
- Scenarios.ScenarioRunner.ExecuteScenario: result details, the broadcast, and devices deleted or controlled while the scenario runs are not modelled.
- Schedules.JobsAgree: what a job runs, and editing a scenario, which the API does not offer, are not modelled.
- `announce` frames reach the same socket outside a pipeline's own sends and are not part of the frame grammar.
- Device queries, discovery, rooms and the prompt block: reads with no state worth a theorem.
- The OpenAI-compatible provider: the same shape as the Anthropic one with a thinner mapping.
- The tool registry, authentication, pairing, routing, settings, localisation and logging: plumbing.
