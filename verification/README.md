# What everywhere's engine keeps

A Dafny model of the daemon, worker and web parts that turn an agent's words
into a thread's timeline, and of the small algorithms beside them, with proofs
of what they promise.

- **A harness connection** (`Messages`, `PermissionOptions`, `Protocol`,
  `ConnModel`, `ConnSafety`, `ConnRuns`, `ConnLaws`, `Conn`) turns an ACP
  agent's updates into the engine's message stream: streamed blocks in brackets,
  tool uses and results, permission prompts, one result per prompt. `Protocol`
  says what a good stream is, as two automata and, position by position, what
  they accept. `ConnModel` says what each critical section does; the class in
  `Conn` does it in place; `ConnSafety` and `ConnRuns` prove what every
  interleaving keeps, and `ConnLaws` what each step comes to in terms of what
  goes in and out.
- **A thread's session** (`SessionLog`, `SessionModel`, `SessionSafety`,
  `SessionLaws`, `SessionRuns`, `SessionStops`, `SessionRetries`, `Session`) is
  the object one goroutine owns: turns begun and ended from many handlers, the
  permission table, process events held for the next prompt, live text, sign-in
  retries and the status. `SessionLaws` says what each action comes to: what it
  records and sends, and how the turn stands. `Fidelity` composes it with a
  connection: the live text a client sees is exactly the block the connection is
  streaming; and `Conservation` goes from the agent's chunks to the
  session's record, where each is shown once.
- **Queues and calls** (`Pump`, `Calls`): the message pump, a tab's event queue
  and call/reply tables, as interleaved steps.
- **A small compiler** (`Regexp`, `Glob`, `GlobProof`, `GlobLaws`): globs to
  regular expressions, down to the characters written and how Go reads them.
- **The assistant's log** (`Framing`, `AssistantModel`, `AssistantRuns`,
  `Assistant`): frames cut greedily and optimally, tabs that catch up, one runner
  at a time, over every run.
- **Codecs and bounded logs** (`Resampler`, `Base32`, `Logs`), **pictures**
  (`Images`) and **a tab's input and frames** (`Tab`).

Objects of the source are classes here. Each class has a `View` (or a `Valid`)
that gives its state as a value, and each of its methods is proved to compute a
function of that value; the theorems are about those functions, over every run.

Where the code differs from its own comments, the model follows the code:

- "A /recap must stay a slash command" (session.go:345): one sent while a turn
  is active carries held process events. `SessionRuns.RecapCarries` gives the
  exact condition.
- A prompt sent during a turn "waits for it to end" (`Send`, conn.go:192), but
  an interrupt drops it without a word (conn.go:279). `ConnRuns.OnlyInterruptsDrop`
  says that nothing else drops one, and `ConnRuns.AnInterruptDrops` is a run where one is.
- A turn that lost the sign-in race is meant to be retried at most three times
  (auth.go:33). It is retried more often when the count is reset while retries
  go on: by a prompt that is then ignored or fails (session.go:291 resets before
  `send` looks at it), or by a completed result between turns (session.go:1322).
  `SessionRetries.RetriesAreBounded` proves the bound for every other run,
  `SessionRetries.WhenMoreCanFollow` and `EarlyResetsLetMoreFollow` say exactly
  when it can be passed, and `SessionRetries.AnyNumberOfRetries` retries one
  prompt as often as one likes.
- A joining tab is shown "what that turn is doing" (assistant.ts:41), but a
  runner's close is ignored when its socket is no longer open (assistant.ts:227-236),
  and its last report is then shown as the next runner's: `AssistantRuns.StaleLive`
  is such a run, and `AssistantRuns.ShownIsTheRunnersOwn` gives the exact condition.

Check it all with `dafny verify dfyconfig.toml` (Dafny 4.11).

## Model

| member | source | states |
|---|---|---|
| Protocol.OpenBlockIsItsBracket | daemon/internal/harness/conn.go:464-493 | while a block is open, an accepted stream ends in its bracket: its message start, its kind, then only its deltas and unrelated messages, and the deltas joined are its text |
| Protocol.EveryBlockIsWhole | daemon/internal/harness/conn.go:464-513 | every completed block closes its own bracket: no tool use, other block or result went out since its start, and its text is its deltas joined |
| Protocol.BlocksConserveDeltas | daemon/internal/harness/conn.go:464-513 | per kind, the completed blocks and the open one join to exactly the deltas streamed |
| Protocol.ResultsComeBetweenBlocks | daemon/internal/harness/conn.go:219-248 | when a turn's result goes out every delta before it is in a completed block |
| Protocol.ResultsAreCounted | daemon/internal/harness/conn.go:240 | the automaton's count of results is the number of results in the stream |
| Protocol.UnmatchedIsTheDifference | daemon/internal/harness/conn.go:515-564 | per tool id, the unanswered uses are the uses less the results |
| Protocol.EveryResultHasItsUse | daemon/internal/harness/conn.go:515-564 | every tool result is preceded by more uses of its tool than results |
| Protocol.EveryRequestFollowsItsUse | daemon/internal/harness/conn.go:582-636 | every permission prompt follows a use of its tool and is shown once |
| Protocol.AskedWasEmitted | daemon/internal/harness/conn.go:629 | a request counts as asked exactly when its prompt is in the stream |
| Harness.ReadOptions | daemon/internal/harness/conn.go:590-607 | which option each answer picks: the last of its kind; reject_always fills only an empty deny, since the last reject_once, and allow_always an empty allow; each is the id of an option offered |
| Harness.Conn.EmitLocked | daemon/internal/harness/conn.go:671-677 | a message joins the output, unless the agent exited |
| Harness.Conn.FlushOneLocked | daemon/internal/harness/conn.go:495-508 | an open block of one kind is completed with all its text; nothing if none is open |
| Harness.Conn.FlushLocked | daemon/internal/harness/conn.go:510-513 | both kinds are completed, thinking first |
| Harness.Conn.StreamLocked | daemon/internal/harness/conn.go:467-493 | a chunk joins its kind's block; the other kind's is completed before, and a block is opened if needed; an empty chunk does nothing |
| Harness.Conn.ReadContents | daemon/internal/harness/conn.go:522-532 | a tool call's output is the last text its updates brought |
| Harness.Conn.ToolLocked | daemon/internal/harness/conn.go:515-553 | a call is shown once it runs; once done it is answered, if it was shown, and forgotten |
| Harness.Conn.EmitToolLocked | daemon/internal/harness/conn.go:555-564 | the open block is completed before a tool use goes out |
| Harness.Conn.PlanLocked | daemon/internal/harness/conn.go:568-578 | a plan is a tool use answered at once |
| Harness.Conn.OnNotify | daemon/internal/harness/conn.go:412-462 | what each update does to the whole state; while a session is reloaded only settings pass |
| Harness.Conn.OnRequest | daemon/internal/harness/conn.go:582-630 | a request's tool is shown first, then it is registered and shown; after the exit it is not |
| Harness.Conn.Respond | daemon/internal/harness/conn.go:257-269 | the locked half: a waiting request is taken, once, and its answer is on its way; any other id does nothing |
| Harness.Conn.RespondSend | daemon/internal/harness/conn.go:270-271 | the unlocked half keeps the invariant, and its send finds an open and empty channel, so it neither blocks nor panics |
| Harness.Conn.Interrupt | daemon/internal/harness/conn.go:277-288 | whatever order the table is walked in, every waiting request is cancelled once and the queue is dropped; no send blocks or meets a closed channel |
| Harness.Conn.Send | daemon/internal/harness/conn.go:194-217 | a prompt of the parts the agent takes runs at once or waits; an empty one is skipped |
| Harness.Conn.PromptReturned | daemon/internal/harness/conn.go:223-252 | a turn ends with its result, and the first waiting prompt takes its place |
| Harness.Conn.EndTurnLocked | daemon/internal/harness/conn.go:224-241 | both blocks are completed before the result; the tool calls are forgotten |
| Harness.Conn.AgentExited | daemon/internal/harness/conn.go:98-108 | nothing more goes out, and each waiting request's channel is closed, once |
| Harness.Conn.PumpTake | daemon/internal/harness/conn.go:681-697 | the pump takes the oldest message |
| Harness.Conn.PumpDeliver | daemon/internal/harness/conn.go:681-697 | the pump hands over what it took |
| ConnSafety.StepKeeps | daemon/internal/harness/conn.go:98-688 | every step of every goroutine keeps the connection's invariant |
| ConnSafety.EveryRunIsSafe | daemon/internal/harness/conn.go:98-697 | the invariant holds after any interleaving of the agent, the user, answers in flight, the exit and the pump |
| ConnRuns.NoChunkIsLost | daemon/internal/harness/conn.go:412-513 | until the exit, per kind: the completed blocks that went out, then the open one, are exactly the chunks that came in outside a reload; at most one block is open |
| ConnRuns.PromptsAreSerial | daemon/internal/harness/conn.go:194-288 | at most one prompt runs; those begun then those waiting are in the order sent; each sent one was begun, waits or was dropped; each begun one has one result but the one running |
| ConnRuns.ResultBeforeTheNextPrompt | daemon/internal/harness/conn.go:219-252 | a turn's result is the last thing out, with no block open and one result per prompt begun, before the next begins |
| ConnRuns.OnlyInterruptsDrop | daemon/internal/harness/conn.go:277-279 | only an interrupt drops prompts, and then all that wait |
| ConnRuns.AnInterruptDrops | daemon/internal/harness/conn.go:192-279 | for any two prompts, a run in which the second, sent during the first's turn, is dropped |
| ConnRuns.PermissionsSettleOnce | daemon/internal/harness/conn.go:98-288 | in every run a request's channel is settled at most once, and exactly once when it neither waits nor is being answered; after the exit none is left |
| ConnRuns.SettledForGood | daemon/internal/harness/conn.go:257-288 | no later step changes a settled request's outcome |
| ConnRuns.TheAnswerArrives | daemon/internal/harness/conn.go:257-272 | a denial that was taken sends the deny option; an approval the session's, if there is one and it is wanted, or else the allow option; exactly that is what the request gets |
| ConnRuns.DeliveredInOrder | daemon/internal/harness/conn.go:681-697 | the engine has a prefix of the output, and all of it once the stream is closed, which is after the exit |
| ConnRuns.OutputIsWellFormed | daemon/internal/harness/conn.go:412-697 | both automata accept the whole output of every run |
| ConnLaws.TheUsersAnswerIsSent | daemon/internal/harness/conn.go:257-272 | in every run, whatever comes between request, answer and sending: a denial sends the id of an option offered as reject_once, or failing that as reject_always, and an approval one offered to allow, the session's exactly when it is wanted or the only one; nothing only if none of that sort was offered |
| ConnLaws.ToolsAreShownAndAnswered | daemon/internal/harness/conn.go:515-564 | in terms of the updates alone: when a call is shown, when it is answered, with which text, whether as failed, and that it is new afterwards |
| ConnLaws.PlansAreShown | daemon/internal/harness/conn.go:566-578 | a plan adds its tool use and a result that did not fail |
| ConnLaws.OnlySettingsDuringAReload | daemon/internal/harness/conn.go:412-462 | settings that report something are told at any time; during a reload nothing else changes anything |
| ConnLaws.NothingAfterTheExit | daemon/internal/harness/conn.go:98-108 | from the exit on the output never grows, in every run |
| ConnLaws.RequestsAreShown | daemon/internal/harness/conn.go:582-630 | what a request adds to the output, and that it waits, exactly when the agent still runs |
| ConnLaws.InterruptsWithdraw | daemon/internal/harness/conn.go:277-288 | each waiting request is withdrawn once, in the table's order, and gets the empty answer; nothing waits or queues afterwards |
| ConnLaws.TurnsEndWithTheirResult | daemon/internal/harness/conn.go:219-248 | which ends of the agent's call are failures and what each says; the result comes last, after what was streamed, and the tools are forgotten |
| ConnLaws.PromptsCarryTheirParts | daemon/internal/harness/conn.go:194-210 | the prompt is exactly the parts with text, and the images with data if the agent takes images, in order |
| ConnLaws.PromptsRunOrWait | daemon/internal/harness/conn.go:210-217 | a prompt that is not empty runs exactly if none does, and otherwise waits last |
| SessionLog.ActiveSinceTheLastStart | daemon/internal/agent/session.go:1434-1469 | in an orderly record a turn is active exactly when a start is the last turn event |
| SessionLog.TurnsAlternate | daemon/internal/agent/session.go:1434-1469 | between two turn starts there is a turn end |
| SessionLog.OutcomesByTheEnd | daemon/internal/agent/session.go:1442-1446 | at a turn's end every request made has exactly one outcome; no outcome comes unasked or twice |
| SessionLog.DoneIsEarned | daemon/internal/agent/session.go:1442-1456 | a turn marks its thread done right as it completes, and only if that was asked in the same turn with no prompt since |
| SessionLog.EarnedIsMarked | daemon/internal/agent/session.go:1442-1456 | and a completed turn in which that was asked, with no prompt since, marks its thread done at once |
| Agent.Remove | daemon/internal/agent/session.go:1503-1508 | the loop leaves out the first match |
| Agent.ExtendAll | daemon/internal/agent/session.go:1177-1184 | text goes to the streamed blocks with the key and to no other |
| Agent.TakeOldest | daemon/internal/agent/session.go:1516-1524 | the first streamed block of a kind in an API message, and the others in order |
| Agent.Session.PushState | daemon/internal/agent/session.go:1583-1622 | the status is recomputed; only an idle, out-of-date process is closed |
| Agent.Session.StartProc | daemon/internal/agent/session.go:444-508 | a process runs afterwards, or it is reported that none does, with the status of each failure |
| Agent.Session.StartTurn | daemon/internal/agent/session.go:1434-1440 | a turn begins: marks cleared, the retry disarmed, the start logged |
| Agent.Session.Settle | daemon/internal/agent/session.go:1497-1512 | a waiting request gets its outcome and leaves both tables; any other id does nothing |
| Agent.Session.StopTurn | daemon/internal/agent/session.go:1442-1469 | whatever order the table is walked in: all that waits is canceled, then the end, then done if it was earned |
| Agent.Session.SendPrompt | daemon/internal/agent/session.go:324-376 | what a prompt does in every case, and exactly when it fails |
| Agent.Session.HandleRequest | daemon/internal/agent/session.go:283-322 | a client's request that is enabled keeps the invariant, with the state pushed after it, and is answered with an error exactly when it fails; a prompt of the user's resets the retries |
| Agent.Session.InterruptTurn | daemon/internal/agent/session.go:672-684 | a stop without a turn does nothing; a process that does not take it is closed, and is there; the invariant is kept |
| Agent.Session.Answer | daemon/internal/agent/session.go:812-833 | an answer resolves a waiting request if the process, which the invariant says is there, takes it, and fails exactly otherwise |
| Agent.Session.Finished | daemon/internal/agent/manager.go:238-252 | thread_done waits for the running turn, or marks at once; it reports which, and keeps the invariant |
| Agent.Session.HearProcess | daemon/internal/agent/session.go:383-416 | a process event joins the turn, starts one or is held; it stays held when its start or send fails; the invariant is kept |
| Agent.Session.ContinueAfterUpdate | daemon/internal/agent/session.go:428-442 | a turn interrupted by an update goes on, or the failure is noted; the invariant is kept |
| Agent.Session.RetryNow | daemon/internal/agent/session.go:1398-1421 | a retry timer does nothing unless it is the one armed, and then no turn runs that its own would begin in; the invariant is kept |
| Agent.Session.IdleTooLong | daemon/internal/agent/session.go:224-229 | only a process with no turn and no waiting request is closed; the invariant is kept |
| Agent.Session.StreamEvent | daemon/internal/agent/session.go:1127-1188 | a stream event begins a turn if none runs, and its text goes to the block with its key |
| Agent.Session.AssistantMessage | daemon/internal/agent/session.go:1190-1251 | complete blocks take their streamed ones; sign-in errors are retried a bounded number of times |
| Agent.Session.TurnResultCame | daemon/internal/agent/session.go:1286-1334 | how a result reads, in order of precedence; a lost sign-in race is retried later |
| Agent.Session.PermissionAsked | daemon/internal/agent/session.go:1336-1361 | a request waits, inside a turn |
| Agent.Session.Handle | daemon/internal/agent/session.go:1006-1045 | which messages change what, and which push the state; each keeps the invariant |
| Agent.Session.Exited | daemon/internal/agent/session.go:1364-1384 | an active turn ends, as interrupted if that was expected; the process, the turn, what waited and the live text are gone; the invariant is kept |
| Agent.Session.StopAndDrain | daemon/internal/agent/session.go:804-810 | a closing process's last messages are all handled, each from a state that keeps the invariant, before its end |
| Agent.Session.RestartProc | daemon/internal/agent/session.go:689-698 | a restart ends the process and its turn before the next start, and fails exactly when that does |
| Agent.Session.RollBack | daemon/internal/agent/session.go:704-767 | a rewind is refused during a turn; exactly when it fails |
| SessionSafety.MessageKeeps | daemon/internal/agent/session.go:1006-1361 | every process message keeps the session's invariant |
| SessionSafety.SendKeeps | daemon/internal/agent/session.go:324-376 | a prompt keeps the invariant however its start, files and send go |
| SessionSafety.ProcessEventKeeps | daemon/internal/agent/session.go:383-416 | so does a process event, whose turn never begins inside another |
| SessionSafety.RetryFiredKeeps | daemon/internal/agent/session.go:1398-1421 | so does a retry's timer, whose turn never begins inside another |
| SessionSafety.ExitKeeps | daemon/internal/agent/session.go:1364-1384 | so does an exit, after which no turn, request or live text is left |
| SessionRuns.EveryRunIsSafe | daemon/internal/agent/session.go:208-243 | the invariant holds at every handler boundary of every run |
| SessionRuns.NoProcessIsMissing | daemon/internal/agent/session.go:812-833 | no handler uses a missing process; a turn has one; what waits is exactly what clients are shown, and only during a turn |
| SessionRuns.TurnsNeverNest | daemon/internal/agent/session.go:1434-1440 | in the record of every run no turn starts inside a turn |
| SessionRuns.ActiveMeansStarted | daemon/internal/agent/session.go:1434-1469 | a turn is active exactly when a start is the last turn event |
| SessionRuns.PermissionsGetOneOutcome | daemon/internal/agent/session.go:1336-1512 | every request gets exactly one outcome by its turn's end; the waiting ones are those without |
| SessionRuns.DoneIsEarnedInEveryRun | daemon/internal/agent/session.go:1442-1456 | done follows thread_done of the same turn, no prompt since, and a completed turn |
| SessionRuns.EarnedIsMarkedInEveryRun | daemon/internal/agent/session.go:1442-1456 | in every run a completed turn in which thread_done was asked, with no prompt since, is followed at once by the mark |
| SessionRuns.EventsAreConserved | daemon/internal/agent/session.go:324-425 | every process event is held or was carried by one message that the process took; the held ones keep their order |
| SessionRuns.RecapCarries | daemon/internal/agent/session.go:335-348 | a /recap carries held events exactly when a turn is active and something is held (and the send succeeds) |
| SessionRuns.ARecapWithEvents | daemon/internal/agent/session.go:335-348 | a run in which one does, against the comment at line 345 |
| SessionRuns.TheStatusIsTrue | daemon/internal/agent/session.go:1583-1622 | in every run the status at a handler boundary says exactly whether a request waits, or else a turn runs, or else the process idles; without a process it stopped or failed |
| SessionRuns.OnlyIdleProcessesAreClosed | daemon/internal/agent/session.go:1583-1622 | the idle timer and an out-of-date build never close a process whose turn runs or whose request waits |
| SessionStops.AStoppedTurnEndsStopped | daemon/internal/agent/session.go:672-1384 | in every run, if the user stops while a turn runs, the first end recorded from there on is an interruption, whether a result, an exit, a restart or a closing process's last words brought it; until then the turn runs, and no done mark comes before the next turn starts |
| SessionLaws.ActionsDo | daemon/internal/agent/session.go:283-442 | what each request, event and timer adds to the record, sends, with which held events, leaves held, and how the turn stands then, in every case of starts, sends and files |
| SessionLaws.MessagesDo | daemon/internal/agent/session.go:1006-1361 | what each process message adds to the record and how the turn stands then; a message sends nothing |
| SessionLaws.PermissionDoes | daemon/internal/agent/session.go:1336-1361 | a request begins a turn if none runs, is recorded, and joins what waits last |
| SessionLaws.ExitsDo | daemon/internal/agent/session.go:1364-1384 | an exit cancels what waits and ends the turn, as interrupted exactly if it was expected; the session has failed exactly if the process did unexpectedly |
| SessionLaws.StopsDo | daemon/internal/agent/session.go:804-810 | a process closed on purpose is heard out, its turn recorded as interrupted, and the session has not failed |
| SessionLaws.RestartsDo | daemon/internal/agent/session.go:689-698 | a restart adds what its stop does and, if the new process starts, a notice |
| SessionLaws.RewindsDo | daemon/internal/agent/session.go:704-767 | which rewinds go through; those leave no process and are recorded last, and no other adds a rewind |
| SessionLaws.StartsGo | daemon/internal/agent/session.go:444-508 | what a start adds and the status it leaves, in each of its outcomes |
| SessionLaws.ProcessesAreClosed | daemon/internal/agent/session.go:224-229 | a process is closed exactly by an idle timer with nothing running or waiting, a stop it does not take, or a push that finds it idle and out of date |
| SessionLaws.TakesTheOldest | daemon/internal/agent/session.go:1516-1524 | which streamed block a complete one takes: the first of its kind in its message; the others stay, in order |
| SessionLaws.BlocksStart | daemon/internal/agent/session.go:1150-1175 | a streamed block goes by its API message and its index in it; other stream events but text leave the live text |
| SessionLaws.DeltasDo | daemon/internal/agent/session.go:1150-1184 | streamed text is added at the end of the blocks of its API message and index, and nowhere else |
| SessionRetries.RetriesAreBounded | daemon/internal/agent/session.go:1286-1440 | in every run in which the count is not reset early, at most three retries in a row are made (a timer fired and began a turn), since a turn completed or a prompt of the user's was taken, whatever other turns begin and end between |
| SessionRetries.WhenMoreCanFollow | daemon/internal/agent/session.go:1190-1440 | from any state a session can be in, more than three retries in a row can follow with no early reset any more exactly when the retries made and those the count still allows are more than three |
| SessionRetries.EarlyResetsLetMoreFollow | daemon/internal/agent/session.go:290-376 | only an early reset leads there: a prompt that is not taken (empty, its files not there, no process starts) or a completed result between turns, while retries were made or one is armed; and each such prompt or message does |
| SessionRetries.AnyNumberOfRetries | daemon/internal/agent/session.go:290-348 | for any number, a run from a new session in which its only prompt is retried that often in a row, an empty prompt resetting the count each time |
| SessionRetries.SignInErrorsAreNoted | daemon/internal/agent/session.go:1190-1251 | which agent messages count as a lost sign-in race (with less than three retries so far), which as a refused sign-in, and that nothing else of the sign-in changes |
| SessionRetries.RetryIsCounted | daemon/internal/agent/session.go:1286-1423 | what every result does to the sign-in: which ones arm a retry, with which timer, and which reset the count |
| SessionRetries.RetriesAreCounted | daemon/internal/agent/session.go:1391-1422 | a retried result counts one more, and the count, which sets the wait, passes three exactly when no turn runs and it was three already |
| SessionRetries.OthersAreNotRetried | daemon/internal/agent/session.go:1286-1334 | any other result leaves the armed retry as it was |
| SessionRetries.TheCountIsBounded | daemon/internal/agent/session.go:1391-1422 | in every run whose retried results each end a turn the count, and so the wait, stops at three |
| SessionRetries.AnyCount | daemon/internal/agent/session.go:1391-1422 | for any number, a run that counts as many retries and makes none |
| Fidelity.MessageFollows | daemon/internal/agent/session.go:1127-1251 | each message the stream protocol allows moves the live text to the stream's open block |
| Fidelity.LiveTextIsTheOpenBlock | daemon/internal/agent/session.go:1127-1188 | in every run the live text is no entry, or the one with the open block's key, kind and text so far |
| Fidelity.CompletingTakesTheLiveText | daemon/internal/agent/session.go:1222-1251 | the completing message is shown with the live entry's key and text, and that entry is dropped |
| Fidelity.SessionShowsTheConnection | daemon/internal/harness/conn.go:412-513 | any run of a connection beside any run of a session: the live text is the block left open by what was read, and the connection's own buffer once all was |
| Conservation.ShownIsComplete | daemon/internal/agent/session.go:1190-1251 | in every run, what was logged as said of a kind since the process began is the text of the blocks it completed, and no other handler logs any |
| Conservation.EverythingSaidIsShown | daemon/internal/harness/conn.go:412-513 | any run of a connection beside any run of a session: what was logged of a kind since the process began, then the live text, are exactly the chunks read, and once all was read every chunk the agent sent outside a reload |
| Glob.GlobRegexp | daemon/internal/code/code.go:382-419 | the text written for a glob is that of its parts, in order |
| Regexp.StarOfOne | daemon/internal/code/code.go:397-402 | a star of one character class matches exactly the stretches without the excluded character |
| GlobProof.LexText | daemon/internal/code/code.go:386-418 | the text written is read back as the parts it was written for |
| GlobProof.CompilesWhenClosed | daemon/internal/code/code.go:405-418 | it is a valid expression exactly when every brace is closed |
| GlobProof.ClosedIsARow | daemon/internal/code/code.go:405-412 | a glob of closed braces is a row of parts and choices |
| GlobProof.GlobMeans | daemon/internal/code/code.go:379-419 | a glob of closed braces, its dot slash or missing slash seen to, matches a path exactly when some choice of alternatives, read part by part, does |
| GlobProof.NamesMatchAnywhere | daemon/internal/code/code.go:380-386 | a glob of no slash and no double star matches exactly by the path's last name |
| GlobLaws.SlashedGlobsAreAnchored | daemon/internal/code/code.go:382-419 | a glob with a slash matches a path exactly when some choice of its own parts does from the path's start to its end |
| GlobLaws.NamesAreAnywhere | daemon/internal/code/code.go:382-386 | one without a slash matches exactly what a double star and a slash before it does |
| GlobLaws.DotSlashIsDropped | daemon/internal/code/code.go:383 | a leading dot and slash changes no match |
| GlobLaws.OneDotSlashIsDropped | daemon/internal/code/code.go:383 | a second one is a directory of that name |
| GlobLaws.PartsAreTheReading | daemon/internal/code/code.go:386-418 | a glob's parts spell it, each as long as it can be, and no other parts do |
| Pump.NoLostWakeup | daemon/internal/claude/claude.go:531-565 | a pump blocked without a token has nothing to do, or a producer has yet to signal |
| Pump.ExactlyOnceInOrder | daemon/internal/claude/claude.go:531-565 | what is handed over is a prefix of what was enqueued, and all of it when the channel closes, after the exit |
| Pump.ThePumpFinishes | daemon/internal/claude/claude.go:143-153 | once the process is gone the pump always has a step, and each brings the close nearer |
| EventQueue.EveryRunIsSafe | daemon/internal/browser/tab.go:111-144 | events are popped once and in order; a consumer that waits while there is one has a token or a producer about to leave it; until its context is over it does not leave |
| EventQueue.ConsumersLeaveWhenDone | daemon/internal/browser/tab.go:126-144 | a consumer that waits when its context is over can leave, and then takes nothing more |
| Calls.SendsNeverBlock | daemon/internal/harness/acp.go:145-159 | every send on a call's channel finds it there and empty |
| Calls.EveryRunIsSafe | daemon/internal/harness/acp.go:84-210 | each call is owed exactly one message until it leaves, in every interleaving |
| Calls.CallsGetTheirOwnReply | daemon/internal/harness/acp.go:145-210 | a call's reply is the one that came with its id |
| Calls.ReturnsOnce | daemon/internal/browser/cdp.go:117-157 | what a call returned never changes |
| Calls.NobodyWaitsAfterAFailure | daemon/internal/browser/cdp.go:97-157 | after a failure new calls are refused and each waiting one has, or is about to get, its message |
| Calls.TheTableIsOfOpenCalls | daemon/internal/harness/acp.go:84-210 | in every run the table only holds calls that have not returned and have no message; a request that could not be written has failed the connection (cdp.go:133-138) |
| Calls.AtMostOneMessageEach | daemon/internal/harness/acp.go:97-159 | a channel sees at most one message |
| Framing.Frames | apps/worker/src/assistant.ts:165-178 | frames join to the rows in order, each within the limit or a single entry, and no other cut within those limits has fewer |
| Framing.GreedyStaysAhead | apps/worker/src/assistant.ts:165-178 | full frames of a suffix are no more than any fitting frames of the whole |
| AssistantObject.Assistant.Fetch | apps/worker/src/assistant.ts:60-68 | a joining tab is told who runs, what is live and what was cleared; like every handler it keeps what is safe |
| AssistantObject.Assistant.Attach | apps/worker/src/assistant.ts:153-179 | the entries selected, in the fewest fitting frames |
| AssistantObject.Assistant.Append | apps/worker/src/assistant.ts:181-199 | entries before the first bad one are stored; only a whole append is confirmed and broadcast, with its numbers |
| AssistantObject.Assistant.Clear | apps/worker/src/assistant.ts:207-214 | refused exactly while someone runs; otherwise the log is emptied and confirmed |
| AssistantObject.Assistant.Claim | apps/worker/src/assistant.ts:89-94 | granted exactly when nobody else with an open socket runs |
| AssistantObject.Assistant.Release | apps/worker/src/assistant.ts:95-97 | only the runner's own release or close ends its claim |
| AssistantObject.Assistant.PutLive | apps/worker/src/assistant.ts:98-102 | only the runner reports |
| AssistantRuns.EveryRunIsSafe | apps/worker/src/assistant.ts:181-247 | in every run numbers strictly increase and are never reused, what is stored is above what is cleared, and both marks only go up; a stored report has a recorded runner, and no other tab still there made it |
| AssistantRuns.ReplicasCatchUp | apps/worker/src/assistant.ts:153-214 | whatever came between in a run, a tab that held the log, drops what was cleared and adds what it gets on attaching has the log |
| AssistantRuns.FreshTabsMissNothing | apps/worker/src/assistant.ts:156-164 | a fresh tab gets the newest compaction first and besides it exactly what it does not cover; without one, the newest 400, and everything if there are no more |
| AssistantRuns.SentInOrder | apps/worker/src/assistant.ts:153-165 | what is sent comes by ascending number, each entry once, after a compaction if there is one; a tab that names its last number gets exactly what came after |
| AssistantRuns.AClearIsForGood | apps/worker/src/assistant.ts:207-214 | in every run, a clear with nobody running empties log and live report, moves the mark to the last entry, and none of the entries is stored or sent to any tab ever again |
| AssistantRuns.AppendsStore | apps/worker/src/assistant.ts:181-199 | of one to fifty entries those before the first malformed or too long are stored as they are, with the next numbers; any other append stores nothing |
| AssistantRuns.ClaimsAreGranted | apps/worker/src/assistant.ts:89-94 | a connected tab runs turns once it claims them with nobody else running; otherwise nothing changes |
| AssistantRuns.LeavingEndsTheClaim | apps/worker/src/assistant.ts:95-124 | a runner's release, or its handled close, leaves no runner and nothing live; anyone else's changes nothing |
| AssistantRuns.ReportsAreShown | apps/worker/src/assistant.ts:98-102 | the runner's report is what a joining tab is shown; anyone else's changes nothing |
| AssistantRuns.OnlyTheRunnerLeaves | apps/worker/src/assistant.ts:89-124 | no one else's move changes who runs or what is live, and a clear then does nothing |
| AssistantRuns.ClaimsEndByLeaving | apps/worker/src/assistant.ts:89-124 | in every run, between a tab running turns and not, it released, was handled as gone or its socket shut, while it ran |
| AssistantRuns.ARunnerKeepsItsLog | apps/worker/src/assistant.ts:207-214 | in every run, while one tab runs turns nothing is cleared and the log only gets entries at its end |
| AssistantRuns.ShownIsTheRunnersOwn | apps/worker/src/assistant.ts:89-247 | in every run, what is shown is the runner's own report at every moment exactly when every takeover finds nothing stored as live |
| AssistantRuns.SeenLeavingIsEnough | apps/worker/src/assistant.ts:89-247 | every takeover does, if no runner's socket shuts with its report stored before its leaving is handled |
| AssistantRuns.StaleLive | apps/worker/src/assistant.ts:227-247 | a run in which a gone tab's report is shown as the next runner's |
| Resampler.PcmProcessor.constructor | apps/web/public/pcm-worklet.js:9-16 | a new processor has heard and said nothing |
| Resampler.PcmProcessor.Put | apps/web/public/pcm-worklet.js:27-33 | a sample joins the chunk; a full one is posted |
| Resampler.PcmProcessor.Process | apps/web/public/pcm-worklet.js:18-39 | after any blocks, what was posted and the chunk being filled are all of the input heard, resampled; chunks are whole and samples fit 16 bits |
| Resampler.PcmProcessor.SaysTheLine | apps/web/public/pcm-worklet.js:18-39 | sample k is the input's straight line at k steps (from silence before the first sample), cut to [-1, 1], as 16 bits: 32767 to the positive side and 32768 to the negative, less than one off |
| Resampler.SamplesAreOnTheLine | apps/web/public/pcm-worklet.js:18-39 | the same of any output that resamples an input |
| Resampler.OneResult | apps/web/public/pcm-worklet.js:18-39 | two ways of cutting the same input say the same |
| Resampler.HowMany | apps/web/public/pcm-worklet.js:22-35 | there is one sample for each multiple of the step below the input's length |
| Base32.ShiftIn | apps/worker/src/totp.ts:12-14 | the 32-bit accumulator keeps the bits that count however often it overflows |
| Base32.Encode | apps/worker/src/totp.ts:7-21 | the letters are the bytes' number with zero bits after it, in ceil(8n/5) letters |
| Base32.Decode | apps/worker/src/totp.ts:23-37 | the bytes are the letters' number, floor(5m/8) of them |
| Base32.RoundTrip | apps/worker/src/totp.ts:7-37 | decoding what was encoded gives the bytes back |
| Base32.OnlyLettersMatter | apps/worker/src/totp.ts:24 | texts with the same letters decode to the same |
| Base32.CleanIgnores | apps/worker/src/totp.ts:24 | case, and separators anywhere, leave the letters as they are |
| Base32.LettersInOrder | apps/worker/src/totp.ts:3 | each letter stands for its place in the alphabet, which is A to Z and then 2 to 7 |
| Logs.IndexOf | daemon/internal/logring/logring.go:29-32 | the first newline, or that there is none |
| Logs.LinesSpell | daemon/internal/logring/logring.go:24-38 | reading output by lines takes nothing away: lines, their newlines and the unfinished rest spell it, and no line holds a newline |
| Logs.Ring.Add | daemon/internal/logring/logring.go:40-47 | the newest line is added; the oldest goes when the ring is full |
| Logs.Ring.Write | daemon/internal/logring/logring.go:24-38 | however output is split, the ring holds the last complete lines of all of it, oldest first, and the unfinished rest |
| Logs.Ring.Tail | daemon/internal/logring/logring.go:50-58 | the newest n lines kept, oldest first; all of them if n is not positive |
| Logs.TailIsTheNewest | daemon/internal/logring/logring.go:49-58 | the newest n kept are the newest min(n, max) ever completed |
| Logs.TailBuffer.Write | daemon/internal/code/code.go:107-114 | the last max bytes are kept, and what was cut plus what is kept is all |
| Logs.TailBuffer.String | daemon/internal/code/code.go:116-125 | only the rest of a character whose start was cut off is left out: of well-formed text, whole characters are left, and at most three bytes are dropped |
| Logs.WholeFrom | daemon/internal/code/code.go:116-125 | text of whole characters, cut where one begins, is of whole characters |
| Tab.InputLoop | daemon/internal/browser/tab.go:387-421 | whatever the arrival schedule, the handled inputs are the queued ones less exactly the moves whose next input is a move that had arrived |
| Tab.NothingElseIsLost | daemon/internal/browser/tab.go:387-425 | so all other inputs are handled in order, and the last input always is |
| Tab.OnlyTheLastMoveIsHandled | daemon/internal/browser/tab.go:401-416 | when every input arrives in time, no two moves are handled in a row |
| Tab.Screen.Flush | daemon/internal/browser/tab.go:855-875 | every JPEG viewer that lacks the newest frame and has room gets it, nobody else gets anything, and each viewer's frames stay strictly increasing |
| Tab.Screen.NewFrame | daemon/internal/browser/tab.go:835-843 | a new frame reaches every JPEG viewer with room |
| Tab.Screen.DropVideo | daemon/internal/browser/tab.go:719-739 | video viewers start over with JPEG frames; no frame was sent to them before, so none comes twice |
| Tab.Screen.GiveUpOn | daemon/internal/browser/tab.go:877-903 | giving up on slow viewers changes only that frames do not wait for them |
| Images.BoxesAreInside | daemon/internal/desktop/agent.go:365-368 | whatever the sizes, no box is empty and none reaches outside |
| Images.EveryPixelHasOneBox | daemon/internal/desktop/agent.go:362-378 | shrinking, every source pixel goes into exactly one output pixel's box |
| Images.BoxesAreApartWhenShrinking | daemon/internal/desktop/agent.go:365-368 | the boxes share no pixel exactly when there are no more of them than pixels |
| Images.BoxesAreEven | daemon/internal/desktop/agent.go:365-368 | shrinking, each box has the rounded-down share of a side or one more |
| Images.ChannelsInOrder | daemon/internal/desktop/agent.go:371-375 | which byte of the picture is a pixel's red, green, blue or alpha |
| Images.SumsAreOfPixels | daemon/internal/desktop/agent.go:369-376 | a box's sum is that of its parts however it is cut, down to the single pixel's channel |
| Images.AveragesAreMeans | daemon/internal/desktop/agent.go:377-378 | an average times its pixels is their sum, less than one short for each |
| Images.AveragesStayBetween | daemon/internal/desktop/agent.go:369-378 | an output channel is between the least and greatest of its box |
| Images.AverageBox | daemon/internal/desktop/agent.go:369-378 | the loops compute the three averages |
| Images.Shrink | daemon/internal/desktop/agent.go:359-382 | every new pixel is its box's average, opaque; a picture that is not smaller is left alone |
| Images.FitsKeepsTheShape | daemon/internal/desktop/agent.go:198-206 | sides from 1 to the limit, none longer than before; only a picture too big changes: its longer side becomes the limit, the other the exact quotient to the nearest whole number, or 1 if that is none |

## Left out

- GlobProof.CompilesWhenClosed: Go also refuses expressions nested over 1000 deep or too large once expanded; that limit is not modelled.
- Glob.GlobRegexp: characters are one byte; bytes of 0x80 and above, which line 414 turns into other characters, and Windows separators are out.
- Regexp.Compile: reads only the syntax globs need; everything else is refused rather than modelled.
- Resampler.PcmProcessor.Process: over real numbers, not floating point; an empty block, which the audio engine does not send, would make the next sample undefined.
- Images.FitsKeepsTheShape: sizes are rounded from exact quotients, not floating point.
- Base32.Decode: upper-casing is ASCII's; the few other characters that upper-case to ASCII letters are out.
- ConnRuns.TheAnswerArrives: an agent that offers no option for an answer leaves it empty, which it is then told is a cancellation.
- Logs.Ring.Write: max is at least 1, as the daemon's is.
- Agent.Session.SendPrompt: the text is already trimmed, and an attachment is only counted: whether it resolves and can be read are parameters.
- Agent.Session.StartProc: the notice logged when a start creates a worktree (session.go:608) is left out.
- Agent.Session.Handle: a user message answers one tool here; the source takes any number in one, one after the other.
- Agent.Session.PushState: what is broadcast and the summary published of it are left out; the status they carry is modelled.
- Agent.Session.Answer: leaving plan mode after an approval is left out, as are the answer's contents.
- Agent.Session.Finished: a store write that fails when marking at once is left out.
- Agent.Session.RollBack: finding the prompt and its fork point, restoring files and saving each work or fail as a whole; the range of the log that is deleted is left out.
- Agent.Session.HandleRequest: a request that changes a setting may fail; that is left out, and no turn depends on it.
- Base32.CleanIgnores: letters and separators are ASCII's, as in Base32.Decode.
- Tab.Screen.GiveUpOn: how long it waits, and its deadline, are left out.
- Agent.Session.StreamEvent: the context meter a message start may update is left out.
- Conn: freshness of random ids is assumed, as is that stream ids hold no colon; JSON, tool names and shapes, configuration options and the waiting of the request goroutine for its channel are left out.
- Session: the store always saves; titles, usage, limits, modes, workspaces, notifications, attachments' contents and the session's own shutdown are left out. Timers and the process's starts, sends and exits are steps that may happen or fail at any time.
- Claude Code's own control calls (claude.go, control) keep their table entry after a reply; their correlation is not modelled.
- Calls: an ACP failure tells all waiting calls in one critical section; the model lets other steps come between, which only adds runs.
- The assistant's steering, voice and key messages, and the rejection of malformed JSON, relay or refuse without changing the log or the runner.
- Tab: what handling an input does to the page, video capture and negotiation, and how long frames wait are left out.
- Session: the class keeps the fields that change together in four records (turn, sign-in, requests, live text) where the source has them one by one.
- The paging of file reads, file listing and searching in code.go, and the six digits of a one-time code, are left out: they would only add easy members.
- Cryptography, processes, sockets, files, git, the browser's page scripts, the desktop's windows, installers and the command line are not part of this model.
