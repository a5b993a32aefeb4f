# A verified model of the Damaian worker and its neighbours

Damaian's desktop shell runs each worker in a process of its own. This project
models the parts of the repository where state, concurrency, arithmetic or text
rewriting is subtle, and proves what those parts are for.

- **The worker turn protocol.** `TurnHost` gives each lock-held section of
  `WorkerHost` as a function on values; `WorkerHosts` is the class with the
  source's fields, every method proved against those functions;
  `DecisionStore` is what survives the process. `TurnProtocol` puts the control
  thread, the turn thread, the main thread, the lifeline and the engine
  together as a transition system with crashes and restarts at any step, and
  proves its invariant. `TurnTheorems` and `TurnDurability` state what holds in
  every run, `TurnOutcomes` what a finished or held turn leaves for the user,
  and `TurnExamples` gives the concrete runs the findings rest on.
- **Stopping a worker.** `StopEscalation` is `begin_stop` and `finish_stop`
  against a worker that may answer anything and a clock of any pace;
  `WorkerStop` composes it with the protocol.
- **The control socket.** `ControlWire` reads a request, `ControlRoute` writes
  one from a form and proves the round trip, `ControlServer` serves a
  connection, `ControlSession` composes them with the host.
- **Supervision.** `Supervision` is the map of live workers and the socket
  names, `SupervisionRuns` what holds over whole runs.
- **SHA-256.** `Words`, `HexText`, `Sha256`, `Sha256Imperative`,
  `Sha256Theorems`: FIPS 180-4 as functions, the source's loops proved to
  compute them, and the algebra underneath. `WordBits`, `Sha256Standard` and
  `Sha256Constants` say what those functions and constants are without naming
  their bodies: bit by bit, byte by byte, and by the roots of primes.
- **Crash recovery.** `SessionLog` is the replay of a session log and
  `SessionTheorems` what it reads, in terms of the events; `Recovery` and `RecoveryDesks` the launch sweep and the decision endpoint as
  functions and as the object that writes, `LaunchTheorems` what a launch
  appends and shows, `RecoveryTheorems` what holds over runs of sweeps,
  decisions, crashes and restarts.
- **Text and reports.** `JsonText`, `MarkdownPaths`, `ResponsePaths`, `Tally`,
  `Metrics`, `MetricsTheorems`.

`Common`, `Characters`, `Runs` and `Folds` hold what several modules share.

## Assumptions

- The engine behind a turn takes the steps of asking and answering in the
  source's order. Its other writes to the store are free within `EngineMay`:
  task and decision ids stay unique; no question is recorded, and no task is
  made to wait on one, outside the asking steps; an answered question stays
  answered; a new paused turn has a new id and is no question's; and the paused
  turn of a question or a plan review leaves the disk only when its own card is
  answered. A turn that reports a plan review or a question has left it open on
  disk (`Honest`).
- A new process may find questions whose paused turn an earlier process lost;
  the theorems name them (`lost`).
- Taking a pause may fail to remove its file, and the put-back may fail; the
  worker's own reads of the store, at a restart and after a refused answer, do
  not fail.
- An action marker belongs to one task (`OneTaskPerMarker`, for
  `CardOffersWhatIsAccepted` only).
- A JSON object is written on one line and read back as it was, and a text
  value takes at least its own bytes and two quotes (`Sound`).
- One process writes a session's log at a time, and one recovery request is
  served at a time.
- Other writers of a session log reopen no settled task (`Allowed`).
  `ReopensIff` says exactly which single event would.
- Texts are compared by their characters; the length of a text is its length in
  UTF-8 where the source counts bytes.

## Findings

- `worker_socket_path` and `repository_id_for_root` cut sixteen characters off
  a digest text that starts with `sha256:`, so nine hex digits tell names
  apart, not the sixteen that the comment at worker.rs:256 promises
  (`SixteenCharactersHoldNineDigits`, `SocketsCollideIff`).
- A question can end up as a card that nothing can answer: the answer removes
  the paused turn from disk before it records itself, and both a restart and a
  failed turn restore the card without looking for the paused turn. It happens
  exactly when a turn leaves that window with neither done
  (`CardIsDeadIffPauseLost`): by a crash (`CrashCanLoseTheTurnBehindACard`), or
  by an error whose put-back fails or never comes, with no crash at all
  (`FailedPutBackCanLoseTheTurnBehindACard`). Such a card is answered on no path
  from there (`AnswerableIffHeld`). That no question opens without its paused
  turn is proved of the asking order (`LinkKeepsDurable`); it rests on the
  assumptions on `EngineMay` above.
- A plan review taken off disk before a crash leaves its task waiting, and every
  later worker process offers nothing while that task stays the newest waiting
  one (`WaitingPlanIsDroppedIffTaken`, `TakenReviewLeavesItsTaskWaiting`,
  `TakenReviewIsNeverOfferedAgain`); it ends when a launch sweep of the shell,
  run while no worker of the session is live, cannot produce the review and
  fails the task (`Recovery.FailWrites`). When the file could not be removed,
  which the code ignores, the same crash offers the review again; a run into
  each is `CrashAfterAReviewIsTaken`.
- A message text of 262144 bytes passes the argument check and never fits the
  line, so the worker closes the connection without an answer
  (`LongestMessageGoesUnanswered`).
- `path:line` is peeled to the path only when the path does not itself end in
  `:digits` (`LineIsPeeledIff`); `a:1:2` becomes `a` (`LineOfANumberedPath`).
- The recovery endpoint accepts a resume of a task with no recorded prompt,
  which its card never offers (`CardOffersWhatIsAccepted` gives the exact
  relation, `EndpointResumesWithoutAPrompt` the task).

## Model

| member | source | states |
|---|---|---|
| WorkerHosts.TurnSteering.DrainNotes | crates/workspace-engine/src/steering.rs:57-59 | Draining returns every queued note in order and leaves none |
| WorkerHosts.WorkerHost.HandOver | crates/desktop-shell/src/worker.rs:925-954 | A handed-over job gets a fresh token and fresh steering, keeps the notes only when it resumes a turn, and a dead turn thread leaves the state as it was |
| WorkerHosts.WorkerHost.Start | crates/desktop-shell/src/worker.rs:814-827 | A turn of its own starts from idle only; every other state has its own refusal |
| WorkerHosts.WorkerHost.Decide | crates/desktop-shell/src/worker.rs:829-863 | The host after approve or reject, with the pending decision cleared only when the job was taken |
| WorkerHosts.WorkerHost.AnswerQuestion | crates/desktop-shell/src/worker.rs:865-895 | The host after an answer to a question |
| WorkerHosts.WorkerHost.DecideChecks | crates/desktop-shell/src/worker.rs:898-919 | The host after an answer to a check card |
| WorkerHosts.WorkerHost.SetPaused | crates/desktop-shell/src/worker.rs:711-719 | Only a running or paused worker changes between the two |
| WorkerHosts.WorkerHost.Settle | crates/desktop-shell/src/worker.rs:723-734 | A finished turn leaves the worker idle or waiting, unless it is shutting down |
| WorkerHosts.WorkerHost.TakeSnapshot | crates/desktop-shell/src/worker.rs:956-975 | The status answer names the question or the proposal that waits, never both |
| WorkerHosts.WorkerHost.Dispatch | crates/desktop-shell/src/worker.rs:737-793 | Each command's whole effect on state, handles, pending decision and channel |
| DecisionStore.RefusedPlanRestoresIffOpen | crates/desktop-shell/src/worker.rs:1169-1229 | The scan that follows a refused plan decision finds the review exactly when it is still open on disk |
| DecisionStore.RefusedQuestionRestoresIffOpen | crates/desktop-shell/src/worker.rs:1108-1158 | The same for a question |
| DecisionStore.RestartOffersTheNewestOpenDecision | crates/desktop-shell/src/worker.rs:1033-1102 | A restart offers a decision exactly when it is open and its task is the newest waiting one |
| TurnProtocol.CommandEffect | crates/desktop-shell/src/worker.rs:737-954 | A command either hands over one job that fits, from a worker with no turn in flight, or touches the current handles and nothing else |
| TurnProtocol.StepKeepsInv | crates/desktop-shell/src/worker.rs:687-734 | Every step of every thread, of the engine, and a restart keep the invariant on channel, state, durable decisions and notes |
| TurnTheorems.OneJobOnItsOwnHandles | crates/desktop-shell/src/worker.rs:1251-1272 | At most one job is queued or running; the state says whether one is; a decision is held exactly while waiting; a turn reads the handles made for its own job |
| TurnTheorems.TurnArmsAreReal | crates/desktop-shell/src/worker.rs:1519-1531 | The arms of `take_turn` kept only for totality are reached in no run |
| TurnTheorems.CancelIsolation | crates/desktop-shell/src/worker.rs:619-627 | The step that set a turn's token is a stop accepted while that very job was outstanding, or one of the shutdown sections |
| TurnTheorems.PauseIsolation | crates/desktop-shell/src/worker.rs:921-953 | The step that set a turn's pause flag is a pause accepted while that very job was outstanding |
| TurnTheorems.CancelSticks | crates/workspace-engine/src/cancel.rs:14-28 | A turn that was told to stop stays told |
| TurnTheorems.AcceptedStopReachesTheJob | crates/desktop-shell/src/worker.rs:785-791 | An accepted stop found a job, whose token is set from then on |
| TurnTheorems.ShutdownIsFinal | crates/desktop-shell/src/worker.rs:723-744 | No step of a process leaves shutting-down, and no job is handed over after it |
| TurnTheorems.ShutdownCancelsTheJob | crates/desktop-shell/src/worker.rs:740-744 | Although shutdown is several lock sections, after a cancel section every outstanding job's token is set |
| TurnTheorems.NotesAreConserved | crates/desktop-shell/src/worker.rs:773-784 | The accepted notes are the ones that left the queue followed by the ones queued, in order |
| TurnTheorems.ChainDeliversEveryNote | crates/desktop-shell/src/worker.rs:921-953 | Along turn, approval, decision, turn no note is lost, repeated or reordered, even when a hand-over fails |
| TurnTheorems.AnswerIsAcceptedIffItFits | crates/desktop-shell/src/worker.rs:829-919 | A question is answered only by `answer_question`, a check card only by `checks`, anything else only by `approve` and `reject`; the queued job carries exactly that answer |
| TurnTheorems.StartIsAcceptedIffIdle | crates/desktop-shell/src/worker.rs:746-827 | A start command is accepted exactly from idle with a live turn thread, and queues the job asked for |
| TurnTheorems.SteeringIsAcceptedIffInFlight | crates/desktop-shell/src/worker.rs:772-811 | Pause, resume, note and stop are accepted exactly while a turn is in flight, each with its own effect on that turn's handles |
| TurnTheorems.OneAnswerPerOffer | crates/desktop-shell/src/worker.rs:829-919 | Between two accepted answers to one id a turn or a restart has offered it again |
| TurnOutcomes.TurnIsAnsweredAsReported | crates/desktop-shell/src/worker.rs:1740-1760 | After a turn, an answering command is accepted, and becomes this very job, exactly when it answers what the turn reported first in the order question, checks, plan, round budget, command |
| TurnOutcomes.NextTurnMayStartIff | crates/desktop-shell/src/worker.rs:723-734 | A new turn may start exactly when the last one left nothing to answer on the socket; a patch or a fallback leaves nothing |
| TurnOutcomes.StatusShowsWhatWaits | crates/desktop-shell/src/worker.rs:956-975 | The status answer shows a waiting question, or any other waiting decision as a proposal, or neither |
| TurnOutcomes.RefusedStartTellsWhy | crates/desktop-shell/src/worker.rs:814-827 | Two refused starts are told the same exactly when the workers are busy for the same reason |
| TurnOutcomes.PausedIsWhatIsHeld | crates/desktop-shell/src/worker.rs:711-719 | In every run a held turn shows as paused, and nothing else does but a turn told to stop while held |
| TurnDurability.RestartOffersExactly | crates/desktop-shell/src/worker.rs:1033-1102 | After a crash anywhere in a run, what the restarted host offers, in both directions |
| TurnDurability.FailedTurnSettlesIffOpen | crates/desktop-shell/src/worker.rs:1328-1363 | A failed answer settles on its decision exactly when the store still holds it open |
| TurnDurability.RefusedDecisionIsOfferedAgain | crates/desktop-shell/src/worker.rs:1108-1229 | A decision the engine refused is offered again |
| TurnDurability.AnsweredQuestionIsNeverOfferedAgain | crates/workspace-engine/src/chat.rs:5869-5930 | A question with a recorded answer is never offered or answered again, in this process or a later one |
| TurnDurability.TakenReviewIsNeverOfferedAgain | crates/desktop-shell/src/worker.rs:1189-1229 | A plan review the engine took off disk is never offered or taken again |
| TurnDurability.CardIsDeadIffPauseLost | crates/workspace-engine/src/chat.rs:5861-5930 | Over every run, an offered question has no paused turn exactly when a turn once took it off disk and neither recorded the answer nor put the pause back, whether by a crash or by an error |
| TurnDurability.LostInTheWindow | crates/workspace-engine/src/chat.rs:5869-5930 | Every lost pause goes back to such an exit from the window, and stays off disk from then on |
| TurnDurability.AnswerableIffHeld | crates/workspace-engine/src/chat.rs:5861-5930 | An offered question can still be answered, on some path from here, exactly when its paused turn is on disk |
| TurnProtocol.LinkKeepsDurable | crates/workspace-engine/src/chat.rs:3773-3811 | In the asking order the question opens only once its turn is on disk |
| TurnExamples.CrashCanLoseTheTurnBehindACard | crates/desktop-shell/src/worker.rs:1071-1102 | A run whose restarted worker offers a question that nothing can resume |
| TurnExamples.FailedPutBackCanLoseTheTurnBehindACard | crates/workspace-engine/src/chat.rs:5912-5928 | The same card without any crash, after an answer that was not recorded and a pause that was not put back |
| TurnExamples.CrashAfterAReviewIsTaken | crates/workspace-engine/src/chat.rs:15120-15130 | A crash straight after a review was taken leaves a waiting task with nothing on offer; if the file stayed on disk, the review is offered again |
| TurnDurability.WaitingPlanIsDroppedIffTaken | crates/workspace-engine/src/chat.rs:5666-5697 | A restart offers a parked plan review to the task that waits for it exactly when its pause was never taken off disk |
| TurnDurability.TakenReviewLeavesItsTaskWaiting | crates/desktop-shell/src/worker.rs:1189-1229 | A crash right after a review was taken off disk leaves its task waiting with nothing offered |
| TurnOutcomes.ResumeInSections | crates/desktop-shell/src/worker.rs:776-784 | The two lock sections of an accepted resume add up to the command; a refused one stops after the first |
| TurnOutcomes.ShutdownInSections | crates/desktop-shell/src/worker.rs:740-744 | The sections of shutdown add up to the command |
| TurnOutcomes.MainShutsDownIffTriggered | crates/desktop-shell/src/worker.rs:568-600 | The main thread may shut down exactly once the lifeline ended or a shutdown ran through in this very process |
| StopEscalation.BeginStop | crates/desktop-shell/src/workers.rs:1354-1390 | What is sent, what is answered and what follows, for every reply |
| StopEscalation.FinishStop | crates/desktop-shell/src/workers.rs:1395-1435 | It ends for every worker and clock, and its events are a path of the escalation's automaton |
| StopEscalation.ShutdownOnce | crates/desktop-shell/src/workers.rs:1422-1423 | `shutdown` is sent at most once |
| StopEscalation.NoShutdownAfterTheTurnEnded | crates/desktop-shell/src/workers.rs:1403-1421 | No `shutdown` follows a poll that saw idle or shutting down, or an exit |
| StopEscalation.ShutdownWaitsForTheTurn | crates/desktop-shell/src/workers.rs:1403-1421 | While a turn is awaited, `shutdown` comes only after the whole wait |
| StopEscalation.SigtermOnlyAfterTheGracePeriod | crates/desktop-shell/src/workers.rs:1422-1434 | SIGTERM comes only after `shutdown` was sent and the process outlived the grace period |
| StopEscalation.SignalledIsLast | crates/desktop-shell/src/workers.rs:1422-1435 | Nothing follows the signal |
| StopEscalation.Stop | crates/desktop-shell/src/workers.rs:357-379 | How a whole stop ends and what it sends, from what the worker answers: a silent worker is shut down, a worker that never exits is signalled, one without a turn is left alone |
| WorkerStop.AwaitingMeansTheTokenIsSet | crates/desktop-shell/src/workers.rs:1354-1390 | Waiting for the turn's end means the running job's token is set |
| WorkerStop.FirstReplyDecides | crates/desktop-shell/src/workers.rs:1354-1390 | A waiting decision goes straight to shutdown; no turn means nothing follows |
| WorkerStop.EndedPollIsRight | crates/desktop-shell/src/workers.rs:1403-1415 | A poll that ends the wait is right: no job is outstanding, or none is taken any more |
| WorkerStop.PollEndsIff | crates/desktop-shell/src/workers.rs:1403-1415 | A poll ends the wait exactly when the worker is idle or shutting down |
| ControlWire.ParseFields | crates/desktop-shell/src/worker.rs:447-532 | Taking fields off a mutable map computes the command table's reading, errors in order, unexpected fields last |
| ControlWire.DecimalReadsBack | crates/desktop-shell/src/worker.rs:455-467 | The decimal text of a number is read as the number, with or without a plus, exactly when it fits |
| ControlWire.NoOptionIsNone | crates/desktop-shell/src/worker.rs:455-467 | No option, a null one and a blank one are all none |
| ControlWire.NumberReadsAsItsText | crates/desktop-shell/src/worker.rs:455-467 | An option given as a JSON number is read like its decimal text |
| ControlRoute.RouteForm | crates/desktop-shell/src/workers.rs:939-1013 | Exactly which forms are forwarded, stopped or shut down, and the first fault a refused form is told |
| ControlRoute.SessionIdIsAFileName | crates/desktop-shell/src/worker.rs:180-193 | A valid session id holds no separator and no dot, and a byte a character |
| ControlRoute.MissingFieldWouldBeRefused | crates/desktop-shell/src/workers.rs:939-1013 | A form the route refuses for a missing field the worker would have refused as well |
| ControlRoute.ForwardedFormIsReadAsMeant | crates/desktop-shell/src/worker.rs:429-532 | A forwarded form, encoded and parsed back, is the command meant, or is refused for length, budget or option; never as unknown, missing or unexpected |
| ControlSession.ExchangeForm | crates/desktop-shell/src/workers.rs:656-680 | From the posted form over the bytes on the socket to the host: the command meant is dispatched exactly when its line fits and its arguments are acceptable |
| ControlSession.LongestMessageGoesUnanswered | crates/desktop-shell/src/worker.rs:1823-1834 | A text of the full length the argument check allows never fits the line, whatever the writer |
| ControlSession.OnlyTheTokenIsAnswered | crates/desktop-shell/src/worker.rs:1811-1850 | For any bytes, every answered line carries the token, and the line the connection stops at is too long or does not |
| ControlSession.OnlyShutdownCloses | crates/desktop-shell/src/worker.rs:1811-1850 | Only an accepted shutdown ends a connection whose answers get through; a request that is no command changes nothing |
| ControlRoute.AcceptedRequestHasNoOtherField | crates/desktop-shell/src/worker.rs:429-532 | An accepted request has the token, a known command and no field outside its row |
| ControlServer.ReadIsTheFirstLine | crates/desktop-shell/src/worker.rs:1811-1830 | A bounded read is complete exactly when the first line fits, and is then that line |
| ControlServer.ServeConnection | crates/desktop-shell/src/worker.rs:1811-1850 | Exactly a prefix of the stream's lines is dispatched, in order, one answer each, and the connection ends for a stated reason |
| ControlServer.TokensMatch | crates/desktop-shell/src/worker.rs:534-543 | The xor-or fold accepts exactly equal tokens |
| Supervision.OneCheckAnswersForEverySession | crates/desktop-shell/src/workers.rs:191-195 | Whether a socket path's bytes fit depends on the data directory alone |
| Supervision.SocketsCollideIff | crates/desktop-shell/src/worker.rs:262-277 | Two sessions share a socket exactly when 36 digest bits agree |
| Supervision.Supervisor.Start | crates/desktop-shell/src/workers.rs:471-556 | A worker that came up is inserted; a refusal changes nothing |
| Supervision.Supervisor.Spawn | crates/desktop-shell/src/workers.rs:136-305 | Which check refuses, that the socket is refused before the worktree exists and never after, and that a free worktree keeps the workers apart |
| Supervision.RefusingIff | crates/desktop-shell/src/workers.rs:136-193 | A spawn passes its checks exactly when it has a prompt, a fitting parent and task, and a socket path that fits |
| Supervision.Supervisor.WorktreeIsHeld | crates/desktop-shell/src/workers.rs:581-592 | A worktree is held by a live worker here or by something answering on the socket |
| Supervision.Supervisor.Restart | crates/desktop-shell/src/workers.rs:310-333 | No two live entries share a worktree after a restart, whatever worktree the record names |
| Supervision.Supervisor.ShutdownAll | crates/desktop-shell/src/workers.rs:428-468 | It ends with an empty map; each live worker is asked once; SIGTERM goes to exactly those still alive, and not before the grace period |
| SupervisionRuns.NoTwoLiveWorkersShareAWorktree | crates/desktop-shell/src/workers.rs:310-333 | Over every serial run of spawns with fresh paths, restarts, exits and shutdowns, no two live entries of the map share a worktree at any moment |
| SupervisionRuns.ServeAll | crates/desktop-shell/src/workers.rs:136-468 | A run of the supervisor itself is such a run |
| Sha256Imperative.FillSchedule | crates/workspace-engine/src/hash.rs:39-56 | The in-place array is the message schedule |
| Sha256Imperative.RunRounds | crates/workspace-engine/src/hash.rs:58-87 | The 64 loop turns are the 64 rounds |
| Sha256Imperative.PadInput | crates/workspace-engine/src/hash.rs:30-36 | The padding loop ends and gives the padded message |
| Sha256Imperative.Sha256Hex | crates/workspace-engine/src/hash.rs:25-102 | For every message below 2^61 bytes, the hex of the digest of FIPS 180-4 |
| Sha256Imperative.PrefixedSha256 | crates/workspace-engine/src/hash.rs:104-106 | The stored text: `sha256:` and the digest |
| WordBits.WordXorBit | crates/workspace-engine/src/hash.rs:50-51 | Exclusive or, bit by bit |
| WordBits.WordAndBit | crates/workspace-engine/src/hash.rs:69-76 | And, bit by bit |
| WordBits.NotBit | crates/workspace-engine/src/hash.rs:69 | Not, bit by bit |
| WordBits.RotateRightBit | crates/workspace-engine/src/hash.rs:20-23 | Every bit moves down, around the end |
| WordBits.ShiftRightBit | crates/workspace-engine/src/hash.rs:50-51 | Every bit moves down, and zeros come in |
| WordBits.BitsDetermine | crates/workspace-engine/src/hash.rs:20-23 | Words with the same bits are the same, so the bit laws leave nothing open |
| Sha256Standard.ChooseBit | crates/workspace-engine/src/hash.rs:69 | The first word chooses between the other two at every place |
| Sha256Standard.MajorityBit | crates/workspace-engine/src/hash.rs:76 | Every bit is the one at least two of the three have |
| Sha256Standard.BigSigmaBits | crates/workspace-engine/src/hash.rs:68-75 | Every bit is the parity of three rotated ones, at the standard's distances |
| Sha256Standard.SmallSigmaBits | crates/workspace-engine/src/hash.rs:50-51 | The same for the schedule's two functions, one of whose distances is a shift |
| Sha256Standard.RoundSums | crates/workspace-engine/src/hash.rs:70-77 | A round's two temporaries are sums modulo 2^32 |
| Sha256Standard.ScheduleSums | crates/workspace-engine/src/hash.rs:49-56 | So is every later word of the schedule |
| Sha256Standard.CompressionUndone | crates/workspace-engine/src/hash.rs:58-97 | A compressed block can be undone by whoever knows the hash value it started from, feed-forward included |
| Sha256Standard.DigestOfOneBlock | crates/workspace-engine/src/hash.rs:25-97 | A message that fits one block is compressed once, from the starting value |
| Sha256Standard.DigestGoesOn | crates/workspace-engine/src/hash.rs:38-97 | A longer one goes on from where its first blocks left off |
| Sha256Standard.BlockWordReads | crates/workspace-engine/src/hash.rs:40-48 | A word of a block is its four bytes, most significant first |
| Sha256Standard.BlocksAreTheBytes | crates/workspace-engine/src/hash.rs:38 | The blocks are the bytes, sixty-four at a time |
| Sha256Standard.PaddedParts | crates/workspace-engine/src/hash.rs:30-36 | A padded message is the message, the end mark, zeros and its bit length read back |
| Sha256Standard.HexStateReadsBack | crates/workspace-engine/src/hash.rs:99-101 | The text reads back as the eight words, in order |
| Sha256Constants.RoundConstantsAreCubeRoots | crates/workspace-engine/src/hash.rs:7-16 | The round constants are the first 32 bits after the point of the cube roots of the first 64 primes |
| Sha256Constants.InitialHashIsSquareRoots | crates/workspace-engine/src/hash.rs:26-29 | The starting value is that of the square roots of the first eight |
| Sha256.PadLength | crates/workspace-engine/src/hash.rs:30-36 | Padding fills whole blocks |
| Sha256.FewestZeros | crates/workspace-engine/src/hash.rs:31-36 | No shorter run of zeros would do |
| Sha256Theorems.PaddingIsInjective | crates/workspace-engine/src/hash.rs:30-36 | Messages below the limit with equal padded bytes are equal |
| Sha256Theorems.RoundIsABijection | crates/workspace-engine/src/hash.rs:67-87 | One round has an inverse on the eight working variables |
| Sha256Theorems.RoundsAreABijection | crates/workspace-engine/src/hash.rs:67-87 | So have all 64, for every chunk |
| Sha256Theorems.HashingComposes | crates/workspace-engine/src/hash.rs:38-97 | The state after p ++ q is q run from the state after p |
| Sha256Theorems.HexStateIsInjective | crates/workspace-engine/src/hash.rs:99-101 | Different digests print differently |
| Sha256Theorems.SixteenCharactersHoldNineDigits | crates/workspace-engine/src/hash.rs:104-118 | What a name cut from the digest text tells apart |
| SessionLog.ClassifyAnswersFor | crates/workspace-engine/src/recovery.rs:93-223 | The classifier answers for exactly the tasks that neither ended, nor wait, nor were just settled from a completion marker |
| SessionLog.SettledAmongIff | crates/workspace-engine/src/recovery.rs:233-315 | Which tasks a surviving completion marker settles |
| SessionLog.LostCallsAreCountedOnce | crates/workspace-engine/src/recovery.rs:317-368 | Whatever is appended meanwhile, a marker accounted for is never accounted for again, and after a classification every dangling call with an estimate is |
| SessionTheorems.DanglingIff | crates/workspace-engine/src/session.rs:4408-4470 | An action dangles exactly when it was started and its marker never finished |
| SessionTheorems.EvidenceIsTheTasks | crates/workspace-engine/src/recovery.rs:124-131 | The marker a card shows is the task's last unfinished one, side-effecting whenever there is such a one |
| SessionTheorems.ClassifiedAsSafeIff | crates/workspace-engine/src/recovery.rs:133-172 | A task's outcome is unknown exactly when a side effect is in flight; it is resumed without asking exactly when none is, its status is one of rest and no worker ran the session |
| SessionTheorems.PromptIsTheNewest | crates/workspace-engine/src/session.rs:1741-1809 | A task's prompt is the newest one recorded with a status that is understood |
| SessionTheorems.UsageAddsUp | crates/workspace-engine/src/session.rs:2870-2928 | A task's usage adds up over the parts of its log |
| SessionTheorems.LostCallsExactly | crates/workspace-engine/src/recovery.rs:328-368 | What is accounted for after a crash: each lost call, at its own estimate, to its own task, and nothing else |
| SessionTheorems.SettledByIff | crates/workspace-engine/src/recovery.rs:245-292 | When a completion marker settles its task |
| SessionTheorems.SettlementsRecordVerdicts | crates/workspace-engine/src/recovery.rs:284-300 | A settled task is recorded with the status its verdict stands for |
| SessionTheorems.SettlementsFinishMarkers | crates/workspace-engine/src/recovery.rs:264-300 | Settling finishes the marker it used, and those of tasks that had ended already |
| Recovery.ReadStatuses | crates/workspace-engine/src/session.rs:1703-1739 | The replay's map holds each task's newest status |
| Recovery.ReadPrompts | crates/workspace-engine/src/session.rs:1741-1809 | The merge of task events keeps each task's newest recorded prompt |
| Recovery.ReadUsage | crates/workspace-engine/src/session.rs:2870-2928 | A task's tokens are those of every usage event for it; no event is not zero |
| Recovery.ReadMarks | crates/workspace-engine/src/session.rs:4330-4395 | Supersession is read from the active events, a lost call from all of them |
| Recovery.ReadFacts | crates/desktop-shell/src/recovery.rs:84-123 | One read answers for every task of the session |
| RecoveryDesks.RecoveryDesk.SweepTasks | crates/desktop-shell/src/recovery.rs:387-419 | The cached facts give the cards and the writes of re-reading the growing log for every task |
| RecoveryDesks.RecoveryDesk.RunSweep | crates/desktop-shell/src/recovery.rs:374-451 | What a launch appends, the cards it finds and the approvals it reattaches, without the patches decided already |
| RecoveryDesks.RecoveryDesk.SweepPayload | crates/desktop-shell/src/recovery.rs:144-168 | The cards shown are those whose task is not settled in the current log |
| RecoveryDesks.RecoveryDesk.SweepJson | crates/desktop-shell/src/recovery.rs:126-139 | The sweep runs once in a process and is filtered on every listing |
| RecoveryDesks.RecoveryDesk.ApplyDecision | crates/desktop-shell/src/recovery.rs:213-281 | The writes, the answer and the remembered sweep after a decision, for every form |
| RecoveryDesks.RecoveryDesk.ResolveReattachedApproval | crates/desktop-shell/src/recovery.rs:300-345 | The same for an answered approval |
| RecoveryDesks.RecoveryDesk.Forget | crates/desktop-shell/src/recovery.rs:347-362 | Exactly the decided task's card and approval are dropped |
| RecoveryTheorems.StepKeepsSettled | crates/desktop-shell/src/recovery.rs:213-281 | No sweep, decision or crash between two of their appends reopens a settled task |
| RecoveryTheorems.SettledIsNeverListed | crates/desktop-shell/src/recovery.rs:144-168 | A settled task is never listed again, over any run |
| RecoveryTheorems.AcceptedIff | crates/desktop-shell/src/recovery.rs:213-270 | Exactly when a decision is accepted |
| RecoveryTheorems.DecisionLeaves | crates/desktop-shell/src/recovery.rs:239-270 | What each decision leaves on disk |
| RecoveryTheorems.OneDecisionPerTask | crates/desktop-shell/src/recovery.rs:227-237 | A task is decided, so resumed, at most once over any run |
| RecoveryTheorems.DecidedIsNeverListed | crates/desktop-shell/src/recovery.rs:272-362 | A decided task is never listed again |
| RecoveryTheorems.InterruptedDecisionLeavesTheQuestionOpen | crates/desktop-shell/src/recovery.rs:240-258 | A process that dies inside a decision leaves the question open unless it was settled on disk |
| RecoveryTheorems.LaunchListsExactly | crates/desktop-shell/src/recovery.rs:374-419 | The first listing after a launch shows exactly the open questions |
| RecoveryTheorems.SettledCrashIsClosed | crates/workspace-engine/src/recovery.rs:233-315 | A crash between answer and final status is closed by the next launch and never listed as interrupted |
| RecoveryTheorems.CardOffersWhatIsAccepted | crates/desktop-shell/src/recovery.rs:543-560 | A fresh card offers resume exactly when it would be accepted and there is a prompt to send |
| RecoveryTheorems.EndpointResumesWithoutAPrompt | crates/desktop-shell/src/recovery.rs:240-258 | A task without a prompt whose resume the endpoint accepts |
| RecoveryTheorems.ResolvedIsNeverReattached | crates/desktop-shell/src/recovery.rs:283-345 | An approval answered after a crash is never offered again |
| RecoveryTheorems.ResumeReturnsThePrompt | crates/desktop-shell/src/recovery.rs:822-835 | A resume hands back the prompt on record, whatever blank status events lie between |
| RecoveryTheorems.ReopensIff | crates/workspace-engine/src/session.rs:5115-5134 | Which single event reopens a settled task |
| LaunchTheorems.LaunchResumesExactly | crates/desktop-shell/src/recovery.rs:399-407 | A launch takes a task up again exactly when that is safe: nothing in flight, a status of rest, no worker, no later turn, not just settled |
| LaunchTheorems.LaunchReattachesExactly | crates/workspace-engine/src/recovery.rs:566-595 | A launch reattaches exactly the approvals of tasks that wait in idle sessions, except those decided already |
| LaunchTheorems.ReattachedWaitsOrFails | crates/workspace-engine/src/recovery.rs:596-790 | A reattached approval goes on waiting, or fails when its proposal cannot be produced |
| LaunchTheorems.FreshCardShows | crates/desktop-shell/src/recovery.rs:455-560 | A fresh card shows the prompt on record, the unfinished marker, whether the outcome is unknown, and usage with the lost calls counted in |
| LaunchTheorems.DecisionIsTold | crates/desktop-shell/src/recovery.rs:213-270 | The answer to a decision, refusals in order |
| LaunchTheorems.FirstMissingFieldIsTold | crates/desktop-shell/src/recovery.rs:213-220 | The first missing field is the one named |
| LaunchTheorems.ResolvedIsCancelled | crates/desktop-shell/src/recovery.rs:300-345 | Answering a reattached approval cancels its task |
| LaunchTheorems.DecisionKeepsOtherCards | crates/desktop-shell/src/recovery.rs:272-362 | Deciding one task takes no other card away and brings none |
| LaunchTheorems.OtherApprovalsAreKept | crates/desktop-shell/src/recovery.rs:347-362 | Nor does it, or answering an approval, take another approval away |
| JsonText.EscapeText | crates/workspace-engine/src/audit.rs:109-125 | The loop escapes every character |
| JsonText.EscapedTextReadsBack | crates/workspace-engine/src/audit.rs:109-125 | Reading the escaped text by section 7 of RFC 8259 gives the text back |
| JsonText.ObjectReadsBack | crates/workspace-engine/src/audit.rs:100-107 | A record decodes to exactly the fields it was written from |
| JsonText.RecordIsOneLine | crates/workspace-engine/src/audit.rs:100-125 | No record holds a control character, so each is one line |
| JsonText.FivePassesAreOne | crates/damaian-cli/src/main.rs:1735-1742 | The five replacements are one pass over the characters |
| JsonText.EscapersAgreeIff | crates/damaian-cli/src/main.rs:1735-1742 | The two escapers agree exactly on texts with no control character but newline, return and tab |
| MarkdownPaths.FlattenMarkdownLinks | crates/eval-harness/src/assertions.rs:1163-1191 | The scan ends, slices within range and computes the recursive rewriting |
| MarkdownPaths.EveryLinkIsOpened | crates/eval-harness/src/assertions.rs:1155-1191 | Whatever a response is made of, every link is opened and everything else is copied |
| MarkdownPaths.UnchangedIffNoLink | crates/eval-harness/src/assertions.rs:1163-1191 | A text comes out unchanged exactly when it holds no link; each link costs one character |
| MarkdownPaths.NoLinkMarkNoLink | crates/eval-harness/src/assertions.rs:1163-1191 | Text without `](` is unchanged |
| MarkdownPaths.LettersAreConserved | crates/eval-harness/src/assertions.rs:1163-1191 | Every character but brackets, parentheses and spaces is kept, in order |
| ResponsePaths.PeelLineCol | crates/eval-harness/src/assertions.rs:1193-1208 | The loop peels up to two groups of digits |
| ResponsePaths.PositionIsPeeled | crates/eval-harness/src/assertions.rs:1193-1208 | `path:line:col` gives back the path, for any path and digits |
| ResponsePaths.LineIsPeeledIff | crates/eval-harness/src/assertions.rs:1193-1208 | `path:line` gives back the path exactly when the path does not end in such a group |
| ResponsePaths.LineOfANumberedPath | crates/eval-harness/src/assertions.rs:1193-1208 | `a:1:2` is peeled to `a` |
| ResponsePaths.NumberAtTheEnd | crates/eval-harness/src/assertions.rs:1196-1208 | A group is peeled exactly when the path ends in a colon and digits |
| ResponsePaths.UnresolvedPaths | crates/eval-harness/src/assertions.rs:1132-1152 | The loop over tokens collects the missing candidates |
| ResponsePaths.EachMissingPathOnce | crates/eval-harness/src/assertions.rs:1132-1152 | Every missing path is reported once, and nothing else |
| ResponsePaths.MissingTargetIsReported | crates/eval-harness/src/assertions.rs:1128-1162 | A link whose target is a missing path is found, whatever surrounds it |
| ResponsePaths.LooksLikePathIff | crates/eval-harness/src/assertions.rs:1138-1144 | What counts as a path: a slash, a dot after the last one, and no address |
| ResponsePaths.TokensSplitAt | crates/eval-harness/src/assertions.rs:1134 | White space of any kind separates tokens |
| ResponsePaths.WrappedIsUnwrapped | crates/eval-harness/src/assertions.rs:1119-1137 | Brackets and quotes before a written path, a position and punctuation after it, are taken off |
| ResponsePaths.WrittenPathIsReported | crates/eval-harness/src/assertions.rs:1132-1152 | A written path is reported exactly when it is a path and does not exist, whatever stands around it |
| Tally.RunRecord.GroupApprovalsByCause | crates/eval-harness/src/record.rs:348-358 | The field is rebuilt from the approvals, whatever it held |
| Tally.GroupsHoldEveryPrompt | crates/eval-harness/src/record.rs:348-358 | The groups hold each cause's prompts and add up to all of them |
| Metrics.CollectPrompts | crates/eval-harness/src/metrics.rs:475-480 | The loop adds up the groups of every run |
| MetricsTheorems.ReportInAnyOrder | crates/eval-harness/src/metrics.rs:99-497 | Reordering the runs or dropping skipped ones leaves the report as it is |
| MetricsTheorems.ReportHasEveryRow | crates/eval-harness/src/metrics.rs:64-93 | Every report has the same 23 rows in the same order, whatever the runs hold |
| MetricsTheorems.DurationsAreSorted | crates/eval-harness/src/metrics.rs:254-255 | The latencies are exactly those of the runs, each as often as it was taken, sorted |
| MetricsTheorems.MedianNeverExceedsP90 | crates/eval-harness/src/metrics.rs:254-268 | Median latency never exceeds p90, and both are reported exactly when there is a run |
| MetricsTheorems.NearestRank | crates/eval-harness/src/metrics.rs:591-597 | A percentile is the entry at the nearest rank, halves rounded up |
| MetricsTheorems.LatencySplitsTheRuns | crates/eval-harness/src/metrics.rs:254-268 | A reported latency is that of a run; more runs than its rank took no longer, the rest no less |
| MetricsTheorems.ReportedLatenciesSplit | crates/eval-harness/src/metrics.rs:254-268 | The report's median and p90 rows stand at half and nine tenths of the runs that count |
| MetricsTheorems.MedianIsInTheMiddle | crates/eval-harness/src/metrics.rs:254-268 | At least half of the runs took no longer than the median, at least half no less |
| MetricsTheorems.NoDataIsSaidExactlyWhenThereIsNone | crates/eval-harness/src/metrics.rs:539-556 | A rate reports no data exactly when there is nothing to observe |
| MetricsTheorems.NoCountWithoutObservations | crates/eval-harness/src/metrics.rs:558-570 | So do the counts |
| MetricsTheorems.RatesAreFractions | crates/eval-harness/src/metrics.rs:531-556 | The rates over runs lie between zero and one |
| MetricsTheorems.CompletionIsAShare | crates/eval-harness/src/metrics.rs:106-130 | The completion rate is the share of completed runs among those neither refused nor blocked |
| MetricsTheorems.CheckRateIsAShare | crates/eval-harness/src/metrics.rs:132-145 | The check rate is the share of passed checks among all checks of all runs |
| MetricsTheorems.RecoveryIsAShare | crates/eval-harness/src/metrics.rs:200-232 | The recovery rate is the share of safely stopped runs among the interrupted ones |
| MetricsTheorems.RatesAreSharesOfTotals | crates/eval-harness/src/metrics.rs:531-570 | The other rates are shares of totals over all runs, and the counts are those totals |
| MetricsTheorems.CostAddsUp | crates/eval-harness/src/metrics.rs:311-323 | The cost adds up over the runs and is reported exactly when some run has one |
| MetricsTheorems.PromptsAreConserved | crates/eval-harness/src/metrics.rs:469-494 | Each cause's prompts are those of the runs added up |
| MetricsTheorems.GroupsAddUpToThePrompts | crates/eval-harness/src/record.rs:348-358 | Once every run is grouped, the report's groups add up to the prompts of all runs |

## Left out

- Sockets, files, signals, processes, git and the keychain: what they answer is a parameter, a field of an oracle, or a step of the environment.
- The chat engine behind `take_turn`, beyond the steps that take a paused turn off disk and answer it: an environment bound by the assumptions above.
- What the shell writes to a session between two worker processes (the launch sweep, recovery decisions): a restart in `TurnProtocol` finds the store as it was left. The sweep and the decisions are modelled on their own.
- Reads of the store that fail in the worker; it then restores nothing.
- The JSON codec of serde: a writer and a reader with the properties assumed above.
- Decoding of budgets and of check decisions: parameters.
- Runs of `WorkerHost` under the lock are taken as atomic sections; the classes themselves are sequential.
- The digest of one given message (the test of hash.rs) is not evaluated.
- Sha256Imperative.Sha256Hex: messages of 2^61 bytes and more, where the source's bit length wraps.
- The order of recovery cards by task id, their headline, files, checkpoint and commit fields, and usage fields other than the token total: display.
- The completion gate itself: its verdict on a marker is an input (`Outside.verdicts`).
- The proposal behind a reattached approval: which patches were decided and which proposals cannot be produced are inputs (`Outside`).
- Due verifications in the sweep, audit events and torn log tails.
- Two recovery requests at the same time, and two spawns or restarts at the same time.
- The sequence number of a session event is its position in the log, and every rewind names a position.
- The relative data directory that `worktree_is_held` uses where `start` uses the absolute one.
- `Supervisor::shutdown`, `deliver_first_message` and the audit records of a spawn.
- The priority order of `approval_payload` when a turn reports several proposals.
- Rounding of floating-point numbers in the report, and its labels; the rows are one expression where the source pushes them one by one, and sorting is by insertion.
- `distinct_ids`, `parse_symbol_location`, `take_flag`, `take_option`, `create_id`, `parse_handover` and `parse_worker_args`: small helpers on their own.
- Timing of the token comparison.
