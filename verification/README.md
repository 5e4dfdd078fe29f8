# LiveChat backend: a verified model

This project models the session engine of the LiveChat backend (a WebSocket front end that drives
Gemini Live sessions) and the shared stores that admit sessions, and proves properties of every run
of that model.  `dafny verify dfyconfig.toml` checks everything.

## How the model is built

Concurrency is modelled by interleaved steps.  One step runs one task from one `await` that can
block to the next; `send_outbox`, `get_speaker_mode` and the registry's lock never block while they
are held, so they do not split a step.  Each protocol is a total function `Step(state, event)` in
which an event that is not possible leaves the state unchanged, and `Exec` folds it over any
sequence of events.  The theorems are about `Exec` of *every* sequence.  States carry history (what
was offered, sent, counted, redeemed) beside what the program stores.

Objects that the program updates in place are classes (`SessionState`, `ReceiveLoop`, `Registry`,
`RedisClient`, `ProjectRepository`, `AuthTokenRepository`, `APIKeyRepository`) whose methods are
proved against the same functions that the step systems use, so that what is proved of all runs is
about what the methods do.

| file | what it models |
|---|---|
| `Prelude.dfy`, `BoundedQueue.dfy` | counting, filtering, subsequences; a bounded queue that drops when full |
| `Session.dfy` | frames and `SessionState` (`core/session_state.py`) |
| `Consumer.dfy`, `Offers.dfy` | one activation of the Gemini response consumer and its tool calls; what it tells the client |
| `Runner.dfy`, `RunnerProofs.dfy`, `RunnerDelivery.dfy` | the session runner, its receivers, cancellation and shutdown |
| `Chat.dfy`, `ChatProofs.dfy`, `Bracketing.dfy`, `ChatRuns.dfy`, `Turns.dfy`, `Cancellation.dfy`, `Exits.dfy`, `Talk.dfy` | receive and forward loops, the whole session, and its theorems |
| `SessionManager.dfy` | the registry under interleaved creation, callbacks and termination |
| `Redis.dfy`, `Tokens.dfy`, `RateLimit.dfy` | the Redis calls; single-use tokens and their rotation; the fixed-window limiter |
| `Schemas.dfy`, `ProjectRepo.dfy`, `ProjectHistory.dfy`, `CacheStaleness.dfy` | configurations and their dict form; the cache-aside repository; where each answered setting comes from; staleness under concurrency |
| `ToolExecutor.dfy`, `Tools.dfy` | the retrying webhook call; the tool list and its validation |
| `AuthTokens.dfy`, `SingleUse.dfy`, `Logout.dfy`, `ApiKeys.dfy`, `KeyLookup.dfy` | refresh-token families; the prefix-filtered key lookup, alone and overlapping other calls |

## What is assumed

- Gemini, the clients, Redis, MongoDB and webhook endpoints are arbitrary: any response, failure,
  delay or end of stream may come at any time.  Each Redis or MongoDB call is atomic.
- Random ids and tokens are fresh, and a hash verifies exactly the string it was made from.
- Instants are reals.  A sleep takes the time asked for; a webhook post ends within its timeout only
  where a theorem says so.
- Rate limiting: a request reaches `INCR` within one window length of its clock reading.

## Where the code does less than its comments say

- `interrupt`, dropped audio and dropped END frames keep voice turns bracketed.  Two messages do not:
  a `voice_start` refused by a full inbox while no activity is open
  (`ChatRuns.RefusedStartBreaksBracketing`), and a `voice_end` accepted while the voice flag of
  another connection to the session is up (`ChatRuns.OverlapBreaksBracketing`).  No other message
  does (`Bracketing.StepSoundIff`, `Bracketing.SoundIffHarmless`), and what these two leave behind
  does get unbracketed audio sent (`Bracketing.HarmRaisesFlag`,
  `Bracketing.RaisedFlagSendsUnbracketed`).
- `Bracketing.VoiceBracketing` speaks of attempts; after a failed activity_start audio is sent all
  the same (`ChatRuns.FailedStartIsFollowedByAudio`), and if none fails every attempt follows a start
  that got through (`Turns.BracketedByAcceptedStarts`).
- The stop sentinel is subject to the outbox limit like any frame; it gets in exactly when two slots
  are free (`RunnerDelivery.SentinelAccepted`).
- Cancelling the runner while it awaits the receiver that it has just cancelled is swallowed
  (`core/gemini_runner.py:357-363`): the runner may go on with its work, and `_terminate` waits for it
  (`core/session_manager.py:217-221`).  That is the only such moment
  (`Cancellation.SwallowedInEveryRun`), and it is reached (`Cancellation.SwallowingIsReachable`).
- A cancellation inside `finally` skips the rest of it; only that, or a cancellation before `try`,
  keeps `finally` from being finished (`ChatProofs.CutShortIff`).
- `_on_runner_done` pops by id, so it may evict a newer session of the same id
  (`SessionManager.CallbackCanEvict`): exactly when an older object of that id had not been called
  back at its creation (`SessionManager.EvictableIff`).
- The cap bounds registered sessions, not running runners (`SessionManager.RunnersMayExceedCap`);
  these number at most the cap plus those terminated or evicted while running
  (`SessionManager.RunningRunners`).
- A token is consumed at the start of the handshake, also if the handshake is refused later
  (`Tokens.RefusalSpendsToken`); `api/chat.py:41-43` says that it is deleted by a successful one.
- `get_or_create` resumes a session whatever project the caller was admitted for
  (`SessionManager.ResumeIgnoresProject`).
- "The next WS connection picks up the new config immediately" (`repositories/project_repo.py:176-178`)
  holds when calls do not overlap (`ProjectRepo.CacheRefinesDirectRead`), but a lookup that overlaps
  the update may spoil it (`CacheStaleness.UpdateMayBeMissed`): after an invalidation it holds
  exactly when no reader still has another configuration to put into the cache
  (`CacheStaleness.UpdateSeenIff`).
- Overlapping tool edits may lose an answered edit (`Tools.OverlappingAddsLoseOne`,
  `Tools.OverlappingUpdatesLoseOne`): a name stays accounted for exactly when every storing call has
  read its present presence (`Tools.NothingIsLostIff`), and a storing call leaves the other tools'
  contents alone exactly when it has read them as they now are (`Tools.OthersKeptIff`).
- A logout does not end a session whose refresh is under way (`Logout.LogoutMissesMatch`,
  `Logout.LogoutMissesRotation`); `Logout.LogoutIsCompleteIff` gives the exact condition.
- A cache hit ignores the tenant of the lookup (`ProjectRepo.CacheHitIgnoresTenant` gives the exact
  condition); the tenant of every key and token does own its project, so answers are unaffected.
- No outer `wait_for` bounds a webhook call by `timeout_ms` (`core/tool_executor.py:27`);
  `ToolExecutor.BudgetKeptIff` says exactly when the budget is kept, which with three attempts is
  never.
- `verify_and_rotate` ignores the delete result and reuse detection only logs, so a refresh token is
  single-use when calls do not overlap (`AuthTokens.SequentialFamilies`) and otherwise need not be
  (`AuthTokens.OverlapForksFamily`).  `SingleUse.SingleUseIff` gives the exact condition in any
  store; `AuthTokens.RotatesOnce` and `AuthTokens.FamilyConservation` count the answers and the
  stored tokens of every run.
- `max_concurrent_sessions` is not capped by the plan (`api/projects.py:455`, `522`): the cap of
  `SessionManager.ConcurrencyCap` is whatever the configuration says.

## Model

| member | source | states |
|---|---|---|
| BoundedQueue.LossyFifo | core/session_state.py:91-96 | taken then waiting is an order-preserving subsequence of the offered frames; offered = taken + waiting + dropped; every drop met a queue of exactly its capacity |
| Session.SessionState.constructor | core/session_state.py:91-109 | a new session has empty queues of 512 and 256, speaker off, counters 0 |
| Session.SessionState.PutInbox | core/session_state.py:91-93 | put_nowait: refused exactly when 512 frames wait, and otherwise appended; the history stays accounted for |
| Session.SessionState.TakeInbox | core/gemini_runner.py:332-335 | the frame taken is the oldest one waiting |
| Session.SessionState.SendOutbox | core/session_state.py:138-142 | any frame, the sentinel too, is dropped exactly when 256 wait |
| Session.SessionState.TakeOutbox | api/chat.py:271 | the frame taken is the oldest one waiting |
| Session.SessionState.Touch | core/session_state.py:131-132 | sets last_active |
| Session.SessionState.SetSpeakerMode | core/session_state.py:122-124 | sets the speaker flag |
| Consumer.AudioOffersAreTheParts | core/gemini_runner.py:226-232 | the audio frames offered are the non-empty parts in order, and none with the speaker off |
| Consumer.ContentFrames | core/gemini_runner.py:225-242 | server content yields only audio (speaker on) and transcripts |
| Consumer.ResumeCounts | core/gemini_runner.py:218-267 | per wake-up `turns` and `tool_calls` grow by the turn_complete and tool_call frames offered, a turn is counted exactly when the consumer returns True, and nothing it offers ends the session |
| Offers.ResponseMeans | core/gemini_runner.py:223-254 | the assistant texts offered for a response are exactly its output transcription and the user transcripts its input transcription, each if not empty; audio precedes both, the assistant's text the user's, and turn_complete comes last exactly if the turn was interrupted or completed |
| Offers.ToolCallsFollow | core/gemini_runner.py:256-257 | a response that does not end the turn is followed by exactly its tool calls, in order, or by the next message |
| Offers.ErrorsReported | core/gemini_runner.py:175-179 | an error frame is offered exactly for a broken stream, a raising tool and a reply that could not be sent |
| RunnerProofs.StepKeepsTracked | core/gemini_runner.py:353-442 | every step keeps: a live receiver is the one `_recv_task` refers to, none is live while a text turn or activity_start is under way, and all are cancelled in `finally` |
| RunnerProofs.AtMostOneActive | core/gemini_runner.py:353-378 | hence at most one consumer iterates the stream |
| RunnerProofs.CancelKeepsShutdown | core/gemini_runner.py:444-458 | a cancellation at any suspension point keeps counters and shutdown history |
| RunnerProofs.FinishShutsDown | core/gemini_runner.py:482-505 | after the closed event the last two offers are session_ended and the sentinel |
| RunnerProofs.StepKeepsShutdown | core/gemini_runner.py:330-505 | every step keeps the counters equal to history, and the shutdown order |
| RunnerDelivery.DispatchSends | core/gemini_runner.py:343-442 | a popped frame is sent, at once or after the old receiver has gone, exactly if it is a voice frame, or a text with no receiver at work |
| RunnerDelivery.StepKeepsOrder | core/gemini_runner.py:330-442 | every step keeps: the voice frames sent are those taken, in order, and the speaker flag is the last one taken |
| RunnerDelivery.StepKeepsQueues | core/session_state.py:91-96 | every step keeps both queues accounted for |
| RunnerDelivery.SilentInFinally | core/gemini_runner.py:456-505 | in `finally` a cancelled receiver offers, sends and counts nothing |
| RunnerDelivery.StepKeepsBackToBack | core/gemini_runner.py:504-505 | nothing is taken between session_ended and the sentinel |
| RunnerDelivery.SentinelAccepted | core/session_state.py:138-142 | after an orderly end the sentinel is in the outbox exactly when two slots were free, and then it is the last frame ever taken |
| Chat.ReceiveLoop.constructor | api/chat.py:337-339 | a receive loop starts with voice inactive |
| Chat.ReceiveLoop.Handle | api/chat.py:341-428 | one message: new voice flag, frame offered, busy answer and last_active |
| Chat.FilterMeans | api/chat.py:355-428 | which message lets which frame through, when a turn is open afterwards, and when the loop ends |
| Chat.StopIsOffered | core/session_manager.py:206-209 | a session told to stop is offered a stop frame, and no client message is one |
| Chat.ForwardLoop | api/chat.py:269-330 | what was sent, then the sentinel or one lost frame, then what still waits, is what waited before; it stops at the sentinel, at a failing send, or when nothing waits |
| Bracketing.FilterObeysRule | api/chat.py:355-414 | audio and END pass only inside a voice turn; a turn is open after a message only if it began with it or was open and not ended |
| ChatProofs.SingleReceiver | core/gemini_runner.py:353-442 | in every run at most one consumer iterates the Gemini stream |
| Bracketing.BracketedIffNested | api/chat.py:337-418 | audio and END inside an open activity, said of every position, is the same as the running-flag form |
| Bracketing.StepSoundIff | api/chat.py:355-414 | from a state whose accepted frames are nested and whose raised flags stand for an open activity, a step keeps that exactly unless it is a voice_start refused while no activity is open or a voice_end accepted while another loop's flag is up |
| Bracketing.SoundIffHarmless | api/chat.py:355-414 | a run is sound at every moment exactly if it has no such message |
| Bracketing.HarmRaisesFlag | api/chat.py:385-406 | such a message leaves a flag raised outside any activity |
| Bracketing.RaisedFlagSendsUnbracketed | api/chat.py:355-414 | from an idle runner with nothing waiting, audio under such a flag is sent unbracketed |
| Bracketing.OneLoopIsHarmless | api/chat.py:337-418 | with one receive loop at a time and no voice_start refused while no activity was open, no message is harmful |
| Bracketing.VoiceBracketing | api/chat.py:337-418 | in every run without a harmful message, with any number of connections, audio and activity_end are attempted only after an activity_start with no activity_end since; so with one loop at a time and no start lost |
| ChatProofs.ClientToGemini | core/gemini_runner.py:330-442 | what is sent to Gemini is an order-preserving subsequence of what was offered; of the voice frames taken none is lost or repeated; the speaker flag is the last one taken |
| ChatProofs.FramesAccountedFor | core/session_state.py:91-142 | both queues balance in every run; every outbox frame taken went to exactly one forward loop, which delivers its frames in order |
| ChatProofs.CountersAgreeWithHistory | core/gemini_runner.py:456-498 | at every suspension point the counters equal the frames ever offered and the activations that returned True, record and closed event carry them, and their status is Error exactly if the one session error was offered |
| ChatProofs.CutShortIff | core/gemini_runner.py:444-505 | in every run the runner has ended without finishing `finally` exactly if it was cancelled before `try` or inside `finally` |
| ChatProofs.ShutdownOrder | core/gemini_runner.py:444-505 | every runner that has ended and was not so cancelled made one record attempt (with a repository) and one closed event, then offered session_ended and the sentinel, nothing between; the sentinel got in exactly when two slots were free; any other made at most the record attempt |
| ChatRuns.ForwardLoopReachesSentinel | api/chat.py:269-330 | with two free slots at the end a forward loop that has not stopped delivers the frame it holds and all that is left, in order, and stops at the sentinel |
| ChatRuns.EndedIsFinal | core/gemini_runner.py:456-505 | once a runner has ended no event changes what it offered, sent, counted or recorded |
| ChatRuns.FailedStartIsFollowedByAudio | core/gemini_runner.py:365-372 | a run in which audio follows an activity_start that failed |
| ChatRuns.RefusedStartBreaksBracketing | api/chat.py:385-418 | a run in which a voice_start refused by a full inbox is followed by unbracketed audio |
| ChatRuns.OverlapBreaksBracketing | api/chat.py:337-418 | a run with two receive loops whose sends are not bracketed |
| Turns.TurnsAreOrderly | core/gemini_runner.py:343-442 | in every run: a stop frame is the last one taken; every activity_start attempted failed or brought exactly one receiver, but perhaps the last; whenever the loop is ready for a frame a receiver is at work only inside an open activity |
| Turns.StepKeepsTurns | core/gemini_runner.py:353-412 | each step of the runner keeps these three |
| Turns.BracketedByAcceptedStarts | core/gemini_runner.py:365-412 | in every run without a harmful message and without a failed activity_start, every audio and activity_end attempt follows a start that got through |
| Turns.EveryRequestIsAnswered | core/gemini_runner.py:145-165 | the requests of one message are executed once each, in order, and their results reported before the reply |
| Exits.InlineOutcome | core/gemini_runner.py:437-442 | after a wake-up of the inline consumer the loop goes on exactly if the last frame it offered is turn_complete, and is left exactly if the stream ended or broke or a tool raised |
| Exits.ReceiverOutcome | core/gemini_runner.py:210-267 | a background receiver ends with True exactly if the last frame it offered is turn_complete, and with False exactly if its stream ended or broke or a tool raised |
| Exits.AwaitOutcome | core/gemini_runner.py:402-411 | after awaiting a receiver the loop goes on exactly if it returned True, and is left if it returned False or was cancelled |
| Exits.WhyItLeaves | core/gemini_runner.py:330-458 | in every run the runner has left its loop exactly if it took a stop frame, timed out, was cancelled, failed to connect or awaited a consumer that ended with its stream; the recorded status is Error for a failure, TimedOut for an idle timeout, else Closed |
| Exits.NothingAfterLeaving | core/gemini_runner.py:444-505 | once it has left it sends nothing and takes no further frame |
| Talk.TextsAreAnswered | core/gemini_runner.py:422-442 | in every run each text sent with success began one inline activation, all but a running one of which completed its turn or ended with its stream or a cancellation |
| Talk.SendsWhatIsWanted | core/gemini_runner.py:343-435 | in every run exactly the voice frames popped, and the texts popped with no receiver at work, are sent, each once and in order |
| Talk.ModesAreEchoed | core/gemini_runner.py:347-351 | in every run the mode acknowledgements offered are those of the mode requests taken, in order, with their values |
| Talk.ReadyComesFirst | core/gemini_runner.py:304-328 | in every run session_ready is offered at most once, and before anything else unless the connection failed |
| Talk.ToolsAreRun | core/gemini_runner.py:145-173 | any consumer of the runner runs the requests of a message one by one, reports each result with its own request, counts them, and then sends the reply |
| Cancellation.CancelSwallowedIff | core/gemini_runner.py:357-363 | a cancelled runner sends to Gemini or takes a frame again in some continuation exactly if the cancellation came while it awaited the receiver it had cancelled |
| Cancellation.SwallowedInEveryRun | core/gemini_runner.py:357-363 | the same at every moment of every run of a session |
| Cancellation.SwallowingIsReachable | core/gemini_runner.py:353-363 | a run that reaches that moment |
| SessionManager.CountForProject | core/session_manager.py:130-133 | the loop counts the registered sessions of the project |
| SessionManager.Registry.constructor | core/session_manager.py:66-77 | a new registry is empty |
| SessionManager.Registry.GetOrCreate | core/session_manager.py:121-151 | resumes exactly if the id is registered, refuses exactly if not and the project's registered sessions reach the cap, else registers a new object of that id and project |
| SessionManager.Registry.OnRunnerDone | core/session_manager.py:195-197 | removes whatever is registered under the id |
| SessionManager.Registry.PopForTermination | core/session_manager.py:200-204 | removes and returns what is registered under the id |
| SessionManager.StopAll | core/session_manager.py:94-97 | with no session opened meanwhile the registry ends empty |
| SessionManager.ConcurrencyCap | core/session_manager.py:129-151 | in every run each project's registered sessions are at most the largest cap passed for it so far |
| SessionManager.RegistryLifecycle | core/session_manager.py:121-204 | in every run the registered objects are exactly those neither terminated, called back nor evicted; eviction happens only when an id is re-created before an older callback; once all are called back it is empty |
| SessionManager.NeverRegisteredAgain | core/session_manager.py:164-197 | once its callback has run an object is registered in no continuation |
| SessionManager.ResumeChangesNothing | core/session_manager.py:121-127 | resuming returns the registered object and changes nothing, also no count |
| SessionManager.ResumeIgnoresProject | core/session_manager.py:121-127 | the session returned belongs to another project than the one passed exactly when one of that id is registered that was created for another project |
| SessionManager.EvictableIff | core/session_manager.py:164-204 | after any run, a session just created can be evicted in some continuation exactly when an older object of its id has not been called back |
| SessionManager.CallbackCanEvict | core/session_manager.py:195-204 | a run in which an older runner's callback evicts a newer live session |
| SessionManager.RunningRunners | core/session_manager.py:195-222 | in every run a project's running runners are those registered, at most the cap, plus those terminated or evicted |
| SessionManager.RunnersMayExceedCap | core/session_manager.py:200-222 | a run with more running runners than the cap |
| Redis.RedisClient.constructor | db/redis_client.py:80-92 | the keyspace starts empty |
| Redis.RedisClient.CreateEphemeralToken | db/redis_client.py:138-186 | the stored payload has the issuer's project, tenant, API key, rate limit and metadata, is stamped now, and expires after ttl, at least 1 and at most 300 s; it can be read exactly until then |
| Redis.RedisClient.RedeemEphemeralToken | db/redis_client.py:62-71 | returns the payload if alive and removes it; afterwards the token is gone |
| Redis.RedisClient.PeekEphemeralToken | db/redis_client.py:224-239 | returns the payload and changes nothing |
| Redis.RedisClient.GetEphemeralTokenTtl | db/redis_client.py:241-250 | negative exactly when the token is not alive |
| Redis.RedisClient.Incr | db/redis_client.py:125 | one more than a live counter, else 1 without expiry |
| Redis.RedisClient.Expire | db/redis_client.py:126-127 | sets the expiry of a live counter only |
| Redis.RedisClient.CheckAndIncrementRateLimit | db/redis_client.py:120-134 | alone: allowed exactly when the new count is within the limit, with expiry after two windows set on the first count |
| Tokens.CreditConservation | api/tokens.py:265-315 | per project, over every interleaving: redemptions + live + expired + consumed-not-reissued = mints |
| Tokens.RedemptionsWithinMints | api/chat.py:141-153 | a project is entered by token at most once per redemption, and a token redeemed for it at most once per mint, however tokens rotate |
| Tokens.RefusalSpendsToken | api/chat.py:141-262 | a handshake with a live token spends it for good whatever its verdict; a refused one without a session |
| Tokens.SingleUse | db/redis_client.py:188-222 | of all redeem calls on one token string at most one gets a payload |
| Tokens.ChainKeepsWhatWasIssued | api/tokens.py:289-315 | along any rotation chain project and metadata stay those of the mint, lifetimes are 1..300 s, all tokens but the last are spent, and no chain forks |
| Tokens.RedeemedAsIssued | api/tokens.py:221-228 | in every run each redeemed payload carries project, tenant, API key and rate limit of the issuer who minted its token or rotated to it, and the lifetime asked for within 1 to 300 s |
| Tokens.RotateToken | api/tokens.py:244-327 | alone: 404, 403 or success exactly by liveness and project, never 409; the new payload has the rotating issuer's fields, the old metadata and the clamped lifetime |
| Tokens.RotationAnswers | api/tokens.py:265-315 | what each of a rotation's calls leads to: not found, forbidden, conflict or the next call, by liveness and project, and what it stores |
| Tokens.MintAnswers | api/tokens.py:211-228 | a mint is refused exactly for more than ten keys of metadata, else its token is alive with the issuer's fields |
| RateLimit.NotExpired | db/redis_client.py:123-127 | a window's counter never expires before the window's requests are counted |
| RateLimit.ExactPerWindow | db/redis_client.py:120-134 | under every interleaving exactly min(n, L) of the n requests of a window are allowed |
| RateLimit.SpanBound | db/redis_client.py:120-134 | any span of k windows' length admits at most (k+1)L requests |
| RateLimit.SpanBoundIsAttained | db/redis_client.py:120-134 | for every L, W and k >= 1 some run and span attain (k+1)L |
| Schemas.ToolRoundTrip | core/schemas.py:28-43 | loading a dumped tool gives the tool |
| Schemas.ToolDefaults | core/schemas.py:36-43 | a tool stored with the required fields only loads as a static one with 5000 ms |
| Schemas.ConfigDefaults | core/schemas.py:68-88 | a configuration stored with the required fields only loads with the documented defaults |
| Schemas.OtherModesRefused | core/schemas.py:39 | a stored execution mode other than the two does not load |
| Schemas.ConfigRoundTrip | repositories/project_repo.py:234-240 | loading what was written to the cache gives the configuration written |
| ProjectRepo.CacheHitIgnoresTenant | repositories/project_repo.py:93-103 | through a coherent cache a lookup answers as a tenant-scoped read exactly unless it hits an entry of another tenant's project |
| ProjectRepo.ProjectRepository.constructor | repositories/project_repo.py:43-45 | an empty repository is coherent |
| ProjectRepo.ProjectRepository.GetConfigById | repositories/project_repo.py:49-110 | both lookups: for the owning tenant the answer is the stored configuration if the project is active, else none; only a miss of an active project fills the cache, for 60 s |
| ProjectRepo.ProjectRepository.Update | repositories/project_repo.py:169-188 | each of the fourteen fields that is given has the given value afterwards, each other its old one; id, tenant, last access and other projects are unchanged; the cache is invalidated exactly when the document changed and stays equal to it |
| ProjectRepo.ProjectRepository.TouchLastAccessed | repositories/project_repo.py:190-200 | changes no uncached answer and needs no invalidation |
| ProjectRepo.ProjectRepository.SetTools | repositories/project_repo.py:202-212 | replaces the tools and nothing else of the settings |
| ProjectRepo.ProjectRepository.SoftDelete | repositories/project_repo.py:216-227 | alone: no lookup finds the project afterwards |
| ProjectRepo.CacheRefinesDirectRead | repositories/project_repo.py:49-110 | in every run of non-overlapping calls the platform with its cache gives the same answers, keys and tokens as one without |
| ProjectHistory.ConnectsToLastGiven | repositories/project_repo.py:169-188 | after any run of non-overlapping calls a connection is answered exactly if the project is active, and each setting of the answer is the one the owner's last update gave, or the creation |
| CacheStaleness.BoundedStaleness | repositories/project_repo.py:61-77 | under every interleaving a configuration served at t is the projection of an active document current at some instant of [t-60-d, t] |
| CacheStaleness.SoftDeletedStopsResolving | repositories/project_repo.py:216-227 | a project deactivated and not reactivated is served no later than 60 + d seconds after the commit |
| CacheStaleness.UpdateSeenIff | repositories/project_repo.py:176-186 | with the cache just invalidated, until the next commit the cache holds only the current configuration, and lookups begun from now on answer with it, exactly when no reader is to fill the cache with another |
| CacheStaleness.UpdateMayBeMissed | repositories/project_repo.py:176-186 | a run in which a lookup begun after the invalidation is served the old document |
| ToolExecutor.ExecuteWebhook | core/tool_executor.py:163-278 | it posts up to the first outcome that is not a timeout, a refused connection or one of five statuses, and at most N times; an object answers its `result` member if it has one and itself if not, a status of 400 or more is a permanent error, else the last error is kept; the time is that of those attempts |
| ToolExecutor.Execute | core/tool_executor.py:78-122 | unknown name; a static tool answers its stored response, or status ok if it has none; a webhook tool answers as its webhook |
| ToolExecutor.InitialRun | core/tool_executor.py:203-250 | the outcomes before it are all retryable and the one at it is not |
| ToolExecutor.PostsAreTheInitialRun | core/tool_executor.py:187-265 | the number of posts is min(N, 1 + length of the initial retryable run) |
| ToolExecutor.RetryWaits | core/tool_executor.py:283-293 | a Retry-After of seconds is waited for up to the cap, an absent or unreadable one gives the fallback, a negative one or no number none |
| ToolExecutor.WaitMeans | core/tool_executor.py:214-265 | between attempts it waits base*factor^(i-1), or what the response asks for but at most half the budget |
| ToolExecutor.RetryTimeBound | core/tool_executor.py:177-265 | if posts end within their timeout, posting and sleeping take at most max(N, T) + sum of max(base*factor^(i-1), T/2), for any attempt count and Retry-After |
| ToolExecutor.DefaultBound | core/tool_executor.py:56-59 | for the defaults that is max(3,T) + max(1,T/2) + max(2,T/2) |
| ToolExecutor.RetryBoundIsTight | core/tool_executor.py:177-265 | the bound is attained for every policy and budget |
| ToolExecutor.BudgetKeptIff | core/tool_executor.py:23-31 | the budget holds for every endpoint exactly when there is one attempt and T >= 1 |
| Tools.ValidateToolParameters | api/projects.py:106-136 | accepts exactly the valid parameter schemas, and each kind of error names a real fault |
| Tools.TypesSupported | api/projects.py:96 | the six types that a property may have |
| Tools.CreateRequests | api/projects.py:320-348 | name pattern and length, description, timeout, mode and its field: exactly what a request to add must meet |
| Tools.UpdateRequests | api/projects.py:351-372 | exactly what a request to change must meet |
| Tools.ParametersMean | api/projects.py:106-136 | parameters are valid exactly if of type object, with valid properties and every required name a property |
| Tools.EnumsNotEmpty | api/projects.py:125-127 | an enum is valid exactly if it is a non-empty list |
| Tools.PlansAre | core/plan_limits.py:50-91 | the tool counts and webhook timeouts of the plans, an unknown one being as the free one |
| Tools.AddDecides | api/projects.py:693-725 | when an addition is malformed, a conflict, over the limit or accepted, and that the stored tool is the one asked for with its timeout capped |
| Tools.UpdateDecides | api/projects.py:759-798 | when an update is accepted, that each given field takes its value and each other stays, and that the tool has what its mode needs |
| Tools.DeleteDecides | api/projects.py:819-826 | a deletion is refused exactly if there is no tool of that name, and leaves exactly the tools of other names |
| Tools.AddTool | api/projects.py:678-735 | status and new document for malformed, missing, duplicate, over-limit and accepted requests |
| Tools.ChangeTool | api/projects.py:749-804 | the first tool of that name gets the given fields, the rest stay; refused if the mode's field is missing |
| Tools.DeleteTool | api/projects.py:807-827 | removes every tool of that name, or answers 404 |
| Tools.AddThenDelete | api/projects.py:693-826 | deleting a tool just added restores the list |
| Tools.WithoutIs | api/projects.py:819 | what is left is what had another name, in order |
| Tools.EditKeepsGood | api/projects.py:678-827 | one call keeps unique names, mode fields, valid parameters and plan bounds |
| Tools.ToolListInvariant | api/projects.py:678-827 | the same after every interleaving of handlers, within the largest plan used |
| Tools.ExecutorAgrees | core/tool_executor.py:71-76 | in every reachable list the executor's map finds the tool that the update handler would change |
| Tools.NothingIsLost | api/projects.py:678-827 | without overlap, per name: additions answered 201 minus deletions answered 204 is 1 if the tool is there and 0 if not |
| Tools.StepBalancedIff | api/projects.py:687-725 | one step keeps a name's account balanced exactly when it does not store or has read the name's present presence |
| Tools.NothingIsLostIff | api/projects.py:678-827 | over every interleaving, answered additions and deletions account for a name at every moment exactly when every storing call read its present presence |
| Tools.SerialWhenNothingBetween | api/projects.py:678-827 | if no other call stores between a call's read and its store, the list is that of the calls one after another, updates included |
| Tools.OthersKeptIff | api/projects.py:687-826 | a storing call leaves every other tool as stored, contents and order, exactly when it has read them as they now are |
| Tools.OwnToolKeptIff | api/projects.py:759-798 | a storing update makes of the tool what it would make of the one now stored exactly when the two agree in every field it leaves as it is |
| Tools.OverlappingUpdatesLoseOne | api/projects.py:796-798 | a run in which two updates are answered 200 and the first one's change is gone |
| Tools.OverlappingAddsLoseOne | api/projects.py:724-725 | a run in which two adds are answered 201 and one tool is lost |
| AuthTokens.AuthTokenRepository.constructor | repositories/auth_token_repo.py:54-55 | the collection starts empty |
| AuthTokens.AuthTokenRepository.Create | repositories/auth_token_repo.py:57-84 | inserts one document that expires in seven days |
| AuthTokens.AuthTokenRepository.VerifyAndRotate | repositories/auth_token_repo.py:88-140 | uninterrupted: it succeeds exactly if the token is stored, unexpired and in scope, and replaces it by one of the same tenant and family for seven days; else nothing changes |
| AuthTokens.AuthTokenRepository.RevokeForTenant | repositories/auth_token_repo.py:160-170 | removes and counts exactly the tenant's documents |
| AuthTokens.AuthTokenRepository.RevokeByFamily | repositories/auth_token_repo.py:172-176 | removes exactly the tenant's documents of that family |
| AuthTokens.FamilyKeepsTenant | repositories/auth_token_repo.py:134-139 | under every interleaving all documents of a family belong to one tenant |
| AuthTokens.StaysStored | repositories/auth_token_repo.py:131-176 | a token stays stored until a rotation or revocation of its own deletes it, or it has expired |
| AuthTokens.SevenDays | repositories/auth_token_repo.py:48-75 | in every run no token outlives seven days from its issue |
| AuthTokens.FamilyConservation | repositories/auth_token_repo.py:131-140 | under every interleaving: stored + pending rotations + cleared = the one login + rotations that found nothing to delete |
| AuthTokens.RotatesOnce | repositories/auth_token_repo.py:131-140 | under every interleaving a raw token is taken at most once, and its answered and pending rotations are those that took it plus those that found nothing to delete |
| SingleUse.SingleUseIff | repositories/auth_token_repo.py:88-140 | in any store an issued token is answered at most once in every continuation exactly if no lookup can find it any more and the answers given plus the rotations that have found it are at most one |
| AuthTokens.RevokedNeverMatches | repositories/auth_token_repo.py:160-170 | after a logout no earlier token of the tenant is found again, whatever runs beside it |
| AuthTokens.RefreshIsAtomic | repositories/auth_token_repo.py:88-140 | the three steps without interruption do what the method does |
| AuthTokens.SequentialFamilies | repositories/auth_token_repo.py:88-140 | without overlap a family has at most one stored document and a raw token rotates at most once |
| AuthTokens.OverlapForksFamily | repositories/auth_token_repo.py:131-140 | a run in which two overlapping refreshes of one token both succeed |
| Logout.LogoutIsCompleteIff | repositories/auth_token_repo.py:131-170 | in any store a logout leaves the tenant without a stored token until the next login exactly when no rotation of its tokens is between its find and its insert |
| Logout.LogoutMissesMatch | repositories/auth_token_repo.py:131-170 | a run in which a refresh that had only found its token before the logout inserts a new one after it |
| Logout.LogoutMissesRotation | repositories/auth_token_repo.py:131-170 | a run in which a refresh that had deleted its token before the logout inserts the new one after it |
| ApiKeys.APIKeyRepository.constructor | repositories/api_key_repo.py:72-73 | the collection starts empty |
| ApiKeys.APIKeyRepository.Create | repositories/api_key_repo.py:77-112 | the key is pk_live_ or sk_live_ and the body; the document has the given project, tenant and type, the first 12 characters as prefix, and is neither revoked nor expiring |
| ApiKeys.APIKeyRepository.GetByRawKey | repositories/api_key_repo.py:116-161 | the loop over unrevoked keys of the prefix returns a key exactly if its hash matches and it is neither revoked nor past its expiry, stamps its use, and changes nothing else |
| ApiKeys.APIKeyRepository.Revoke | repositories/api_key_repo.py:178-195 | revokes and stamps the tenant's key, and changes no other |
| ApiKeys.PrefixLookupIsScan | repositories/api_key_repo.py:137-161 | on any well-formed collection the prefix lookup is the full scan |
| ApiKeys.LookupAgreesWithScan | repositories/api_key_repo.py:116-161 | in every reachable collection a key is returned exactly if its hash matches and it is neither revoked nor expired |
| ApiKeys.RevokedIsNeverFound | repositories/api_key_repo.py:178-192 | once revoked a key is found in no continuation |
| ApiKeys.CreatedIsFound | repositories/api_key_repo.py:77-112 | a key just created is found by its raw string |
| KeyLookup.ReturnedKeyWasValid | repositories/api_key_repo.py:137-159 | under every interleaving a key returned was stored and unrevoked at an instant between call and return, and unexpired at a later one |
| KeyLookup.RevokedBeforeCallIsNotReturned | repositories/api_key_repo.py:137-159 | under every interleaving a key revoked before the call is not returned |

## Left out

- The runner and the response consumer are step machines on values, not methods with loops: their
  loops over responses, parts and function calls are cut at suspension points, where other tasks run.
- RunnerProofs.StepKeepsShutdown: that a repository's `close_session` or the closed-event delivery
  succeeds is not claimed, only that each is attempted once.
- Tools.ValidateToolParameters: which of several faulty properties is reported is left open, because
  maps have no insertion order here.
- Tools.ChangeTool: the handler overwrites entries of the tool's dict; here the fields of the tool
  that the dict is the dump of, whose round trip is `Schemas.ToolRoundTrip`.
- Redis.RedisClient.CheckAndIncrementRateLimit: one call on one instant; interleaved calls are the
  subject of the RateLimit module.
- CacheStaleness.BoundedStaleness: d is the time from document read to cache set plus that from the
  last Redis call to the return; both are unbounded in the code.
- SessionManager.StopAll: the inbox STOP, the two-second wait and the cancel that follow each pop are
  events of the runner's model, in which a cancel may come at any time.
- Retries inside redis-py after a timed-out call, corrupt cache entries, and Redis or MongoDB failing.
- The Gemini SDK, httpx, Motor and argon2: arbitrary outcomes, or exact-match predicates.
- Usage totals (`_capture_usage`): the last message wins, so no law holds.
- Idle sweeping by `_cleanup_loop` and its timing: termination may happen at any time here.
- JSON parsing of client messages, text stripping, and `send_busy` failing while it answers.
- The handshake's other checks and close codes, `build_gemini_config`, routing and response models:
  each is settled by reading one branch.
- JWTs, analytics, session records' contents beyond status and counters, and `/test` endpoints.
- Plan limits on session lifetime and request rate: one `min` each.
