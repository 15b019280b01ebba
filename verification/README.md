# Verification model of the orchestration server

A Dafny model of the parts of the server whose behaviour is hardest to see from one function at a
time, with proofs over every input, every run or every reachable state. `dafny verify dfyconfig.toml`
checks the whole project.

What is modelled, by area:

- **Work sessions** (`Lifecycle`, `SessionRows`, `RequestBroker`, `SessionProtocol`, `SessionManagement`,
  `SessionSafety`, `SessionTheorems`, `SessionWaiting`, `SessionOutcomes`). Every stretch of code between two awaits is one atomic step of a
  state machine over the durable tables (sessions, pending requests, write locks) and the volatile maps
  (workers, recoveries, waiters, timers, suspended calls). The classes `WorkSessionStore`,
  `PendingRequestBroker` and `SessionManager` change their tables and maps in place and each method is
  proved to take the protocol step of its stretch; the invariant and the promises are proved for every
  interleaving of steps, restarts included. `SessionOutcomes` says of each kind of step when it is refused
  and what it makes of the rows, without the vocabulary of the protocol.
- **OAuth** (`OAuthRows`, `OAuthProtocol`, `OAuthServer`, `OAuthSafety`, `OAuthTheorems`,
  `OAuthOutcomes`). Codes and tokens
  as rows linked by `rotated_to` and `parent_token_hash`; the endpoints as steps at a clock that never
  goes back. A history that no step reads remembers consents, codes and families, so that provenance
  can be stated of tokens that are long gone.
- **Failover** (`FailoverClient`, `FailoverOutcomes`). The nested loops of `AgentcoordClient.call` against an arbitrary script of
  replies, the leader and down caches under overlapping calls, and what a write may do to the service. The
  loops are also proved to be a plain rule for the next post (`FailoverOutcomes.WalkExactly`).
- **Algorithms**: edit distance (`EditDistance`), project matching and resolution over exact reals
  (`Matching`, `MatchingMeaning`), the token budget (`ContextBudget`, `BudgetMeaning`, `ContextOverrun`), the bounded provider pool (`BoundedPool`), the
  per-identity rate limiter (`RateLimiter`) and the trimmed progress log (`ProgressLog`).

Where the code and what is written about it differ, the model follows the code:

- `text.ts` and `assembler.ts` say that text stays below the requested budget. Line breaks and separators
  are not estimated. `ContextOverrun.TextWithinExactly` says exactly when the assembled text is within its
  budget (`FitWithinExactly` for one section, `WholeTextWithinExactly` on the input alone when all sections
  fit whole), `BudgetIsExceeded` gives for every n a section of n lines that is kept whole and exceeds the
  budget by n/4 rounded up, and `ContextBudget.TextBound` is the bound that always holds.
- A section that lost content is not always reported as trimmed: `ContextOverrun.CutWithoutWarning` is an
  input, and `UnreportedCut` says exactly when it happens.
- The theft walk says a cut chain is reachable when the refresh lifetime *changes* between rotations. It
  takes a *lower* one: `OAuthTheorems.NoCutChains` allows every raise, `RotationCanBeCut` is the exact
  condition, and `LoweredLifetimeCuts` is a run that gets there.
- `agentcoord-client.ts` never repeats a write whose outcome is unknown, but treats a reply that is
  neither a success nor carries an error object (HTTP 500, say) as a reason to try the next node.
  `FailoverClient.WriteAppliedAtMostOnce` is the exact condition on the service under which a write is
  applied at most once; `DocumentedWriteOnce` shows that the documented replies meet it, and
  `BareServerErrorIsRepeated` that the undocumented one does not.
- A waiter does not imply an open request row: `SessionWaiting.StrandedExactlyByTimeout` says exactly which
  steps leave somebody waiting on a closed row, `SomebodyIsStranded` is a run that does, and
  `OpenRequestsAreAwaited` is the direction that always holds.
- The comment above `reconstructionPrompt` (`src/services/sessions/manager.ts`) assumes that progress
  comes newest first; `listProgress` returns it oldest first, which is what `ProgressLog.ListingIsTailOfFullLog`
  states.
- The fixed-window limiter admits at most 2 * limit - 1 takes in any interval of a window's length, one
  less than the usual estimate (`RateLimiter.SlidingBound`), and meets that bound for every limit and
  every window of at least two milliseconds (`BoundIsMet`).

## Model

| member | source | states |
|---|---|---|
| Lifecycle.TerminalStatusIsFinal | src/services/sessions/stateMachine.ts:11-31 | along any sequence of legal moves, the first terminal status reached is the last one |
| Lifecycle.StatusGroups | src/services/sessions/stateMachine.ts:63-82 | which statuses are terminal, which expect a worker and which accept an instruction; an interrupted session does |
| Lifecycle.MovesExactly | src/services/sessions/stateMachine.ts:11-31 | every legal move, status by status |
| Lifecycle.RefusalsExactly | src/services/sessions/stateMachine.ts:41-60 | a move is refused as to a finished session exactly from a terminal status, and as illegal exactly when it is neither legal nor that |
| SessionRows.WorkSessionStore.Create | src/services/sessions/sessionStore.ts:159-181 | adds one `starting` row and touches nothing else |
| SessionRows.WorkSessionStore.SetStatus | src/services/sessions/sessionStore.ts:253-320 | check-and-set in one transaction: an illegal move changes nothing and says which refusal it is; a terminal move also drops the session's locks and voids its open requests |
| SessionRows.WorkSessionStore.IncrementTurn | src/services/sessions/sessionStore.ts:342-346 | adds one turn to an existing row and nothing to a missing one |
| SessionRows.WorkSessionStore.CreatePendingRequest | src/services/sessions/sessionStore.ts:422-450 | adds one open request row |
| SessionRows.WorkSessionStore.GetOpenRequest | src/services/sessions/sessionStore.ts:470-478 | one of the session's oldest open requests, or none exactly when there is no open one |
| SessionRows.WorkSessionStore.AnswerPendingRequest | src/services/sessions/sessionStore.ts:488-513 | answers exactly an open row; a missing, answered or voided one is refused and nothing changes |
| SessionRows.WorkSessionStore.VoidOpenRequests | src/services/sessions/sessionStore.ts:516-524 | voids every open row of the session and no other row |
| SessionRows.WorkSessionStore.TryAcquireProjectWriteLock | src/services/sessions/sessionStore.ts:599-611 | takes the lock exactly when neither the project nor the session is in the table; otherwise names the holder and changes nothing |
| SessionRows.WorkSessionStore.ReleaseOrphanedLocks | src/services/sessions/sessionStore.ts:628-638 | drops exactly the locks of finished sessions and returns how many |
| RequestBroker.PendingRequestBroker.Ask | src/services/sessions/pendingRequestBroker.ts:40-69 | one open row, one waiter and one armed timer |
| RequestBroker.PendingRequestBroker.Timeout | src/services/sessions/pendingRequestBroker.ts:51-62 | voids every open row of the session, rejects this ask alone |
| RequestBroker.PendingRequestBroker.Answer | src/services/sessions/pendingRequestBroker.ts:75-84 | the row is answered first; the waiter, if there is one, is resolved with what was stored and its timer cleared; a closed row changes nothing |
| RequestBroker.PendingRequestBroker.AbandonSession | src/services/sessions/pendingRequestBroker.ts:92-105 | the loop rejects exactly the waiters whose row belongs to the session, each once |
| SessionManagement.SessionManager.FailSession | src/services/sessions/manager.ts:886-916 | a live session fails with its locks, requests, waiters and worker in one stretch; a finished or unknown one is left alone |
| SessionManagement.SessionManager.StartSession | src/services/sessions/manager.ts:156-228 | the stretch after resolution takes the Start step, with the outcome of each branch |
| SessionManagement.SessionManager.ClaimProject | src/services/sessions/manager.ts:166-204 | the write lock is taken, or the new session goes to cancelled and the holder is named |
| SessionManagement.SessionManager.Launch | src/services/sessions/manager.ts:207-220 | the worker enters the map before it is started; if it throws, the session fails with it |
| SessionManagement.SessionManager.SendInstruction | src/services/sessions/manager.ts:274-292 | up to the await: suspended on exactly one worker or recovery, or refused |
| SessionManagement.SessionManager.WorkerFor | src/services/sessions/manager.ts:610-650 | the entry in the map, else the recovery in flight, else exactly one new recovery |
| SessionManagement.SessionManager.RebuildWorker | src/services/sessions/manager.ts:651-692 | after the lookup the row is read again: a finished session gets no worker, a failed start leaves no entry |
| SessionManagement.SessionManager.FinishLookup | src/services/sessions/manager.ts:625-692 | the lookup's return takes the LookupDone step |
| SessionManagement.SessionManager.ForgetRecovery | src/services/sessions/manager.ts:610-623 | the settled recovery leaves the map of recoveries |
| SessionManagement.SessionManager.ResumeInstruction | src/services/sessions/manager.ts:294-307 | after the await: a disposed worker makes `send` throw before any row changes |
| SessionManagement.SessionManager.Respond | src/services/sessions/manager.ts:310-331 | the named request, or the oldest open one, is answered; what is delivered is what is stored, denial included; every refusal changes nothing |
| SessionManagement.SessionManager.DeliverAnswer | src/services/sessions/manager.ts:322-331 | an open request is answered and a waiting session goes back to work; a closed one changes nothing |
| SessionManagement.SessionManager.Cancel | src/services/sessions/manager.ts:335-350 | suspended at the interrupt when there is a worker, finished at once otherwise |
| SessionManagement.SessionManager.CancelAfterInterrupt | src/services/sessions/manager.ts:353-354 | the worker is disposed before its entry goes |
| SessionManagement.SessionManager.CancelAfterDispose | src/services/sessions/manager.ts:355-372 | the entry goes and the row is read again: a session that finished meanwhile keeps its status |
| SessionManagement.SessionManager.EndCancel | src/services/sessions/manager.ts:358-372 | cancelled with its requests voided, or reported finished |
| SessionManagement.SessionManager.OnTurnComplete | src/services/sessions/manager.ts:838-873 | a turn ending takes a live session to idle and a finished one nowhere |
| SessionManagement.SessionManager.OnError | src/services/sessions/manager.ts:762 | a worker error fails its own session |
| SessionManagement.SessionManager.OnAsk | src/services/sessions/manager.ts:763-800 | asking moves the status first; if that is refused there is no row, waiter or timer |
| SessionManagement.SessionManager.ClearUnansweredStatus | src/services/sessions/manager.ts:875-884 | only a live session that still claims to be waiting goes back to work |
| SessionManagement.SessionManager.ReapExpiredSessions | src/services/sessions/manager.ts:962-990 | the loop over candidate rows, in any order, fails exactly the unfinished sessions older than their provider's limit, counted from the first start or else from creation, and lists each once |
| SessionManagement.SessionManager.RecoverOnStartup | src/services/sessions/manager.ts:518-543 | the loop interrupts exactly the sessions that expect a worker, voids their requests, drops orphaned locks, and removes and disposes their workers if it is called on a running manager |
| SessionManagement.SessionManager.RestartProcess | src/services/sessions/manager.ts:518-543 | a process restart takes the Restart step |
| SessionManagement.RetireMore | src/services/sessions/manager.ts:886-990 | failing sets of sessions one after the other is failing them together: the order of a sweep does not matter |
| SessionManagement.FailInSteps | src/services/sessions/manager.ts:886-916 | the statements of a failure, in their order, add up to retiring the session |
| SessionSafety.StepInv | src/services/sessions/manager.ts:137-990 | every step of the protocol keeps the invariant relating tables, waiters, workers, recoveries and suspended calls |
| SessionSafety.RunInv | src/services/sessions/manager.ts:137-990 | so every run does |
| SessionTheorems.WriteExclusion | src/services/sessions/manager.ts:156-205 | with enforcement on, in every reachable state a live writing session of a project is exactly its recorded lock holder; never two |
| SessionTheorems.WorkerOwnership | src/services/sessions/manager.ts:207-218 | a started, undisposed worker is the map entry of its own live session: none doubled, none leaked, however sends, recoveries, cancels and sweeps interleave |
| SessionTheorems.TerminalQuiescence | src/services/sessions/sessionStore.ts:264-320 | a finished session holds no lock, open request, waiter, timer or worker, and has its finishing time |
| SessionTheorems.TerminalForever | src/services/sessions/stateMachine.ts:11-31 | and keeps status and finishing time in every continuation |
| SessionTheorems.AskSettlesOnce | src/services/sessions/pendingRequestBroker.ts:36-105 | an ask settles at most once, with the stored answer and denial; no row is both answered and voided; closed rows and settlements never change |
| SessionTheorems.TimeoutStrandsTheOthers | src/services/sessions/pendingRequestBroker.ts:52-54 | a timeout leaves a waiter on a closed row if and only if another ask of the session was waiting |
| SessionTheorems.SendIsNeverRefused | src/services/sessions/manager.ts:292-303 | a send that reaches its worker finds the session live, so the status change behind it is legal |
| SessionTheorems.ReaperCompleteness | src/services/sessions/manager.ts:962-990 | a sweep fails exactly the unfinished sessions whose age, from first start or else creation, exceeds their provider's limit, by a legal move each; every other row is unchanged, and the locks left are those of live sessions within their limit |
| SessionTheorems.RestartKeepsLocks | src/services/sessions/manager.ts:518-543 | a restart ends no session: every lock and its live holder survive, and no session expects a worker |
| SessionTheorems.RunKeeps | src/services/sessions/sessionStore.ts:264-320 | over any continuation finished sessions, closed requests and settlements stay as they are |
| SessionTheorems.ColumnsForever | src/services/sessions/sessionStore.ts:253-346 | over any continuation a session keeps its provider, project, mode and times once set, and its turn count never falls |
| SessionWaiting.StepWaits | src/services/sessions/manager.ts:137-990 | every step keeps a waiter on every open request, and every step but a timeout keeps every waiter on an open one |
| SessionWaiting.OpenRequestsAreAwaited | src/services/sessions/pendingRequestBroker.ts:25-69 | in every reachable state an open request has a waiter, an armed timer, no settlement yet and a live session |
| SessionWaiting.AnswersReachTheWorker | src/services/sessions/pendingRequestBroker.ts:75-84 | an answer to an open request resolves its ask, once, with what is stored; an answer to a closed one changes nothing |
| SessionWaiting.StrandedExactlyByTimeout | src/services/sessions/pendingRequestBroker.ts:52-54 | a step leaves somebody waiting on a closed row if and only if it is the timeout of an ask whose session has another one waiting |
| SessionWaiting.SomebodyIsStranded | src/services/sessions/pendingRequestBroker.ts:52-54 | a run that leaves somebody waiting on a closed row |
| SessionOutcomes.StartExactly | src/services/sessions/manager.ts:137-228 | a start is declined exactly for Codex while that is off, cancelled exactly when it would write under an enforced lock that is held, failed exactly when its worker does not start, and otherwise works with its lock and worker |
| SessionOutcomes.SendExactly | src/services/sessions/manager.ts:274-292 | an instruction is taken exactly by a session neither finished nor starting, and waits for its worker, the recovery under way or a new one; that one is refused exactly past the limit, or for want of provider or worker |
| SessionOutcomes.LookupExactly | src/services/sessions/manager.ts:651-692 | after the project lookup the recovery is refused exactly if the session has finished, its provider is off or no worker starts |
| SessionOutcomes.ResumeExactly | src/services/sessions/manager.ts:294-307 | the instruction goes through exactly with a running worker; then one turn is counted and the session works, unless it did when the instruction began |
| SessionOutcomes.AskExactly | src/services/sessions/manager.ts:763-800 | a question is taken exactly from a session working, idle or waiting likewise; it then needs input, or awaits approval, for one new open row |
| SessionOutcomes.AnswerRefusedExactly | src/services/sessions/manager.ts:310-321 | an answer to a request of another session, a closed one, or unnamed one that is not the oldest open, changes nothing |
| SessionOutcomes.AnswerMovesExactly | src/services/sessions/manager.ts:322-331 | any other answer is stored in that row, and takes a waiting session back to work and no other |
| SessionOutcomes.WorkerEndsExactly | src/services/sessions/manager.ts:838-873 | the end of a turn leaves an unfinished session idle and an error leaves it failed; a finished one stays as it is |
| SessionOutcomes.CancelBeginsExactly | src/services/sessions/manager.ts:335-350 | a finished session is left alone, one with a worker is unchanged while the worker is interrupted, one without is cancelled at once |
| SessionOutcomes.CancelDisposesExactly | src/services/sessions/manager.ts:353-354 | between interrupt and removal the worker is disposed and nothing else has changed |
| SessionOutcomes.CancelEndsExactly | src/services/sessions/manager.ts:355-372 | then the entry goes, and the session is cancelled unless it finished meanwhile |
| SessionOutcomes.ClearExactly | src/services/sessions/manager.ts:875-884 | after a rejected ask the session works again exactly if it still claims to wait |
| SessionOutcomes.RestartExactly | src/services/sessions/manager.ts:518-543 | a restart interrupts every unfinished session, and no worker, call, waiter or timer survives it |
| SessionOutcomes.TimeoutExactly | src/services/sessions/pendingRequestBroker.ts:51-62 | a timeout voids exactly the open rows of its session and rejects exactly its own ask |
| SessionOutcomes.FailureExactly | src/services/sessions/manager.ts:886-916 | a failing session loses its locks, map entry, open requests and waiters, its worker is disposed, and nothing of any other session changes |
| OAuthRows.OAuthStore.IssueAuthorizationCode | src/security/oauth/store.ts:144-174 | adds one unspent code |
| OAuthRows.OAuthStore.ConsumeAuthorizationCode | src/security/oauth/store.ts:182-227 | hands out exactly an unspent, unexpired code and makes it unredeemable at every later time |
| OAuthRows.OAuthStore.IssueToken | src/security/oauth/store.ts:231-262 | adds one unrevoked, unrotated token with its expiry |
| OAuthRows.OAuthStore.LookupToken | src/security/oauth/store.ts:265-290 | finds exactly the unrevoked, unexpired token of the kind asked for |
| OAuthRows.OAuthStore.RotateRefreshToken | src/security/oauth/store.ts:296-320 | a usable token gets exactly one successor, is revoked and linked to it; any other changes nothing |
| OAuthRows.OAuthStore.ClassifyRefreshReplay | src/security/oauth/store.ts:342-407 | no row, no replay; a row that no rotation replaced is unrelated; a replay within the grace is a retry and changes nothing; a later one is theft and revokes what its chain reaches |
| OAuthRows.OAuthStore.RevokeLink | src/security/oauth/store.ts:382-402 | one link: its row and its access tokens, with the number of rows changed |
| OAuthRows.OAuthStore.RevokeRotationChain | src/security/oauth/store.ts:367-407 | on any table, cyclic or not, the walk ends, revokes exactly the reachable rows and their access tokens, counts the rows it changed and reports a cut exactly when a link leads to a missing row |
| OAuthRows.WalkDone | src/security/oauth/store.ts:367-407 | when the walk stops it has passed everything reachable |
| OAuthRows.OAuthStore.RevokeToken | src/security/oauth/store.ts:409-412 | revokes one token once |
| OAuthRows.OAuthStore.RevokeClientTokens | src/security/oauth/store.ts:415-419 | revokes exactly the client's unrevoked tokens and counts them |
| OAuthRows.OAuthStore.PruneExpired | src/security/oauth/store.ts:432-437 | removes exactly what has expired |
| OAuthServer.AuthorizationServer.PrunePending | src/security/oauth/server.ts:172-175 | removes exactly the expired consents |
| OAuthServer.AuthorizationServer.GetAuthorize | src/security/oauth/server.ts:290-405 | a consent page exactly for an acceptable request, offering what is stored for it |
| OAuthServer.AuthorizationServer.PostAuthorize | src/security/oauth/server.ts:407-484 | a code exactly for a live, approved, authenticated consent, with a scope it offered; every other branch as the code has it |
| OAuthServer.AuthorizationServer.RedeemCode | src/security/oauth/server.ts:491-538 | a pair is issued exactly for an unspent, unexpired code with its client, redirect address and a verifier of 43 to 128 characters whose digest is the S256 challenge; the code is spent either way |
| OAuthServer.AuthorizationServer.RefreshGrant | src/security/oauth/server.ts:540-579 | a pair is issued exactly for a stored, unrevoked, unexpired refresh token; a refusal takes the theft path when the replay is late |
| OAuthSafety.StepInv | src/security/oauth/server.ts:290-612 | every step keeps the invariant over consents, codes, families and links |
| OAuthSafety.RunInv | src/security/oauth/server.ts:290-612 | so every run does |
| OAuthTheorems.OneLiveRefreshPerFamily | src/security/oauth/store.ts:296-320 | a family never has two unrevoked refresh tokens; the one it has is its newest |
| OAuthTheorems.ChainsAreDisjointPaths | src/security/oauth/store.ts:296-320 | rotation links form disjoint acyclic paths and a rotated token is revoked |
| OAuthTheorems.ColumnsAreWriteOnce | src/security/oauth/store.ts:231-437 | revocation time, successor and spent mark are write-once, other columns constant, a removed secret never returns |
| OAuthTheorems.NoCutChains | src/security/oauth/store.ts:378-437 | while the refresh lifetime is never lowered, expiry grows along every chain, pruning removes only prefixes and no walk from a stored row is cut |
| OAuthTheorems.RotationCanBeCut | src/security/oauth/store.ts:378-385 | pruning can cut a rotation if and only if the successor expires before the token it replaces |
| OAuthTheorems.LoweredLifetimeCuts | src/security/oauth/store.ts:378-437 | wherever a grant can be made, lowering the lifetime, rotating and pruning reaches a stored token whose chain is cut |
| OAuthTheorems.TheftEndsTheFamily | src/security/oauth/store.ts:342-407 | in any run: after a theft verdict whose walk reports no cut, no refresh token of the family and no access token of the replayed link or a later one is live; other families are untouched |
| OAuthTheorems.TheftEndsTheFamilyUnlessLowered | src/security/oauth/store.ts:342-407 | in a run that never lowers the refresh lifetime every theft verdict is of that kind |
| OAuthTheorems.GrantProvenance | src/security/oauth/server.ts:437-612 | every token ever issued traces to one code and one consent whose request allowed its scope, and carries this server's audience |
| OAuthTheorems.OneCodeOneFamily | src/security/oauth/store.ts:182-227 | a consent yields at most one code, a code at most one family |
| OAuthTheorems.OptionsExactly | src/security/oauth/server.ts:359-382 | which scopes an approver may choose from: never one that is not grantable, full access only if asked for or nothing was named |
| OAuthTheorems.BoardStaysBoard | src/security/oauth/server.ts:359-395 | a request naming scopes but not full access never leads to a full-access token, in any run |
| OAuthTheorems.RedeemIsBound | src/security/oauth/server.ts:491-538 | a redemption issues tokens exactly for an unspent code with the client and redirect address of its consent and a verifier whose digest is its challenge, and afterwards the code is unredeemable either way |
| OAuthOutcomes.AuthorizeExactly | src/security/oauth/server.ts:290-400 | a consent is opened exactly for a registered redirect address, response type, S256 challenge, this resource and grantable scopes; it keeps the request, lasts ten minutes, and only expired ones go |
| OAuthOutcomes.ApproveExactly | src/security/oauth/server.ts:407-470 | a form yields a code exactly for an open consent, unthrottled, approved, with the password and no scope or an offered one |
| OAuthOutcomes.ApprovedCode | src/security/oauth/server.ts:437-484 | the code carries the request, the chosen scope or else the widest offered, and its lifetime; the consent is used up |
| OAuthOutcomes.ConsentsExactly | src/security/oauth/server.ts:407-466 | a consent outlives its form exactly when that is throttled, or approves an offered scope with a wrong password |
| OAuthOutcomes.CodesAreBound | src/security/oauth/server.ts:290-484 | in every reachable state a code is bound to a registered redirect address and an S256 challenge |
| OAuthOutcomes.RedeemExactly | src/security/oauth/tokens.ts:38-43 | in every reachable state, a refresh token is issued exactly for an unspent, unexpired code with client, redirect address, method S256 and a verifier of legal length whose digest is the challenge, all of the request consented to |
| OAuthOutcomes.RedeemLeaves | src/security/oauth/server.ts:491-538 | what an exchange leaves: the code spent, and a pair of the consent's client, audience, scope and the configured lifetimes |
| OAuthOutcomes.RenewIssues | src/security/oauth/server.ts:540-579 | a refresh revokes the token, links it to its successor, and issues the same grant for new lifetimes |
| OAuthOutcomes.RefusedRefreshExactly | src/security/oauth/store.ts:342-365 | a refused refresh changes nothing unless the token was replaced longer ago than the grace; then it revokes exactly what the chain from it reaches, and the access tokens of that |
| OAuthOutcomes.LateReplayEndsTheFamily | src/security/oauth/store.ts:342-407 | over all runs: after a replay later than the grace, of a chain not cut, no refresh token of the family is live and other families are untouched |
| OAuthOutcomes.EarlyReplayChangesNothing | src/security/oauth/store.ts:355-362 | a replay within the grace changes no token |
| OAuthOutcomes.UnreplacedRefusalChangesNothing | src/security/oauth/store.ts:342-354 | nor does a token revoked without a successor, or merely expired |
| OAuthOutcomes.RevokeExactly | src/security/oauth/store.ts:409-419 | revoking a token or a client marks exactly the rows meant that were not marked |
| OAuthOutcomes.PruneExactly | src/security/oauth/store.ts:432-437 | pruning removes exactly the expired rows |
| FailoverClient.AgentcoordClient.Begin | src/services/board/agentcoord-client.ts:183-207 | which calls are refused before any post; otherwise whether the call is a write, the epoch of a leader seen within the hour or zero, and the queue: that leader if configured, then every node in order |
| FailoverClient.AgentcoordClient.Deliver | src/services/board/agentcoord-client.ts:213-273 | the nested loops end on every script and make exactly the posts of `Walk` with its verdict, which `FailoverOutcomes.WalkExactly` and `VerdictExactly` state by the replies |
| FailoverClient.AgentcoordClient.Remember | src/services/board/agentcoord-client.ts:137-142 | only a configured node becomes the leader; a fresh epoch is never lowered |
| FailoverClient.AgentcoordClient.Settle | src/services/board/agentcoord-client.ts:238-280 | an answered call of a configured node makes it the leader with the greater of its epoch and a fresh earlier one; a call nobody answered marks the nodes down; nothing else changes |
| FailoverClient.Redirect | src/services/board/agentcoord-client.ts:128-135 | a redirect leads to a configured node or nowhere |
| FailoverClient.EachNodeOnce | src/services/board/agentcoord-client.ts:213-225 | posts go to configured nodes only, each name is visited at most once, with at most busyRetries + 1 consecutive posts, at most names * (busyRetries + 1) in all |
| FailoverClient.StopsAtFinalOutcome | src/services/board/agentcoord-client.ts:226-273 | a further post follows only an outcome that lets the call go on; the call ends at the first that does not, or cancelled, or out of nodes |
| FailoverClient.GivesUpLast | src/services/board/agentcoord-client.ts:219-280 | a call gives up only after every queued node name was posted to |
| FailoverClient.OneNameOneVisit | src/services/board/agentcoord-client.ts:219-266 | with one node name, only a busy reply leads to a second post |
| FailoverClient.LeaderIsNext | src/services/board/agentcoord-client.ts:245-253 | a "not leader" reply naming a configured, untried node is followed by a post to it |
| FailoverClient.WriteAppliedAtMostOnce | src/services/board/agentcoord-client.ts:14-18 | for any service: every write is applied at most once if and only if the service never applies one and then shows an outcome after which the client can post again |
| FailoverClient.DocumentedWriteOnce | src/services/board/agentcoord-client.ts:10-18 | the documented replies meet that condition; only the last post can have been applied |
| FailoverClient.BareServerErrorIsRepeated | src/services/board/agentcoord-client.ts:267-271 | a server error without an error object does not: two distinct nodes are both posted to |
| FailoverClient.LeaderIsConfigured | src/services/board/agentcoord-client.ts:137-142 | after any interleaving of calls the cached leader is a configured node |
| FailoverClient.EpochFloor | src/services/board/agentcoord-client.ts:137-142 | a call requires at least every epoch a configured node answered for within the last hour |
| FailoverClient.EpochWasLearnt | src/services/board/agentcoord-client.ts:137-142 | and never an epoch that none answered for |
| FailoverClient.SkippedExactlyAfterSilence | src/services/board/agentcoord-client.ts:188-191 | the network is skipped exactly while some call that found no node answering is recent enough |
| FailoverOutcomes.WalkExactly | src/services/board/agentcoord-client.ts:213-280 | every post of every call is the one the replies so far lead to: the same node after a request to wait while its retries last, else an untried leader it was told of, else the first untried node of the queue; the call ends when its last reply decides it, cancelled with a post still to make, or with none left |
| FailoverOutcomes.VerdictExactly | src/services/board/agentcoord-client.ts:226-273 | the verdict by the last reply: done exactly on status 200 with ok, refused exactly on another reply with an error object, unknown exactly for a write that was lost, each with its reply and name |
| FailoverOutcomes.RedirectMeaning | src/services/board/agentcoord-client.ts:128-135 | only on "not leader": the first node of the name given or, if there is none, at the address given |
| FailoverOutcomes.NormaliseUrlMeaning | src/services/board/http-board-client.ts:100-102 | the address without its trailing slashes, and nothing else |
| FailoverOutcomes.WritesAreTheseOps | src/services/board/agentcoord-client.ts:28-59 | which of the operations are writes |
| EditDistance.Levenshtein | src/context/text.ts:46-62 | the two-row loop computes the recursive distance |
| EditDistance.DistanceBounds | src/context/text.ts:46-62 | the distance lies between the difference of the lengths and the longer one |
| EditDistance.ZeroOnlyIfEqual | src/context/text.ts:46-62 | zero exactly for equal texts |
| EditDistance.Symmetric | src/context/text.ts:46-62 | symmetric |
| EditDistance.Triangle | src/context/text.ts:46-62 | triangle inequality |
| EditDistance.DistanceIsMinimum | src/context/text.ts:46-62 | the least number of single-character insertions, deletions and replacements: some sequence is that short and none is shorter |
| EditDistance.SimilarityIsAScore | src/context/text.ts:65-72 | similarity is symmetric, in [0, 1], and 1 exactly for equal non-empty normal forms |
| EditDistance.SimilarityExactly | src/context/text.ts:65-72 | nothing for an empty normal form; otherwise the distance is the dissimilarity times the longer length |
| ContextBudget.TrimFits | src/context/text.ts:5-16 | a trimmed text costs at most what was asked for |
| ContextBudget.TrimCutsAPrefix | src/context/text.ts:9-16 | whole exactly when it fits, nothing for no tokens; otherwise a prefix and an ellipsis, up to the last line break with room for the ellipsis if that is beyond 55%, and else up to the last character with room |
| ContextBudget.FitSection | src/context/assembler.ts:382-405 | the loop computes the specification `Fit` |
| ContextBudget.FitMeaning | src/context/assembler.ts:382-405 | kept exactly when title and all but the last required line cost less than the budget; then a prefix with at most its last line trimmed, with its required lines, within budget and the longest possible |
| ContextBudget.Assemble | src/context/assembler.ts:110-163 | the budget loop and the text after it compute the specification `Pack` |
| ContextBudget.EverySectionAccountedFor | src/context/assembler.ts:119-138 | every section is either retained or reported as dropped, never both |
| ContextBudget.PackBound | src/context/assembler.ts:119-138 | the tokens counted are those of the retained sections, and only the last of them can overrun |
| ContextBudget.BodyBound | src/context/assembler.ts:119-151 | the body is at most the section budget, a quarter of the last section's lines and half the separators, each rounded up |
| ContextBudget.TextBound | src/context/assembler.ts:110-163 | the same for the whole text with the notice of missing context |
| BudgetMeaning.RequiredExactly | src/context/assembler.ts:382-383 | how many lines a section must show |
| BudgetMeaning.SectionBudgetExactly | src/context/assembler.ts:117 | the sections' budget is what the notice of missing context leaves, and at least one token |
| BudgetMeaning.TurnExactly | src/context/assembler.ts:119-138 | a section is retained exactly when all but the last of its required lines leave room, and what is reported of it |
| BudgetMeaning.PackSplits | src/context/assembler.ts:119-138 | sections are packed in the order given: what comes later never changes what came before |
| BudgetMeaning.TextReads | src/context/assembler.ts:28-30 | read back line by line, the text is the retained sections in order, title before lines, a blank line between them, and the notice of missing context last |
| ContextOverrun.RenderWithin | src/context/assembler.ts:28-30 | a rendered section is within a budget exactly when its line breaks fit what its estimates leave over and the slack of their rounding |
| ContextOverrun.FitIsShown | src/context/assembler.ts:382-405 | what a fitted section shows, from the section and the budget alone, and exactly when there is one |
| ContextOverrun.FitWithinExactly | src/context/assembler.ts:382-405 | exactly when a section fitted into a budget comes out within it, in terms of the section and the budget |
| ContextOverrun.LooseNeverOverruns | src/context/assembler.ts:382-405 | a section none of whose lines has a positive length divisible by four never overruns unless a line is trimmed, and never at all if its title has none either |
| ContextOverrun.TextWithinExactly | src/context/assembler.ts:110-163 | exactly when the assembled text, notice of missing context included, is within the budget: its separators fit what the parts leave over and their slack |
| ContextOverrun.KeptAllExactly | src/context/assembler.ts:119-138 | all sections are kept as they are exactly when they fit whole one after the other |
| ContextOverrun.WholeTextWithinExactly | src/context/assembler.ts:110-163 | for such sections the exact condition on the input alone |
| ContextOverrun.BudgetIsExceeded | src/context/assembler.ts:119-151 | for every number of lines the bound on the overrun is attained |
| ContextOverrun.UnreportedCut | src/context/assembler.ts:131-137 | from the entry and the remaining budget, exactly when a section is cut without a warning; it loses at most three characters |
| ContextOverrun.CutWithoutWarning | src/context/assembler.ts:131-137 | an input for which that happens |
| BoundedPool.WorkerPool.constructor | src/context/assembler.ts:255-268 | the output is allocated and the workers launched, each claiming in turn |
| BoundedPool.WorkerPool.EndTask | src/context/assembler.ts:259-266 | a finished task stores its own result and its worker claims again |
| BoundedPool.RunInv | src/context/assembler.ts:255-269 | for every schedule, a claimed task has its result stored or exactly one worker |
| BoundedPool.ClaimedOnce | src/context/assembler.ts:258-264 | tasks are claimed in order, each once, exactly those below the counter |
| BoundedPool.BoundedAndBusy | src/context/assembler.ts:255-269 | never more than the bound run together, and exactly that many while unclaimed tasks remain |
| BoundedPool.CompletesWithEveryResult | src/context/assembler.ts:255-269 | once nothing runs: all workers returned exactly when all tasks were fulfilled, and then output[i] is task i's result |
| BoundedPool.OneEndPerTask | src/context/assembler.ts:255-269 | every claimed task ends once |
| RateLimiter.IdentityRateLimiter.Take | src/services/board/board-service.ts:43-57 | the answer and the new map, pruning included |
| RateLimiter.IdentityRateLimiter.Prune | src/services/board/board-service.ts:48 | the loop removes exactly the windows that have ended |
| RateLimiter.GrantedExactly | src/services/board/board-service.ts:43-57 | a take is granted exactly in an open window not used up or, without one, when fewer than ten thousand keys have one; it is counted or opens a window, and no other key's open window changes |
| RateLimiter.RunExplained | src/services/board/board-service.ts:33-58 | what the map says of a key agrees with the takes granted so far, pruned or not |
| RateLimiter.WindowBound | src/services/board/board-service.ts:33-58 | at most limit takes from the opening of a window to its end |
| RateLimiter.SlidingBound | src/services/board/board-service.ts:33-58 | at most 2 * limit - 1 takes in any half-open interval of a window's length, for every run with a non-decreasing clock |
| RateLimiter.BoundIsMet | src/services/board/board-service.ts:33-58 | for every limit and every window of at least two milliseconds some run meets that bound |
| RateLimiter.MapIsBounded | src/services/board/board-service.ts:33-58 | the map never exceeds ten thousand windows |
| RateLimiter.RefusedForCause | src/services/board/board-service.ts:43-57 | a refusal means limit recent takes of this key, or ten thousand keys each with one |
| ProgressLog.ProgressStore.AppendProgress | src/services/sessions/sessionStore.ts:358-392 | insert under the next shared id, then trim this session only |
| ProgressLog.ProgressStore.ListProgress | src/services/sessions/sessionStore.ts:394-418 | the newest rows up to the limit, oldest first |
| ProgressLog.RunIsFaithful | src/services/sessions/sessionStore.ts:358-392 | for every interleaving of appends the stored ids are the newest the session ever got |
| ProgressLog.ListingIsTailOfFullLog | src/services/sessions/sessionStore.ts:358-418 | a listing is the last min(limit, stored) events of the session's full history, in order |
| ProgressLog.StoredIsTailOfFullLog | src/services/sessions/sessionStore.ts:358-392 | what is stored is the last maxProgressEvents of it |
| Matching.ProjectMatcher.constructor | src/services/projects/matching.ts:159-174 | the loops build the specified index |
| Matching.ProjectMatcher.CoverageOf | src/services/projects/matching.ts:224-235 | the accumulating loop computes `Coverage`, which `MatchingMeaning.NothingCovered`, `AllCovered` and `CoverageGrows` state by the words |
| Matching.ProjectMatcher.Score | src/services/projects/matching.ts:207-222 | the loop over labels computes the score that `MatchingMeaning.ScoreIsTheBest` determines |
| Matching.PenaltyMeaning | src/services/projects/matching.ts:184-197 | a query is not penalised exactly when at least half of its words are known to some project, scores nothing by coverage exactly when it has words and none is known, and is scaled by twice the known share in between |
| Matching.BuildCounts | src/services/projects/matching.ts:159-174 | the index counts, for every token, the projects that name it |
| Matching.BuildIndexes | src/services/projects/matching.ts:159-174 | and holds each project's own labels, for distinct ids |
| Matching.BuildIgnoresOrder | src/services/projects/matching.ts:159-174 | the index does not depend on the order of the projects |
| Matching.CoverageIsUnit | src/services/projects/matching.ts:224-248 | coverage lies in [0, 1] |
| Matching.ScoreIsUnit | src/services/projects/matching.ts:207-222 | every score lies in [0, 1] |
| MatchingMeaning.NothingCovered | src/services/projects/matching.ts:224-235 | coverage is 0 when no word of the query resembles a token of the label |
| MatchingMeaning.AllCovered | src/services/projects/matching.ts:224-235 | it is the specificity of the whole mass when every word does |
| MatchingMeaning.CoverageGrows | src/services/projects/matching.ts:224-235 | and never falls when the label gains tokens |
| MatchingMeaning.SpecificityMeaning | src/services/projects/matching.ts:237-248 | the mass of a word that three projects name is fully specific, less counts in proportion, and nothing does without projects |
| MatchingMeaning.RarerWeighsMore | src/services/projects/matching.ts:176-178 | the more projects name a word, the less it weighs |
| MatchingMeaning.ScoreIsTheBest | src/services/projects/matching.ts:207-222 | the score is the least bound on what each label gives, by text and by words, and on what the words of all labels give together |
| MatchingMeaning.CoveredScore | src/services/projects/matching.ts:207-222 | a project one of whose labels covers an unpenalised query scores at least that label's weight times the specificity of the query |
| MatchingMeaning.UncoveredScore | src/services/projects/matching.ts:207-222 | a project no token of which resembles a word of the query scores exactly what its most similar label gives |
| MatchingMeaning.RareWordScore | src/services/projects/matching.ts:237-248 | one word that at most three projects name gives a label it is covered by its whole weight |
| MatchingMeaning.ResemblesExactly | src/services/projects/matching.ts:100-109 | when two words resemble each other, by equality, prefix, length and edit distance |
| MatchingMeaning.LabelsExactly | src/services/projects/matching.ts:82-93 | exactly which strings name a project, each with its weight |
| MatchingMeaning.SplitExactly | src/services/projects/matching.ts:65-69 | splitting at spaces is the inverse of joining with them |
| MatchingMeaning.ContentTokensExactly | src/services/projects/matching.ts:65-69 | the informative words of a text |
| MatchingMeaning.QueryWordsExactly | src/services/projects/matching.ts:184-197 | the first 24 informative words of a query, each once |
| MatchingMeaning.PreparedExactly | src/services/projects/matching.ts:184-197 | preparing drops the words that no label of any project resembles, unless there are no others |
| MatchingMeaning.VocabularyExactly | src/services/projects/matching.ts:159-174 | the vocabulary is the tokens of all labels of all projects |
| Matching.SortedSorts | src/services/projects/project-registry.ts:340-348 | the ranking is a descending permutation of the entries |
| Matching.ResolveMeaning | src/services/projects/project-registry.ts:329-362 | the answer in terms of the scored entries, whatever their order: the only exact one, else the clear winner, else up to five near ones, else nothing |
| Matching.MatchIsSound | src/services/projects/project-registry.ts:349-359 | a match is a listed project on the computer asked for: the only exact one, or at or above the floor and ahead of every other by the gap |
| Matching.ResolveIgnoresOrder | src/services/projects/project-registry.ts:329-362 | for every permutation of the list, the same kind of answer and the same matched project |
| Matching.ExactExactly | src/services/projects/project-registry.ts:340-344 | which projects a query names exactly |
| MatchingMeaning.SortedIsStable | src/services/projects/project-registry.ts:340-348 | projects of the same score stay in the order they are listed |
| MatchingMeaning.MatchExactly | src/services/projects/project-registry.ts:329-359 | a project is matched if and only if it is the only one named exactly or, when none is, scores at least 0.78 and 0.16 more than every other |
| MatchingMeaning.NotFoundExactly | src/services/projects/project-registry.ts:360-361 | nothing is found if and only if none is named exactly and all score below 0.55 |
| MatchingMeaning.OfferedBest | src/services/projects/project-registry.ts:349-362 | without an exact name, what is offered is in order of score, at or above 0.55, and leaves out nothing better |
| MatchingMeaning.RareWordMatches | src/services/projects/project-registry.ts:329-362 | a one-word query finds the project one of whose names it resembles, when at most three projects name the word and no other is near |

## Left out

- Workers: the SDK and child processes behind them. A worker is a pair of flags, started and disposed; its callbacks may fire at any time once it was started.
- HTTP, Express, consent HTML, request parsing, logging, SQLite itself, Tailscale, Mem0, Git and file scanning.
- `src/security/permissions.ts`, redaction and path checks: what they do is in regular expressions and in path resolution of the platform.
- `src/services/board/http-board-client.ts`: the older client has the same loop; only the distinction between a failure before and after sending is used, as part of the script.
- `SessionManager.shutdown`: the last step of a run, after which nothing is claimed.
- Session summaries, steps, void reasons, artifacts, active context, recovery counts and notes, and the worker's own session id: columns and calls that no decision modelled here reads. Progress rows are modelled on their own in `ProgressLog`.
- Resolution of the computer and the project of a new session: done before the modelled stretch; its result is a parameter.
- `recoverOnStartup` on a running manager: its method is specified for that, but the protocol calls it only after a restart, as the application does.
- Restarts happen between steps: a crash between the insert of a session row and the insert of its lock, two statements of one stretch, is not modelled.
- The session protocol lets an unanswered ask clear the waiting status more than once; the code does it once per ask, so its runs are among those proved about.
- Timestamps are integers; an unparseable one is not modelled.
- Hashing is injective and secrets are new: a token is named by its hash, and a step that would reuse one changes nothing.
- `canonicalResource`: a parameter. The OAuth theorems assume that the configured resource is in canonical form (`CanonicalConfig`).
- Client registration: a fixed map of registered redirect addresses. Password check and throttle are inputs of the consent form.
- Failure labels and texts of errors in `FailoverClient`: the verdict of a call carries the reply, not its rendering.
- Texts are sequences of characters; the source counts UTF-16 units, so a text outside the basic plane has more of them.
- `normalizeLookup` and the stop-word list: parameters, as is the logarithm, of which only monotonicity and sign are assumed.
- Scores and the 55% rule of trimming use exact reals in place of floating point.
- The order in which providers' sections are sorted before the budget loop, the section cache and provider timeouts: the loop is proved for every order.
- Matching.ResolveIgnoresOrder: says nothing of which candidates are offered, because a stable sort with ties cuts the list at five in list order; it needs distinct ids, which are hashes of distinct paths.
- SessionTheorems.WorkerOwnership: claims nothing after `shutdown`, which clears the map after awaiting.
