/**
 * What each step makes of the sessions it concerns, said in terms of the stored rows themselves: which
 * status they end in, what they count, and when they are refused.
 */
module SessionOutcomes {
  import opened Options
  import opened Lifecycle
  import opened SessionRows
  import opened RequestBroker
  import opened SessionProtocol
  import opened SessionSafety
  import opened SessionTheorems
  import opened SessionWaiting

  /** How long a session has lasted: since its first start or, before that, since it was created. */
  function AgeOf(row: SessionRow, now: Time): int {
    match row.startedAt
    case Some(t) => now - t
    case None => now - row.createdAt
  }

  lemma PastCapIsAge(cfg: Config, row: SessionRow, now: Time)
    ensures PastCap(cfg, row, now)
        <==> AgeOf(row, now) > (if row.provider == Codex then cfg.codexCap else cfg.claudeCap)
  {
  }

  /** The effect of a move to a status that does not end the session: nothing at all if it is not legal. */
  lemma MoveEffect(db: Db, s: SessionId, next: Status, now: Time)
    requires s in db.sessions && next !in {Completed, Failed, Cancelled}
    ensures var row := db.sessions[s];
            var legal := CanTransition(row.status, next);
            && (ChangeStatus(db, s, next, now).Updated? <==> legal)
            && AfterChange(db, s, next, now)
               == if !legal then db
                  else db.(sessions := db.sessions[s :=
                         row.(status := next,
                              startedAt := if next == Working && row.startedAt == None then Some(now)
                                  else row.startedAt)])
  {
    hide CanTransition, VoidOpen, DropLocks;
  }

  /** A session that has not finished can always fail or be cancelled; one that has cannot. */
  lemma EndEffect(db: Db, s: SessionId, next: Status, now: Time)
    requires s in db.sessions && next in {Failed, Cancelled}
    ensures var after := AfterChange(db, s, next, now);
            && s in after.sessions
            && after.sessions[s].status
               == (if db.sessions[s].status in {Completed, Failed, Cancelled} then db.sessions[s].status else next)
  {
    hide VoidOpen, DropLocks;
  }

  // ---------------------------------------------------------------- starting

  /** How a start ends when its session and worker are new. */
  datatype StartEnd = Declined | Busy | Broke | Running

  /**
   * A start is declined exactly when it asks for Codex and that is off; it is turned away exactly when
   * it may write to a project whose lock, being enforced, is held; and it fails exactly when its worker
   * does not start. Otherwise the session works from now on, with its lock and its worker.
   */
  lemma StartExactly(cfg: Config, st: State, step: Step, end: StartEnd)
    requires Inv(cfg, st) && step.Start? && step.session !in st.db.sessions && step.worker !in st.processes
    requires var locking := step.mode == Work && step.project.Some? && cfg.enforceLock;
             end == (if step.provider == Codex && !cfg.codexEnabled then Declined
                     else if locking && step.project.value in st.db.locks then Busy
                     else if step.spawn.SpawnThrows? then Broke else Running)
    ensures var s, after := step.session, Next(cfg, st, step);
            var row := SessionRow(step.provider, step.project, step.mode == Work, Starting, step.now, None, None, 0);
            match end
            case Declined => after == st
            case Busy => after.db.sessions
                == st.db.sessions[s := row.(status := Cancelled, finishedAt := Some(step.now))]
                         && after.db.locks == st.db.locks && s !in after.workers
            case Broke => after.db.sessions == st.db.sessions[s := row.(status := Failed, finishedAt := Some(step.now))]
                          && after.db.locks == st.db.locks && s !in after.workers
            case Running =>
              && after.db.sessions == st.db.sessions[s := row.(status := Working, startedAt := Some(step.now))]
              && after.db.locks
                 == (if step.mode == Work && step.project.Some? && cfg.enforceLock
                     then st.db.locks[step.project.value := s] else st.db.locks)
              && s in after.workers && after.workers[s] == step.worker && Runs(after, step.worker)
  {
    NoTraceOf(cfg, st, step.session, step.now);
    hide Inv, StartSession, VoidOpen, AbandonDesk, WithStatus, StartLocks, Runs;
    if end == Declined {
      DeclinedStart(cfg, st, step);
    } else if end == Busy {
      StartRefusedShape(cfg, st, step);
      EndedRow(step, Cancelled);
    } else if end == Broke {
      StartFailedShape(cfg, st, step);
      EndedRow(step, Failed);
    } else {
      RunningStart(cfg, st, step);
    }
  }

  lemma RunningStart(cfg: Config, st: State, step: Step)
    requires step.Start? && CanStart(cfg, st, step) && LockGranted(cfg, st, step) && step.spawn.SpawnOk?
    ensures var s, after := step.session, StartSession(cfg, st, step);
            var row := SessionRow(step.provider, step.project, step.mode == Work, Starting, step.now, None, None, 0);
            && after.db.sessions == st.db.sessions[s := row.(status := Working, startedAt := Some(step.now))]
            && after.db.locks
               == (if step.mode == Work && step.project.Some? && cfg.enforceLock
                   then st.db.locks[step.project.value := s] else st.db.locks)
            && s in after.workers && after.workers[s] == step.worker && Runs(after, step.worker)
  {
    StartWorkingShape(cfg, st, step);
    hide StartSession, CanStart, LockGranted;
  }

  lemma EndedRow(step: Step, end: Status)
    requires step.Start? && end in {Failed, Cancelled}
    ensures WithStatus(StartRow(step), end, step.now)
         == SessionRow(step.provider, step.project, step.mode == Work, end, step.now, None, Some(step.now), 0)
  {
  }

  predicate Runs(st: State, w: WorkerId) {
    w in st.processes && st.processes[w].started && !st.processes[w].disposed
  }

  lemma DeclinedStart(cfg: Config, st: State, step: Step)
    requires step.Start? && step.provider == Codex && !cfg.codexEnabled
    ensures StartSession(cfg, st, step) == st
  {
  }

  // ---------------------------------------------------------------- instructions

  /**
   * An instruction is taken exactly by a session that is neither finished nor still starting. Without a
   * worker or a recovery under way it begins one, which is refused at once exactly when the session has
   * lasted longer than its provider's limit, and otherwise waits for the project if there is one.
   */
  lemma SendExactly(cfg: Config, st: State, step: Step)
    requires step.SendBegin? && step.session in st.db.sessions
    requires step.call !in st.sends && step.recovery !in st.recoveries && step.worker !in st.processes
    ensures var s, after := step.session, Next(cfg, st, step);
            var row := st.db.sessions[s];
            && (step.call in after.sends <==> row.status !in {Completed, Failed, Cancelled, Starting})
            && (step.call !in after.sends ==> after == st)
            && (step.call in after.sends ==>
                  && after.sends[step.call].session == s && after.sends[step.call].snapshot == row.status
                  && after.db == st.db
                  && if s in st.workers then
                       after.sends[step.call].target == OnWorker(st.workers[s]) && after.recoveries == st.recoveries
                     else if s in st.inFlight then
                       after.sends[step.call].target == OnRecovery(st.inFlight[s]) && after.recoveries == st.recoveries
                     else
                       && after.sends[step.call].target == OnRecovery(step.recovery)
                       && step.recovery in after.recoveries && s in after.inFlight && after.inFlight[s] == step.recovery
                       && var over := AgeOf(row, step.now) > (if row.provider == Codex then cfg.codexCap
                           else cfg.claudeCap);
                          RecoveryEnd(cfg, st, after, step.recovery, step.worker, step.spawn, row, over))
  {
    PastCapIsAge(cfg, st.db.sessions[step.session], step.now);
    StatusGroups(st.db.sessions[step.session].status);
    hide PastCap, AcceptsInstruction, AgeOf;
    if step.session !in st.workers && step.session !in st.inFlight && Live(st.db, step.session) {
      NewRecoveryEnd(cfg, st, step);
    }
  }

  /** What becomes of a recovery in the stretch that begins it. */
  ghost predicate RecoveryEnd(cfg: Config, before: State, after: State, r: RecoveryId, w: WorkerId, spawn: Spawn,
                              row: SessionRow, over: bool)
    requires r in after.recoveries
  {
    var refused := over || (row.project.None? && ((row.provider == Codex && !cfg.codexEnabled) || spawn.SpawnThrows?));
    && after.recoveries[r].result
       == (if refused then Refusal else if row.project.Some? then Lookup else Built(w))
    && (w in after.processes && after.processes[w].started <==> after.recoveries[r].result == Built(w))
  }

  lemma NewRecoveryEnd(cfg: Config, st: State, step: Step)
    requires step.SendBegin? && step.session in st.db.sessions
    requires step.recovery !in st.recoveries && step.worker !in st.processes
    requires step.session !in st.workers && step.session !in st.inFlight && Live(st.db, step.session)
    ensures var s := step.session;
            var row := st.db.sessions[s];
            var after := AfterWorkerFor(cfg, st, s, step.recovery, step.worker, step.spawn, step.now);
            && after.db == st.db && after.sends == st.sends
            && step.recovery in after.recoveries && s in after.inFlight && after.inFlight[s] == step.recovery
            && RecoveryEnd(cfg, st, after, step.recovery, step.worker, step.spawn, row, PastCap(cfg, row, step.now))
  {
    hide PastCap, Rebuild, ProviderAvailable;
    var s := step.session;
    var begun := st.(inFlight := st.inFlight[s := step.recovery],
                     recoveries := st.recoveries[step.recovery := Recovery(s, Lookup, false)]);
    RebuildEnd(cfg, begun, step.recovery, step.worker, step.spawn);
    AvailableExactly(cfg, st.db.sessions[s].provider);
  }

  lemma AvailableExactly(cfg: Config, provider: Provider)
    ensures ProviderAvailable(cfg, provider) <==> !(provider == Codex && !cfg.codexEnabled)
  {
  }

  lemma RebuildEnd(cfg: Config, st: State, r: RecoveryId, w: WorkerId, spawn: Spawn)
    requires r in st.recoveries && w !in st.processes && st.recoveries[r].session in st.db.sessions
    ensures var after := Rebuild(cfg, st, r, w, spawn);
            var row := st.db.sessions[st.recoveries[r].session];
            var refused := IsTerminal(row.status) || !ProviderAvailable(cfg, row.provider) || spawn.SpawnThrows?;
            && after.db == st.db && after.sends == st.sends && after.inFlight == st.inFlight
            && r in after.recoveries && after.recoveries[r].result == (if refused then Refusal else Built(w))
            && (w in after.processes && after.processes[w].started <==> !refused)
  {
    hide ProviderAvailable, IsTerminal;
  }

  /**
   * When the lookup of a recovery's project returns, the recovery is refused exactly if its session has
   * finished meanwhile, its provider is off or no worker starts; else the session has the new worker.
   */
  lemma LookupExactly(cfg: Config, st: State, r: RecoveryId, w: WorkerId, spawn: Spawn)
    requires r in st.recoveries && st.recoveries[r].result == Lookup && w !in st.processes
    requires st.recoveries[r].session in st.db.sessions
    ensures var s := st.recoveries[r].session;
            var row := st.db.sessions[s];
            var after := Next(cfg, st, LookupDone(r, w, spawn));
            var refused := || row.status in {Completed, Failed, Cancelled}
                           || (row.provider == Codex && !cfg.codexEnabled) || spawn.SpawnThrows?;
            && after.db == st.db && r in after.recoveries
            && after.recoveries[r].result == (if refused then Refusal else Built(w))
            && (!refused ==> s in after.workers && after.workers[s] == w && Runs(after, w))
            && (refused ==> forall t :: t in after.workers ==> t in st.workers && after.workers[t] == st.workers[t])
  {
    StatusGroups(st.db.sessions[st.recoveries[r].session].status);
    AvailableExactly(cfg, st.db.sessions[st.recoveries[r].session].provider);
    hide ProviderAvailable, IsTerminal;
  }

  /**
   * After its await an instruction goes through exactly when it has a worker that runs; then the turn is
   * counted, and the session works unless it already did when the instruction began.
   */
  lemma ResumeExactly(cfg: Config, steps: seq<Step>, c: CallId, now: Time)
    requires var st := Reached(cfg, steps);
             && c in st.sends
             && var target := st.sends[c].target;
                target.OnRecovery? ==> target.recovery in st.recoveries && st.recoveries[target.recovery].released
    ensures var st := Reached(cfg, steps);
            var call := st.sends[c];
            var s := call.session;
            var after := Next(cfg, st, SendResume(c, now));
            var goes := match call.target
                        case OnWorker(w) => Runs(st, w)
                        case OnRecovery(r) =>
                          st.recoveries[r].result.Built? && Runs(st, st.recoveries[r].result.worker);
            && c !in after.sends && s in st.db.sessions
            && after.db.requests == st.db.requests && after.db.locks == st.db.locks
            && if !goes then after.db == st.db
               else
                 && s in after.db.sessions
                 && after.db.sessions[s].turns == st.db.sessions[s].turns + 1
                 && after.db.sessions[s].status
                    == (if call.snapshot == Working then st.db.sessions[s].status else Working)
                 && forall t :: t in st.db.sessions && t != s ==>
                      t in after.db.sessions && after.db.sessions[t] == st.db.sessions[t]
  {
    ReachedInv(cfg, steps);
    var st := Reached(cfg, steps);
    if SendWorks(st, ResumesWith(st, st.sends[c])) {
      SendFindsLive(cfg, st, c);
    }
    SendersAreSessions(cfg, st, c);
    hide Inv, Reached;
    ResumedRows(st, c, now);
  }

  lemma SendersAreSessions(cfg: Config, st: State, c: CallId)
    requires Inv(cfg, st) && c in st.sends
    ensures st.sends[c].session in st.db.sessions
  {
    hide LocksMatch, RowsOk, DeskOk, WorkersOk, RecoveriesOk;
  }

  lemma ResumedRows(st: State, c: CallId, now: Time)
    requires c in st.sends && ReadyToResume(st, st.sends[c]) && st.sends[c].session in st.db.sessions
    requires SendWorks(st, ResumesWith(st, st.sends[c])) ==> Live(st.db, st.sends[c].session)
    ensures var call := st.sends[c];
            var s := call.session;
            var after := ResumeSend(st, c, now);
            && c !in after.sends && after.db.requests == st.db.requests && after.db.locks == st.db.locks
            && if !SendWorks(st, ResumesWith(st, call)) then after.db == st.db
               else
                 && s in after.db.sessions
                 && after.db.sessions[s].turns == st.db.sessions[s].turns + 1
                 && after.db.sessions[s].status
                    == (if call.snapshot == Working then st.db.sessions[s].status else Working)
                 && forall t :: t in st.db.sessions && t != s ==>
                      t in after.db.sessions && after.db.sessions[t] == st.db.sessions[t]
  {
    hide SendWorks, ResumesWith, ReadyToResume, VoidOpen, DropLocks;
  }

  // ---------------------------------------------------------------- questions, turns and cancelling

  /**
   * A running worker's question or request for approval is taken exactly from a session at work, idle or
   * waiting in the same way already; the session then waits in that way for that one new open row.
   */
  lemma AskExactly(cfg: Config, st: State, w: WorkerId, kind: RequestKind, r: RequestId, now: Time)
    requires w in st.processes && st.processes[w].started && r !in st.db.requests
    ensures var s := st.processes[w].session;
            var waiting := if kind == Question then NeedsInput else AwaitingApproval;
            var after := Next(cfg, st, AskUser(w, kind, r, now));
            && (r in after.db.requests <==>
                  s in st.db.sessions && st.db.sessions[s].status in {Working, Idle, waiting})
            && (r !in after.db.requests ==> after == st)
            && (r in after.db.requests ==>
                  && after.db.sessions == st.db.sessions[s := st.db.sessions[s].(status := waiting)]
                  && after.db.requests
                     == st.db.requests[r := RequestRow(s, kind, now, None, None, None, None)]
                  && after.db.locks == st.db.locks
                  && r in after.desk.waiters && after.desk.waiters[r] == s
                  && r in after.desk.timers && after.desk.timers[r] == s)
  {
    var s, waiting := st.processes[w].session, if kind == Question then NeedsInput else AwaitingApproval;
    if s in st.db.sessions {
      MoveEffect(st.db, s, waiting, now);
      MovesExactlyTo(st.db.sessions[s].status, waiting);
    }
    UpdatedIsAfter(st.db, s, waiting, now);
    hide ChangeStatus, AfterChange, CanTransition;
  }

  lemma UpdatedIsAfter(db: Db, s: SessionId, next: Status, now: Time)
    ensures var c := ChangeStatus(db, s, next, now);
            (c.Updated? ==> s in db.sessions && c.db == AfterChange(db, s, next, now))
  {
    hide VoidOpen, DropLocks;
  }

  lemma MovesExactlyTo(from: Status, to: Status)
    requires to in {NeedsInput, AwaitingApproval}
    ensures CanTransition(from, to) <==> from in {Working, Idle, to}
  {
    if from != to {
      MovesExactly(from, to);
    }
  }

  ghost predicate Unanswered(db: Db, s: SessionId, r: RequestId) {
    r in db.requests && db.requests[r].session == s && db.requests[r].answeredAt == None
        && db.requests[r].voidedAt == None
  }

  /** Request `r` may take an answer given to session `s`: it is its own and open and, unless named, none is older. */
  ghost predicate Takes(db: Db, s: SessionId, named: bool, r: RequestId) {
    && Unanswered(db, s, r)
    && (named || forall q :: Unanswered(db, s, q) ==> db.requests[r].createdAt <= db.requests[q].createdAt)
  }

  /** An answer nothing can take changes nothing. */
  lemma AnswerRefusedExactly(cfg: Config, steps: seq<Step>, step: Step)
    requires step.Respond? && !Takes(Reached(cfg, steps).db, step.session, step.named, step.request)
    ensures Next(cfg, Reached(cfg, steps), step) == Reached(cfg, steps)
  {
    hide Reached, AnswerDesk, AfterChange;
  }

  /** An answer to an open request puts a waiting session back to work and leaves any other status alone. */
  lemma AnswerMovesExactly(cfg: Config, steps: seq<Step>, s: SessionId, named: bool, r: RequestId,
                           answer: string, negative: bool, now: Time)
    requires Takes(Reached(cfg, steps).db, s, named, r)
    ensures var st := Reached(cfg, steps);
            var after := Next(cfg, st, Respond(s, named, r, answer, negative, now));
            && s in st.db.sessions && s in after.db.sessions
            && after.db.sessions[s].status
               == (if st.db.sessions[s].status in {NeedsInput, AwaitingApproval} then Working
                   else st.db.sessions[s].status)
            && after.db.requests
               == st.db.requests[r := st.db.requests[r].(answeredAt := Some(now), answer := Some(answer),
                                                         denied := Some(st.db.requests[r].kind == Approval
                                                             && negative))]
  {
    ReachedInv(cfg, steps);
    var st := Reached(cfg, steps);
    InvFacts(cfg, st, s, r);
    hide Inv, Reached, AnswerDesk;
    LiveSession(st, r);
    hide RowsOk, DeskOk, AfterChange, DeliverTo;
    AnsweredMove(st, s, r, answer, negative, now);
  }

  lemma LiveSession(st: State, r: RequestId)
    requires RowsOk(st.db) && r in st.db.requests && IsOpen(st.db.requests[r])
    ensures Live(st.db, st.db.requests[r].session)
  {
  }

  lemma AnsweredMove(st: State, s: SessionId, r: RequestId, answer: string, negative: bool, now: Time)
    requires Live(st.db, s) && r in st.db.requests && IsOpen(st.db.requests[r])
    ensures var after := DeliverTo(st, s, r, answer, negative, now);
            && s in after.db.sessions
            && after.db.sessions[s].status
               == (if st.db.sessions[s].status in {NeedsInput, AwaitingApproval} then Working
                   else st.db.sessions[s].status)
            && after.db.requests
               == st.db.requests[r := st.db.requests[r].(answeredAt := Some(now), answer := Some(answer),
                                                         denied := Some(st.db.requests[r].kind == Approval
                                                             && negative))]
  {
    var denied := st.db.requests[r].kind.Approval? && negative;
    var answered := st.db.(requests := st.db.requests[r :=
      st.db.requests[r].(answeredAt := Some(now), answer := Some(answer), denied := Some(denied))]);
    AnsweredTables(st, s, r, answer, negative, now);
    BackToWork(answered, s, now);
    hide AfterChange, DeliverTo, IsOpen, IsTerminal;
  }

  lemma AnsweredTables(st: State, s: SessionId, r: RequestId, answer: string, negative: bool, now: Time)
    requires s in st.db.sessions && r in st.db.requests && IsOpen(st.db.requests[r])
    ensures var denied := st.db.requests[r].kind == Approval && negative;
            var answered := st.db.(requests := st.db.requests[r :=
              st.db.requests[r].(answeredAt := Some(now), answer := Some(answer), denied := Some(denied))]);
            DeliverTo(st, s, r, answer, negative, now).db
            == if st.db.sessions[s].status in {NeedsInput, AwaitingApproval} then AfterChange(answered, s, Working, now)
               else answered
  {
    AnsweredDb(st.db, r, answer, st.db.requests[r].kind.Approval? && negative, now);
    hide AfterChange, AnswerDesk, AnswerRequest, IsOpen;
  }

  lemma BackToWork(db: Db, s: SessionId, now: Time)
    requires Live(db, s)
    ensures var after := AfterChange(db, s, Working, now);
            s in after.sessions && after.sessions[s].status == Working && after.requests == db.requests
  {
    MoveEffect(db, s, Working, now);
    RestsOrNot(db.sessions[s].status);
    hide AfterChange, ChangeStatus, CanTransition;
  }

  lemma AnsweredDb(db: Db, r: RequestId, answer: string, denied: bool, now: Time)
    requires r in db.requests && IsOpen(db.requests[r])
    ensures AnswerRequest(db, r, answer, denied, now)
         == Answered(db.(requests := db.requests[r :=
              db.requests[r].(answeredAt := Some(now), answer := Some(answer), denied := Some(denied))]))
  {
  }

  /** The end of a turn leaves its session idle unless it has finished; a worker's error fails it. */
  lemma WorkerEndsExactly(cfg: Config, st: State, w: WorkerId, now: Time)
    requires w in st.processes && st.processes[w].started && st.processes[w].session in st.db.sessions
    ensures var s := st.processes[w].session;
            var status := st.db.sessions[s].status;
            var turned, failed := Next(cfg, st, TurnComplete(w, now)).db, Next(cfg, st, WorkerFailed(w, now)).db;
            && s in turned.sessions && s in failed.sessions
            && turned.requests == st.db.requests && turned.locks == st.db.locks
            && if status in {Completed, Failed, Cancelled} then turned == st.db && failed == st.db
               else
                 && turned.sessions == st.db.sessions[s := st.db.sessions[s].(status := Idle)]
                 && failed.sessions[s].status == Failed
  {
    var s := st.processes[w].session;
    StatusGroups(st.db.sessions[s].status);
    MoveEffect(st.db, s, Idle, now);
    RestsOrNot(st.db.sessions[s].status);
    FailedStatus(st, s, now);
    hide AfterChange, ChangeStatus, CanTransition, Fail, IsTerminal;
  }

  lemma RestsOrNot(status: Status)
    ensures status !in {Completed, Failed, Cancelled} ==> CanTransition(status, Idle) && CanTransition(status, Working)
  {
  }

  lemma FailedStatus(st: State, s: SessionId, now: Time)
    requires s in st.db.sessions
    ensures var after := Fail(st, s, now);
            && s in after.db.sessions
            && (Live(st.db, s) ==> after.db.sessions[s].status == Failed) && (!Live(st.db, s) ==> after == st)
  {
    hide VoidOpen, DropLocks, AbandonDesk, DisposeAll, EntriesOf;
  }

  /**
   * A cancel of a finished session does nothing; with a worker it waits for the worker to stop and has
   * done nothing yet; without one the session is cancelled at once.
   */
  lemma CancelBeginsExactly(cfg: Config, st: State, c: CallId, s: SessionId, now: Time)
    requires s in st.db.sessions && c !in st.cancels
    ensures var after := Next(cfg, st, CancelBegin(c, s, now));
            var status := st.db.sessions[s].status;
            if status in {Completed, Failed, Cancelled} then after == st
            else if s in st.workers then after == st.(cancels := st.cancels[c := CancelCall(s, st.workers[s], false)])
            else
              && s in after.db.sessions && after.db.sessions[s].status == Cancelled
              && after.cancels == st.cancels && after.workers == st.workers
  {
    StatusGroups(st.db.sessions[s].status);
    FinishedCancel(st, s, now);
    hide FinishCancel, IsTerminal;
  }

  /** Once interrupted, the worker is disposed and still in the map; its session has not moved. */
  lemma CancelDisposesExactly(cfg: Config, st: State, c: CallId)
    requires c in st.cancels && !st.cancels[c].disposing && st.cancels[c].worker in st.processes
    ensures var call := st.cancels[c];
            Next(cfg, st, CancelInterrupted(c))
            == st.(processes := st.processes[call.worker := st.processes[call.worker].(disposed := true)],
                   cancels := st.cancels[c := CancelCall(call.session, call.worker, true)])
  {
  }

  /** Once it is disposed its entry goes, and the session is cancelled unless it finished meanwhile. */
  lemma CancelEndsExactly(cfg: Config, st: State, c: CallId, now: Time)
    requires c in st.cancels && st.cancels[c].disposing && st.cancels[c].session in st.db.sessions
    ensures var s := st.cancels[c].session;
            var after := Next(cfg, st, CancelDisposed(c, now));
            var status := st.db.sessions[s].status;
            && c !in after.cancels && s !in after.workers && s in after.db.sessions
            && after.db.sessions[s].status == (if status in {Completed, Failed, Cancelled} then status else Cancelled)
  {
    var s := st.cancels[c].session;
    FinishedCancel(st.(workers := st.workers - {s}, cancels := st.cancels - {c}), s, now);
    hide FinishCancel;
  }

  lemma FinishedCancel(st: State, s: SessionId, now: Time)
    requires s in st.db.sessions
    ensures var after := FinishCancel(st, s, now);
            && s in after.db.sessions && after.workers == st.workers && after.cancels == st.cancels
            && after.db.sessions[s].status
               == (if st.db.sessions[s].status in {Completed, Failed, Cancelled} then st.db.sessions[s].status
                   else Cancelled)
  {
    StatusGroups(st.db.sessions[s].status);
    EndEffect(Abandon(st, s, now).db, s, Cancelled, now);
    hide AfterChange, VoidOpen, AbandonDesk;
  }

  /** After an unanswered ask its session goes back to work exactly if it still claims to wait. */
  lemma ClearExactly(cfg: Config, st: State, r: RequestId, now: Time)
    requires r in st.db.requests && Rejected in History(st.desk.settled, r)
        && st.db.requests[r].session in st.db.sessions
    ensures var s := st.db.requests[r].session;
            var after := Next(cfg, st, ClearUnanswered(r, now));
            && s in after.db.sessions
            && after.db.sessions[s].status
               == (if st.db.sessions[s].status in {NeedsInput, AwaitingApproval} then Working
                   else st.db.sessions[s].status)
            && after.db.requests == st.db.requests && after.db.locks == st.db.locks
  {
    var s := st.db.requests[r].session;
    MoveEffect(st.db, s, Working, now);
    RestsOrNot(st.db.sessions[s].status);
    hide AfterChange, ChangeStatus, CanTransition, History;
  }

  /** A restart interrupts exactly the sessions that were under way, and loses every worker and waiter. */
  lemma RestartExactly(cfg: Config, st: State, now: Time, s: SessionId)
    requires s in st.db.sessions
    ensures var after := Next(cfg, st, Restart(now));
            && s in after.db.sessions
            && after.db.sessions[s].status
               == (if st.db.sessions[s].status in {Completed, Failed, Cancelled} then st.db.sessions[s].status
                   else Interrupted)
            && after.workers == map[] && after.processes == map[] && after.sends == map[] && after.cancels == map[]
            && after.desk.waiters == map[] && after.desk.timers == map[] && after.desk.settled == st.desk.settled
  {
    StatusGroups(st.db.sessions[s].status);
    hide VoidOpen, DropLocks, ExpectsLiveWorker;
  }

  // ---------------------------------------------------------------- what an end takes along

  /** The request rows of `s` that were open are void since `now`, and all others are as they were. */
  ghost predicate VoidedFor(before: map<RequestId, RequestRow>, after: map<RequestId, RequestRow>, s: SessionId,
                            now: Time) {
    && after.Keys == before.Keys
    && forall q :: q in before ==>
         after[q] == if before[q].session == s && before[q].answeredAt == None && before[q].voidedAt == None
                     then before[q].(voidedAt := Some(now)) else before[q]
  }

  /** A timeout voids all open rows of its session, rejects its own ask, and touches nothing else. */
  lemma TimeoutExactly(cfg: Config, st: State, r: RequestId, now: Time)
    requires r in st.desk.timers
    ensures var after := Next(cfg, st, AskTimeout(r, now));
            && VoidedFor(st.db.requests, after.db.requests, st.desk.timers[r], now)
            && after.db.sessions == st.db.sessions && after.db.locks == st.db.locks
            && after.desk.waiters == st.desk.waiters - {r} && after.desk.timers == st.desk.timers - {r}
            && after.desk.settled == st.desk.settled[r := History(st.desk.settled, r) + [Rejected]]
            && after.workers == st.workers && after.processes == st.processes
  {
    hide History;
  }

  /**
   * A failing session gives up its locks and its place in the map, its worker is disposed, its open
   * requests are voided and their asks rejected; no other session, lock, worker or request changes.
   */
  lemma FailureExactly(cfg: Config, st: State, w: WorkerId, now: Time)
    requires w in st.processes && st.processes[w].started && Live(st.db, st.processes[w].session)
    requires st.db.sessions[st.processes[w].session].finishedAt == None
    ensures var s := st.processes[w].session;
            var after := Next(cfg, st, WorkerFailed(w, now));
            && after.db.sessions
               == st.db.sessions[s := st.db.sessions[s].(status := Failed, finishedAt := Some(now))]
            && VoidedFor(st.db.requests, after.db.requests, s, now)
            && (forall p :: p in after.db.locks <==> p in st.db.locks && st.db.locks[p] != s)
            && (forall p :: p in after.db.locks ==> after.db.locks[p] == st.db.locks[p])
            && after.workers == st.workers - {s}
            && (forall v :: v in st.processes ==>
                  && v in after.processes
                  && after.processes[v] == if s in st.workers && st.workers[s] == v
                                           then st.processes[v].(disposed := true) else st.processes[v])
            && (forall q :: q in after.desk.waiters
                  <==> q in st.desk.waiters && !(q in st.db.requests && st.db.requests[q].session == s))
  {
    FailedTables(st, st.processes[w].session, now);
    FailedDesk(st, st.processes[w].session, now);
    hide Fail;
  }

  lemma FailedTables(st: State, s: SessionId, now: Time)
    requires Live(st.db, s) && st.db.sessions[s].finishedAt == None
    ensures var after := Fail(st, s, now);
            && after.db.sessions
               == st.db.sessions[s := st.db.sessions[s].(status := Failed, finishedAt := Some(now))]
            && VoidedFor(st.db.requests, after.db.requests, s, now)
            && (forall p :: p in after.db.locks <==> p in st.db.locks && st.db.locks[p] != s)
            && (forall p :: p in after.db.locks ==> after.db.locks[p] == st.db.locks[p])
  {
    hide AbandonDesk, DisposeAll, EntriesOf;
  }

  lemma FailedDesk(st: State, s: SessionId, now: Time)
    requires Live(st.db, s)
    ensures var after := Fail(st, s, now);
            && after.workers == st.workers - {s}
            && (forall v :: v in st.processes ==>
                  && v in after.processes
                  && after.processes[v] == if s in st.workers && st.workers[s] == v
                                           then st.processes[v].(disposed := true) else st.processes[v])
            && (forall q :: q in after.desk.waiters
                  <==> q in st.desk.waiters && !(q in st.db.requests && st.db.requests[q].session == s))
  {
    hide VoidOpen, DropLocks, WithStatus;
  }
}
