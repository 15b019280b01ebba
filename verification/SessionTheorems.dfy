/**
 * The promises of the work-session layer, over every run from an empty database: any interleaving
 * of starts, instructions, answers, cancels, worker callbacks, timeouts, sweeps and restarts.
 */
module SessionTheorems {
  import opened Options
  import opened Lifecycle
  import opened SessionRows
  import opened RequestBroker
  import opened SessionProtocol
  import opened SessionSafety

  function Reached(cfg: Config, steps: seq<Step>): State {
    Run(cfg, INITIAL, steps)
  }

  lemma ReachedInv(cfg: Config, steps: seq<Step>)
    ensures Inv(cfg, Reached(cfg, steps))
  {
    InitialInv(cfg);
    RunInv(cfg, INITIAL, steps);
  }

  predicate Running(st: State, w: WorkerId) {
    w in st.processes && st.processes[w].started && !st.processes[w].disposed
  }

  // ---------------------------------------------------------------- states

  /**
   * With lock enforcement on, a live session that may write to `p` is exactly `p`'s recorded
   * lock holder, so a project never has two.
   */
  lemma WriteExclusion(cfg: Config, steps: seq<Step>, s: SessionId, t: SessionId, p: ProjectId)
    requires cfg.enforceLock
    ensures var db := Reached(cfg, steps).db;
            && (WritesTo(db, s, p) <==> p in db.locks && db.locks[p] == s)
            && (WritesTo(db, s, p) && WritesTo(db, t, p) ==> s == t)
  {
    ReachedInv(cfg, steps);
  }

  /**
   * A worker that was started and not disposed is the map entry of its own session, and that
   * session is live: no session has two, and none is leaked.
   */
  lemma WorkerOwnership(cfg: Config, steps: seq<Step>, v: WorkerId, w: WorkerId)
    requires Running(Reached(cfg, steps), v) && Running(Reached(cfg, steps), w)
    ensures var st := Reached(cfg, steps);
            var s := st.processes[w].session;
            && s in st.workers && st.workers[s] == w && Live(st.db, s)
            && (st.processes[v].session == s ==> v == w)
  {
    ReachedInv(cfg, steps);
  }

  /** A finished session holds no lock, no open question, no waiter or timer and no worker. */
  lemma TerminalQuiescence(cfg: Config, steps: seq<Step>, s: SessionId)
    requires var db := Reached(cfg, steps).db; s in db.sessions && IsTerminal(db.sessions[s].status)
    ensures var st := Reached(cfg, steps);
            && s !in st.db.locks.Values
            && (forall r :: r in st.db.requests && st.db.requests[r].session == s ==>
                  && !IsOpen(st.db.requests[r]) && r !in st.desk.waiters && r !in st.desk.timers)
            && s !in st.workers
            && (forall w :: w in st.processes && st.processes[w].session == s ==> !Running(st, w))
            && st.db.sessions[s].finishedAt.Some?
  {
    ReachedInv(cfg, steps);
  }

  /** A send that goes through finds its session live, so the status change behind it is legal. */
  lemma SendIsNeverRefused(cfg: Config, steps: seq<Step>, c: CallId, now: Time)
    requires var st := Reached(cfg, steps);
             c in st.sends && ReadyToResume(st, st.sends[c]) && SendWorks(st, ResumesWith(st, st.sends[c]))
    ensures var st := Reached(cfg, steps);
            var s := st.sends[c].session;
            Live(st.db, s) && ChangeStatus(CountTurn(st.db, s), s, Working, now).Updated?
  {
    ReachedInv(cfg, steps);
  }

  /** A restart finds no orphaned lock: every lock survives it, with its holder still live. */
  lemma RestartKeepsLocks(cfg: Config, steps: seq<Step>, now: Time)
    ensures var st := Reached(cfg, steps);
            var after := Next(cfg, st, Restart(now));
            && after.db.locks == st.db.locks
            && (forall s :: Live(after.db, s) <==> Live(st.db, s))
            && (forall s :: s in after.db.sessions ==> !ExpectsLiveWorker(after.db.sessions[s].status))
  {
    ReachedInv(cfg, steps);
    var db := Reached(cfg, steps).db;
    RecoveredTables(cfg, db, now);
    SameLifeShort(db, Recovered(db, now));
  }

  lemma SameLifeShort(a: Db, b: Db)
    requires SameLife(a, b)
    ensures forall s :: Live(a, s) <==> Live(b, s)
  {
  }

  /**
   * A sweep fails, by a legal transition, exactly the unfinished sessions that have lasted longer than
   * their provider's limit since they first started or else were created. It leaves every other row as
   * it was, and exactly the locks of the sessions still live, each of which is within its limit.
   */
  lemma ReaperCompleteness(cfg: Config, steps: seq<Step>, now: Time)
    ensures var st := Reached(cfg, steps);
            var after := Next(cfg, st, Sweep(now));
            && after.db.sessions.Keys == st.db.sessions.Keys
            && (forall s :: s in st.db.sessions ==>
                  var row := st.db.sessions[s];
                  var start := if row.startedAt.Some? then row.startedAt.value else row.createdAt;
                  var limit := if row.provider == Codex then cfg.codexCap else cfg.claudeCap;
                  if row.status !in {Completed, Failed, Cancelled} && now - start > limit then
                    && ChangeStatus(st.db, s, Failed, now).Updated?
                    && after.db.sessions[s] == row.(status := Failed, finishedAt := Some(now))
                  else after.db.sessions[s] == row)
            && (forall p :: p in after.db.locks ==>
                  && p in st.db.locks && st.db.locks[p] == after.db.locks[p] && after.db.locks[p] in after.db.sessions
                  && var row := after.db.sessions[after.db.locks[p]];
                     var start := if row.startedAt.Some? then row.startedAt.value else row.createdAt;
                     && row.status !in {Completed, Failed, Cancelled}
                     && now - start <= if row.provider == Codex then cfg.codexCap else cfg.claudeCap)
            && (forall p :: p in st.db.locks && Live(after.db, st.db.locks[p]) ==> p in after.db.locks)
  {
    ReachedInv(cfg, steps);
    var st := Reached(cfg, steps);
    InvLocks(cfg, st);
    hide Inv, Reached, Retire, ChangeStatus, Expired;
    ExpiredExactly(cfg, st.db, now);
    hide PastCap;
    SweepRows(cfg, st, now);
    SweepLocks(cfg, st, now);
  }

  lemma SweepRows(cfg: Config, st: State, now: Time)
    requires forall s :: Live(st.db, s) ==> st.db.sessions[s].finishedAt.None?
    ensures var after := Retire(st, Expired(cfg, st.db, now), now);
            && after.db.sessions.Keys == st.db.sessions.Keys
            && (forall s :: s in Expired(cfg, st.db, now) ==>
                  && ChangeStatus(st.db, s, Failed, now).Updated?
                  && after.db.sessions[s] == st.db.sessions[s].(status := Failed, finishedAt := Some(now)))
            && (forall s :: s in st.db.sessions && s !in Expired(cfg, st.db, now) ==>
                  after.db.sessions[s] == st.db.sessions[s])
  {
    hide AbandonDesk, EntriesOf, DisposeAll, VoidOpen, DropLocks, PastCap;
  }

  lemma InvLocks(cfg: Config, st: State)
    requires Inv(cfg, st)
    ensures forall p :: p in st.db.locks ==> Live(st.db, st.db.locks[p])
    ensures forall s :: Live(st.db, s) ==> st.db.sessions[s].finishedAt.None?
  {
  }

  lemma SweepLocks(cfg: Config, st: State, now: Time)
    requires forall p :: p in st.db.locks ==> Live(st.db, st.db.locks[p])
    ensures var after := Retire(st, Expired(cfg, st.db, now), now);
            && (forall s :: Live(after.db, s) ==>
                  s !in Expired(cfg, st.db, now) && after.db.sessions[s] == st.db.sessions[s])
            && (forall p :: p in after.db.locks ==>
                  p in st.db.locks && after.db.locks[p] == st.db.locks[p] && Live(after.db, after.db.locks[p]))
            && (forall p :: p in st.db.locks && st.db.locks[p] !in Expired(cfg, st.db, now) ==> p in after.db.locks)
  {
    hide AbandonDesk, EntriesOf, DisposeAll, VoidOpen, PastCap;
  }

  // ---------------------------------------------------------------- continuations

  /** Rows stay, and finished sessions stay exactly as they are. */
  ghost predicate SessionsKeep(a: map<SessionId, SessionRow>, b: map<SessionId, SessionRow>) {
    forall s :: s in a ==>
      && s in b && b[s].project == a[s].project && b[s].writeCapable == a[s].writeCapable
      && b[s].provider == a[s].provider && b[s].createdAt == a[s].createdAt && b[s].turns >= a[s].turns
      && (a[s].startedAt.Some? ==> b[s].startedAt == a[s].startedAt)
      && (IsTerminal(a[s].status) ==> b[s] == a[s])
  }

  /** Rows stay, and answered or voided requests stay exactly as they are. */
  ghost predicate RequestsKeep(a: map<RequestId, RequestRow>, b: map<RequestId, RequestRow>) {
    forall r :: r in a ==> r in b && b[r].session == a[r].session && (!IsOpen(a[r]) ==> b[r] == a[r])
  }

  /** A settled ask stays settled the way it was. */
  ghost predicate SettledKeep(a: map<RequestId, seq<Settlement>>, b: map<RequestId, seq<Settlement>>) {
    forall r :: r in a ==> r in b && b[r] == a[r]
  }

  /** What a later state may never take back. */
  ghost predicate Keeps(a: State, b: State) {
    && SessionsKeep(a.db.sessions, b.db.sessions)
    && RequestsKeep(a.db.requests, b.db.requests)
    && SettledKeep(a.desk.settled, b.desk.settled)
  }

  lemma ChangeKeeps(db: Db, s: SessionId, next: Status, now: Time)
    requires s in db.sessions && IsTerminal(db.sessions[s].status) ==> db.sessions[s].finishedAt.Some?
    ensures SessionsKeep(db.sessions, AfterChange(db, s, next, now).sessions)
    ensures RequestsKeep(db.requests, AfterChange(db, s, next, now).requests)
  {
    hide DropLocks;
  }

  lemma KeepsTrans(a: State, b: State, c: State)
    requires Keeps(a, b) && Keeps(b, c)
    ensures Keeps(a, c)
  {
  }

  lemma EndedKeeps(st: State, ids: set<SessionId>, next: Status, now: Time)
    requires DeskOk(st.db, st.desk) && forall s :: s in ids ==> Live(st.db, s)
    ensures Keeps(st, EndedState(st, ids, next, now))
  {
  }

  lemma SameKeeps(a: State, b: State)
    requires a.db.sessions == b.db.sessions && a.db.requests == b.db.requests && a.desk.settled == b.desk.settled
    ensures Keeps(a, b)
  {
  }

  lemma NewKeeps(st: State, b: State, s: SessionId, row: SessionRow)
    requires s !in st.db.sessions && b.db.sessions == st.db.sessions[s := row]
    requires b.db.requests == st.db.requests && b.desk.settled == st.desk.settled
    ensures Keeps(st, b)
  {
  }

  lemma ChangedKeeps(st: State, s: SessionId, next: Status, now: Time)
    requires s in st.db.sessions && IsTerminal(st.db.sessions[s].status) ==> st.db.sessions[s].finishedAt.Some?
    ensures Keeps(st, st.(db := AfterChange(st.db, s, next, now)))
  {
    ChangeKeeps(st.db, s, next, now);
  }

  /** The parts of the invariant that the lemmas below lean on. */
  lemma InvFacts(cfg: Config, st: State, s: SessionId, r: RequestId)
    requires Inv(cfg, st)
    ensures RowsOk(st.db) && DeskOk(st.db, st.desk)
    ensures s in st.db.sessions && IsTerminal(st.db.sessions[s].status) ==> st.db.sessions[s].finishedAt.Some?
    ensures r in st.desk.timers ==> r !in st.desk.settled
  {
  }

  lemma SendFindsLive(cfg: Config, st: State, c: CallId)
    requires Inv(cfg, st)
    requires c in st.sends && ReadyToResume(st, st.sends[c]) && SendWorks(st, ResumesWith(st, st.sends[c]))
    ensures Live(st.db, st.sends[c].session)
  {
  }

  /** However a start ends, it inserts at most one row and leaves requests and desk alone. */
  lemma StartShape(cfg: Config, st: State, step: Step) returns (row: SessionRow)
    requires Inv(cfg, st) && step.Start?
    ensures var after := StartSession(cfg, st, step);
            && after.db.requests == st.db.requests && after.desk == st.desk
            && (after.db.sessions == st.db.sessions
                || (step.session !in st.db.sessions && after.db.sessions == st.db.sessions[step.session := row]))
  {
    row := StartRow(step);
    if !CanStart(cfg, st, step) {
      hide Inv;
      assert StartSession(cfg, st, step) == st;
    } else {
      NoTraceOf(cfg, st, step.session, step.now);
      hide Inv, StartSession, VoidOpen, AbandonDesk, WithStatus, StartLocks;
      if !LockGranted(cfg, st, step) {
        StartRefusedShape(cfg, st, step);
        row := WithStatus(row, Cancelled, step.now);
      } else if step.spawn.SpawnOk? {
        StartWorkingShape(cfg, st, step);
        row := WithStatus(row, Working, step.now);
      } else {
        StartFailedShape(cfg, st, step);
        row := WithStatus(row, Failed, step.now);
      }
    }
  }

  lemma StartKeeps(cfg: Config, st: State, step: Step)
    requires Inv(cfg, st) && step.Start?
    ensures Keeps(st, StartSession(cfg, st, step))
  {
    hide Inv, Keeps, StartSession;
    var row := StartShape(cfg, st, step);
    var after := StartSession(cfg, st, step);
    if after.db.sessions == st.db.sessions {
      SameKeeps(st, after);
    } else {
      NewKeeps(st, after, step.session, row);
    }
  }

  lemma CountKeeps(st: State, s: SessionId)
    requires Live(st.db, s)
    ensures Keeps(st, st.(db := CountTurn(st.db, s))) && Live(CountTurn(st.db, s), s)
  {
  }

  lemma ResumeKeeps(cfg: Config, st: State, c: CallId, now: Time)
    requires Inv(cfg, st)
    ensures Keeps(st, ResumeSend(st, c, now))
  {
    hide Inv, Keeps, AfterChange, CountTurn, ReadyToResume, ResumesWith, SendWorks;
    var after := ResumeSend(st, c, now);
    if c in st.sends && ReadyToResume(st, st.sends[c]) && SendWorks(st, ResumesWith(st, st.sends[c])) {
      SendFindsLive(cfg, st, c);
      CountedKeeps(st, st.sends[c].session, now, after);
    } else {
      SameKeeps(st, after);
    }
  }

  /** A turn counted, and perhaps the move to working behind it. */
  lemma CountedKeeps(st: State, s: SessionId, now: Time, after: State)
    requires Live(st.db, s) && after.desk == st.desk
    requires after.db == CountTurn(st.db, s) || after.db == AfterChange(CountTurn(st.db, s), s, Working, now)
    ensures Keeps(st, after)
  {
    CountKeeps(st, s);
    hide Keeps, AfterChange, CountTurn;
    var counted := st.(db := CountTurn(st.db, s));
    if after.db == counted.db {
      SameKeeps(counted, after);
      KeepsTrans(st, counted, after);
    } else {
      var worked := counted.(db := AfterChange(counted.db, s, Working, now));
      LiveIsUnfinished(counted, s);
      ChangedKeeps(counted, s, Working, now);
      KeepsTrans(st, counted, worked);
      SameKeeps(worked, after);
      KeepsTrans(st, worked, after);
    }
  }

  lemma LiveIsUnfinished(st: State, s: SessionId)
    requires Live(st.db, s)
    ensures s in st.db.sessions && !IsTerminal(st.db.sessions[s].status)
  {
  }

  lemma FinishCancelKeeps(st: State, s: SessionId, now: Time)
    requires DeskOk(st.db, st.desk)
    ensures Keeps(st, FinishCancel(st, s, now))
  {
    AbandonKeeps(st, s, now);
    if Live(st.db, s) {
      ChangeKeeps(Abandon(st, s, now).db, s, Cancelled, now);
    }
  }

  lemma AbandonKeeps(st: State, s: SessionId, now: Time)
    requires DeskOk(st.db, st.desk)
    ensures Keeps(st, Abandon(st, s, now))
  {
  }

  lemma AnsweredKeeps(st: State, r: RequestId, answer: string, denied: bool, now: Time)
    requires DeskOk(st.db, st.desk) && r in st.db.requests && IsOpen(st.db.requests[r])
    ensures Keeps(st, st.(db := AnswerRequest(st.db, r, answer, denied, now).db,
        desk := AnswerDesk(st.desk, r, answer, denied)))
  {
  }

  lemma DeliverKeeps(cfg: Config, st: State, s: SessionId, r: RequestId, answer: string, negative: bool, now: Time)
    requires Inv(cfg, st) && s in st.db.sessions && r in st.db.requests
    ensures Keeps(st, DeliverTo(st, s, r, answer, negative, now))
  {
    hide Inv, Keeps;
    InvFacts(cfg, st, s, r);
    if !IsOpen(st.db.requests[r]) {
      SameKeeps(st, st);
    } else {
      var denied := st.db.requests[r].kind.Approval? && negative;
      AnsweredKeeps(st, r, answer, denied, now);
      var mid := st.(db := AnswerRequest(st.db, r, answer, denied, now).db,
          desk := AnswerDesk(st.desk, r, answer, denied));
      ChangedKeeps(mid, s, Working, now);
      KeepsTrans(st, mid, mid.(db := AfterChange(mid.db, s, Working, now)));
    }
  }

  lemma AskKeeps(cfg: Config, st: State, w: WorkerId, kind: RequestKind, r: RequestId, now: Time)
    requires Inv(cfg, st)
    ensures Keeps(st, Ask(st, w, kind, r, now))
  {
    hide Inv, Keeps;
    SameKeeps(st, st);
    if CallsBack(st, w) && r !in st.db.requests {
      var s, next := st.processes[w].session, if kind.Question? then NeedsInput else AwaitingApproval;
      InvFacts(cfg, st, s, r);
      var moved := st.(db := AfterChange(st.db, s, next, now));
      ChangedKeeps(st, s, next, now);
      if ChangeStatus(st.db, s, next, now).Updated? {
        AddedKeeps(moved, Ask(st, w, kind, r, now), r, NewRequest(s, kind, now));
        KeepsTrans(st, moved, Ask(st, w, kind, r, now));
      }
    }
  }

  lemma AddedKeeps(a: State, b: State, r: RequestId, row: RequestRow)
    requires r !in a.db.requests && b.db.requests == a.db.requests[r := row]
    requires b.db.sessions == a.db.sessions && b.desk.settled == a.desk.settled
    ensures Keeps(a, b)
  {
  }

  lemma TimeOutKeeps(st: State, r: RequestId, now: Time)
    requires r in st.desk.timers ==> r !in st.desk.settled
    ensures Keeps(st, TimeOut(st, r, now))
  {
  }

  lemma RestartKeeps(st: State, now: Time)
    ensures Keeps(st, RestartProcess(st, now))
  {
  }

  lemma StepKeeps(cfg: Config, st: State, step: Step)
    requires Inv(cfg, st)
    ensures Keeps(st, Next(cfg, st, step))
  {
    hide Inv, Keeps, RowsOk, DeskOk, StartSession, BeginSend, FinishLookup, ReleaseRecovery, ResumeSend, DeliverTo,
         BeginCancel, InterruptedCancel, DisposedCancel, FinishTurn, Ask, TimeOut, ClearStatus, RestartProcess, Retire;
    InvFacts(cfg, st, 0, 0);
    match step
    case Start(_, _, _, _, _, _, _) => StartKeeps(cfg, st, step);
    case SendBegin(_, _, _, _, _, _) => VolatileStepKeeps(cfg, st, step);
    case LookupDone(_, _, _) => VolatileStepKeeps(cfg, st, step);
    case RecoveryReleased(_) => VolatileStepKeeps(cfg, st, step);
    case SendResume(c, now) => ResumeKeeps(cfg, st, c, now);
    case Respond(s, _, r, answer, negative, now) =>
      SameKeeps(st, st);
      if s in st.db.sessions && r in st.db.requests {
        DeliverKeeps(cfg, st, s, r, answer, negative, now);
      }
    case CancelBegin(c, s, now) => BeginCancelKeeps(st, c, s, now);
    case CancelInterrupted(_) => VolatileStepKeeps(cfg, st, step);
    case CancelDisposed(c, now) => DisposedCancelKeeps(st, c, now);
    case TurnComplete(w, now) => TurnKeeps(st, w, now);
    case WorkerFailed(w, now) =>
      SameKeeps(st, st);
      FailKeeps(st, w, now);
    case AskUser(w, kind, r, now) => AskKeeps(cfg, st, w, kind, r, now);
    case AskTimeout(r, now) => InvFacts(cfg, st, 0, r); TimeOutKeeps(st, r, now);
    case ClearUnanswered(r, now) => ClearKeeps(cfg, st, r, now);
    case Sweep(now) => SweepKeeps(cfg, st, now);
    case Restart(now) => RestartKeeps(st, now);
  }

  /** Steps that touch no row at all. */
  lemma VolatileStepKeeps(cfg: Config, st: State, step: Step)
    requires step.SendBegin? || step.LookupDone? || step.RecoveryReleased? || step.CancelInterrupted?
    ensures Keeps(st, Next(cfg, st, step))
  {
    hide Keeps, BeginSend, Rebuild, PastCap, ProviderAvailable, AcceptsInstruction;
    if step.SendBegin? {
      BeginSendTouchesNoRow(cfg, st, step);
    } else if step.LookupDone? && step.recovery in st.recoveries {
      RebuildTouchesNoRow(cfg, st, step.recovery, step.worker, step.spawn);
    }
    SameKeeps(st, Next(cfg, st, step));
  }

  lemma RebuildTouchesNoRow(cfg: Config, st: State, r: RecoveryId, w: WorkerId, spawn: Spawn)
    requires r in st.recoveries
    ensures var after := Rebuild(cfg, st, r, w, spawn); after.db == st.db && after.desk == st.desk
  {
  }

  lemma BeginSendTouchesNoRow(cfg: Config, st: State, step: Step)
    requires step.SendBegin?
    ensures var after := BeginSend(cfg, st, step); after.db == st.db && after.desk == st.desk
  {
    hide AfterWorkerFor, AcceptsInstruction, FindsWorker, TargetFor;
    if step.session in st.db.sessions {
      WorkerForTouchesNoRow(cfg, st, step.session, step.recovery, step.worker, step.spawn, step.now);
    }
  }

  lemma WorkerForTouchesNoRow(cfg: Config, st: State, s: SessionId, r: RecoveryId, w: WorkerId, spawn: Spawn, now: Time)
    requires s in st.db.sessions
    ensures var after := AfterWorkerFor(cfg, st, s, r, w, spawn, now); after.db == st.db && after.desk == st.desk
  {
    hide PastCap, Rebuild;
    var begun := st.(inFlight := st.inFlight[s := r], recoveries := st.recoveries[r := Recovery(s, Lookup, false)]);
    RebuildTouchesNoRow(cfg, begun, r, w, spawn);
  }

  lemma FailKeeps(st: State, w: WorkerId, now: Time)
    requires DeskOk(st.db, st.desk)
    ensures CallsBack(st, w) ==> Keeps(st, Fail(st, st.processes[w].session, now))
  {
    SameKeeps(st, st);
    if CallsBack(st, w) && Live(st.db, st.processes[w].session) {
      EndedKeeps(st, {st.processes[w].session}, Failed, now);
    }
  }

  lemma SweepKeeps(cfg: Config, st: State, now: Time)
    requires DeskOk(st.db, st.desk)
    ensures Keeps(st, Retire(st, Expired(cfg, st.db, now), now))
  {
    EndedKeeps(st, Expired(cfg, st.db, now), Failed, now);
  }

  lemma BeginCancelKeeps(st: State, c: CallId, s: SessionId, now: Time)
    requires DeskOk(st.db, st.desk)
    ensures Keeps(st, BeginCancel(st, c, s, now))
  {
    SameKeeps(st, st);
    FinishCancelKeeps(st, s, now);
  }

  lemma DisposedCancelKeeps(st: State, c: CallId, now: Time)
    requires DeskOk(st.db, st.desk)
    ensures Keeps(st, DisposedCancel(st, c, now))
  {
    SameKeeps(st, st);
    if c in st.cancels {
      var s := st.cancels[c].session;
      FinishCancelKeeps(st.(workers := st.workers - {s}, cancels := st.cancels - {c}), s, now);
    }
  }

  lemma TurnKeeps(st: State, w: WorkerId, now: Time)
    ensures Keeps(st, FinishTurn(st, w, now))
  {
    if CallsBack(st, w) && Live(st.db, st.processes[w].session) {
      ChangedKeeps(st, st.processes[w].session, Idle, now);
    }
  }

  lemma ClearKeeps(cfg: Config, st: State, r: RequestId, now: Time)
    requires Inv(cfg, st)
    ensures Keeps(st, ClearStatus(st, r, now))
  {
    if r in st.db.requests {
      ChangedKeeps(st, st.db.requests[r].session, Working, now);
    }
  }

  lemma {:induction false} RunKeeps(cfg: Config, st: State, more: seq<Step>)
    requires Inv(cfg, st)
    ensures Keeps(st, Run(cfg, st, more))
  {
    if more == [] {
      SameKeeps(st, st);
    } else {
      var before := Run(cfg, st, more[..|more| - 1]);
      RunInv(cfg, st, more[..|more| - 1]);
      RunKeeps(cfg, st, more[..|more| - 1]);
      StepKeeps(cfg, before, more[|more| - 1]);
      KeepsTrans(st, before, Run(cfg, st, more));
    }
  }

  /**
   * What a session was created with never changes; its first start, which the lifetime cap counts from,
   * survives every resume; and its turns are only ever counted up.
   */
  lemma ColumnsForever(cfg: Config, steps: seq<Step>, more: seq<Step>, s: SessionId)
    requires s in Reached(cfg, steps).db.sessions
    ensures var row := Reached(cfg, steps).db.sessions[s];
            var later := Run(cfg, Reached(cfg, steps), more).db;
            && s in later.sessions
            && later.sessions[s].provider == row.provider && later.sessions[s].project == row.project
            && later.sessions[s].writeCapable == row.writeCapable && later.sessions[s].createdAt == row.createdAt
            && (row.startedAt.Some? ==> later.sessions[s].startedAt == row.startedAt)
            && later.sessions[s].turns >= row.turns
  {
    ReachedInv(cfg, steps);
    RunKeeps(cfg, Reached(cfg, steps), more);
  }

  /** Once finished, a session's status and finishing time are the same in every continuation. */
  lemma TerminalForever(cfg: Config, steps: seq<Step>, more: seq<Step>, s: SessionId)
    requires var db := Reached(cfg, steps).db; s in db.sessions && IsTerminal(db.sessions[s].status)
    ensures var row := Reached(cfg, steps).db.sessions[s];
            var later := Run(cfg, Reached(cfg, steps), more).db;
            && s in later.sessions
            && later.sessions[s].status == row.status
            && row.finishedAt.Some? && later.sessions[s].finishedAt == row.finishedAt
  {
    ReachedInv(cfg, steps);
    RunKeeps(cfg, Reached(cfg, steps), more);
  }

  /**
   * An ask is settled at most once; if it was resolved, the answer and the denial delivered are the
   * stored ones; no row is both answered and voided; and neither a settlement nor a closed row
   * changes in any continuation.
   */
  lemma AskSettlesOnce(cfg: Config, steps: seq<Step>, more: seq<Step>, r: RequestId)
    ensures var st := Reached(cfg, steps);
            var later := Run(cfg, st, more);
            var told := History(st.desk.settled, r);
            && |told| <= 1
            && (told != [] ==>
                  && r in st.db.requests && r !in st.desk.waiters && r !in st.desk.timers
                  && History(later.desk.settled, r) == told)
            && (told != [] && told[0].Resolved? ==>
                  && st.db.requests[r].answer == Some(told[0].answer)
                  && st.db.requests[r].denied == Some(told[0].denied))
            && (r in st.db.requests ==>
                  && !(st.db.requests[r].answeredAt.Some? && st.db.requests[r].voidedAt.Some?)
                  && (!IsOpen(st.db.requests[r]) ==>
                        r in later.db.requests && later.db.requests[r] == st.db.requests[r]))
  {
    ReachedInv(cfg, steps);
    RunKeeps(cfg, Reached(cfg, steps), more);
  }

  predicate WaitsFor(st: State, q: RequestId, s: SessionId) {
    q in st.desk.waiters && st.desk.waiters[q] == s
  }

  /**
   * A waiter can outlive its open row. A timeout voids every open row of the session but rejects only
   * its own ask, so it leaves somebody waiting on a closed row exactly when another ask of that
   * session was waiting.
   */
  lemma TimeoutStrandsTheOthers(cfg: Config, steps: seq<Step>, r: RequestId, now: Time)
    requires r in Reached(cfg, steps).desk.timers
    ensures var st := Reached(cfg, steps);
            var s := st.desk.timers[r];
            var after := Next(cfg, st, AskTimeout(r, now));
            && !WaitsFor(after, r, s)
            && (forall q :: WaitsFor(after, q, s) ==> q in after.db.requests && !IsOpen(after.db.requests[q]))
            && ((exists q :: WaitsFor(after, q, s)) <==> (exists q :: q != r && WaitsFor(st, q, s)))
  {
    ReachedInv(cfg, steps);
    var st := Reached(cfg, steps);
    InvFacts(cfg, st, 0, 0);
    TimeoutStep(cfg, st, r, now);
    WaitersOwn(st);
    WaitersAfterTimeout(st, r, now);
    RowsAfterTimeout(st, r, now);
    hide Inv, Reached, Next, TimeOut, DeskOk, RowsOk, WaitsFor, IsOpen;
  }

  lemma TimeoutStep(cfg: Config, st: State, r: RequestId, now: Time)
    ensures Next(cfg, st, AskTimeout(r, now)) == TimeOut(st, r, now)
  {
    hide TimeOut;
  }

  lemma WaitersOwn(st: State)
    requires DeskOk(st.db, st.desk)
    ensures forall q, s :: WaitsFor(st, q, s) ==> q in st.db.requests && st.db.requests[q].session == s
  {
  }

  lemma WaitersAfterTimeout(st: State, r: RequestId, now: Time)
    requires r in st.desk.timers
    ensures forall q, s :: WaitsFor(TimeOut(st, r, now), q, s) <==> q != r && WaitsFor(st, q, s)
  {
    hide VoidOpen;
  }

  lemma RowsAfterTimeout(st: State, r: RequestId, now: Time)
    requires r in st.desk.timers
    ensures var after := TimeOut(st, r, now);
            forall q :: q in st.db.requests && st.db.requests[q].session == st.desk.timers[r] ==>
              q in after.db.requests && !IsOpen(after.db.requests[q])
  {
  }
}
