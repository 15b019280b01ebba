/**
 * Who waits for an answer: every open request has its blocked worker, in every reachable state, and a
 * worker is left waiting on a closed request by one kind of step only.
 */
module SessionWaiting {
  import opened Options
  import opened Lifecycle
  import opened SessionRows
  import opened RequestBroker
  import opened SessionProtocol
  import opened SessionSafety
  import opened SessionTheorems

  /** Every open request has a waiter, and no interrupted session has one open. */
  ghost predicate Served(st: State) {
    forall r :: r in st.db.requests && IsOpen(st.db.requests[r]) ==>
      && r in st.desk.waiters && st.db.requests[r].session in st.db.sessions
      && !st.db.sessions[st.db.requests[r].session].status.Interrupted?
  }

  /** Every waiter waits on an open request. */
  ghost predicate Heard(st: State) {
    forall r :: r in st.desk.waiters ==> r in st.db.requests && IsOpen(st.db.requests[r])
  }

  /** Sessions stay, and outside `ids` none becomes interrupted. */
  ghost predicate NoneInterrupted(a: Db, b: Db, ids: set<SessionId>) {
    forall s :: s in a.sessions ==>
      s in b.sessions && (b.sessions[s].status.Interrupted? && s !in ids ==> a.sessions[s].status.Interrupted?)
  }

  // ---------------------------------------------------------------- what a step does to requests and waiters

  lemma SameRequests(a: State, b: State)
    requires b.db.requests == a.db.requests && b.desk.waiters == a.desk.waiters && NoneInterrupted(a.db, b.db, {})
    ensures (Served(a) ==> Served(b)) && (Heard(a) ==> Heard(b))
  {
  }

  lemma ClosedTogether(a: State, b: State, ids: set<SessionId>, now: Time)
    requires b.db.requests == VoidOpen(a.db.requests, ids, now) && NoneInterrupted(a.db, b.db, ids)
    requires b.desk.waiters == a.desk.waiters - WaitersOf(a.db.requests, a.desk, ids)
    ensures (Served(a) ==> Served(b)) && (Heard(a) ==> Heard(b))
  {
  }

  lemma ChangeInterruptsNone(db: Db, s: SessionId, next: Status, now: Time)
    requires !next.Interrupted?
    ensures NoneInterrupted(db, AfterChange(db, s, next, now), {})
  {
  }

  lemma NoneInterruptedTrans(a: Db, b: Db, c: Db)
    requires NoneInterrupted(a, b, {}) && NoneInterrupted(b, c, {})
    ensures NoneInterrupted(a, c, {})
  {
  }

  lemma NothingChanges(st: State)
    ensures NoneInterrupted(st.db, st.db, {})
  {
  }

  // ---------------------------------------------------------------- one lemma for each step

  lemma StartWaits(cfg: Config, st: State, step: Step)
    requires Inv(cfg, st) && step.Start?
    ensures (Served(st) ==> Served(StartSession(cfg, st, step))) && (Heard(st) ==> Heard(StartSession(cfg, st, step)))
  {
    hide Inv, StartSession, Served, Heard;
    var row := StartShape(cfg, st, step);
    SameRequests(st, StartSession(cfg, st, step));
  }

  lemma VolatileWaits(cfg: Config, st: State, step: Step)
    requires step.SendBegin? || step.LookupDone? || step.RecoveryReleased? || step.CancelInterrupted?
    ensures (Served(st) ==> Served(Next(cfg, st, step))) && (Heard(st) ==> Heard(Next(cfg, st, step)))
  {
    hide BeginSend, Rebuild, Served, Heard;
    NothingChanges(st);
    if step.SendBegin? {
      BeginSendTouchesNoRow(cfg, st, step);
    } else if step.LookupDone? && step.recovery in st.recoveries {
      RebuildTouchesNoRow(cfg, st, step.recovery, step.worker, step.spawn);
    }
    SameRequests(st, Next(cfg, st, step));
  }

  lemma ResumeWaits(cfg: Config, st: State, c: CallId, now: Time)
    requires Inv(cfg, st)
    ensures var after := ResumeSend(st, c, now); (Served(st) ==> Served(after)) && (Heard(st) ==> Heard(after))
  {
    hide Inv, Served, Heard, ReadyToResume, ResumesWith, SendWorks, AfterChange, NoneInterrupted;
    NothingChanges(st);
    var after := ResumeSend(st, c, now);
    if c in st.sends && ReadyToResume(st, st.sends[c]) && SendWorks(st, ResumesWith(st, st.sends[c])) {
      var s := st.sends[c].session;
      var counted := CountTurn(st.db, s);
      CountInterruptsNone(st.db, s);
      ChangeInterruptsNone(counted, s, Working, now);
      MoveKeepsRequests(counted, s, Working, now);
      NoneInterruptedTrans(st.db, counted, AfterChange(counted, s, Working, now));
    }
    SameRequests(st, after);
  }

  lemma CountInterruptsNone(db: Db, s: SessionId)
    ensures NoneInterrupted(db, CountTurn(db, s), {})
  {
  }

  lemma MoveKeepsRequests(db: Db, s: SessionId, next: Status, now: Time)
    requires !IsTerminal(next)
    ensures AfterChange(db, s, next, now).requests == db.requests
  {
  }

  /** A move of one session, and nothing else. */
  lemma MoveWaits(st: State, s: SessionId, next: Status, now: Time)
    requires !IsTerminal(next) && !next.Interrupted?
    ensures var after := st.(db := AfterChange(st.db, s, next, now));
            (Served(st) ==> Served(after)) && (Heard(st) ==> Heard(after))
  {
    ChangeInterruptsNone(st.db, s, next, now);
    MoveKeepsRequests(st.db, s, next, now);
    hide Served, Heard, AfterChange;
    SameRequests(st, st.(db := AfterChange(st.db, s, next, now)));
  }

  lemma AnsweredWaits(st: State, r: RequestId, answer: string, denied: bool, now: Time)
    requires r in st.db.requests && IsOpen(st.db.requests[r])
    ensures var after :=
        st.(db := AnswerRequest(st.db, r, answer, denied, now).db, desk := AnswerDesk(st.desk, r, answer, denied));
            (Served(st) ==> Served(after)) && (Heard(st) ==> Heard(after))
  {
  }

  lemma DeliverWaits(st: State, s: SessionId, r: RequestId, answer: string, negative: bool, now: Time)
    requires s in st.db.sessions && r in st.db.requests
    ensures var after := DeliverTo(st, s, r, answer, negative, now);
            (Served(st) ==> Served(after)) && (Heard(st) ==> Heard(after))
  {
    if IsOpen(st.db.requests[r]) {
      var denied := st.db.requests[r].kind.Approval? && negative;
      var mid := st.(db := AnswerRequest(st.db, r, answer, denied, now).db,
          desk := AnswerDesk(st.desk, r, answer, denied));
      AnsweredWaits(st, r, answer, denied, now);
      DeliveredShape(st, s, r, answer, negative, now);
      hide Served, Heard, AfterChange, AnswerDesk, AnswerRequest, IsOpen, DeliverTo;
      MoveWaits(mid, s, Working, now);
    }
  }

  lemma DeliveredShape(st: State, s: SessionId, r: RequestId, answer: string, negative: bool, now: Time)
    requires s in st.db.sessions && r in st.db.requests && IsOpen(st.db.requests[r])
    ensures var denied := st.db.requests[r].kind.Approval? && negative;
            var mid := st.(db := AnswerRequest(st.db, r, answer, denied, now).db,
                desk := AnswerDesk(st.desk, r, answer, denied));
            var after := DeliverTo(st, s, r, answer, negative, now);
            after == mid || after == mid.(db := AfterChange(mid.db, s, Working, now))
  {
    hide AfterChange, AnswerDesk;
  }

  lemma EndedWaits(st: State, ids: set<SessionId>, next: Status, now: Time)
    requires IsTerminal(next)
    ensures var after := EndedState(st, ids, next, now);
            (Served(st) ==> Served(after)) && (Heard(st) ==> Heard(after))
  {
    EndInterruptsNone(st.db, ids, next, now);
    hide Served, Heard, VoidOpen, NoneInterrupted;
    ClosedTogether(st, EndedState(st, ids, next, now), ids, now);
  }

  lemma EndInterruptsNone(db: Db, ids: set<SessionId>, next: Status, now: Time)
    requires IsTerminal(next)
    ensures NoneInterrupted(db, Ended(db, ids, next, now), ids)
  {
  }

  lemma FinishCancelWaits(st: State, s: SessionId, now: Time)
    ensures var after := FinishCancel(st, s, now);
            (Served(st) ==> Served(after)) && (Heard(st) ==> Heard(after))
  {
    if s in st.db.sessions {
      CancelledTables(st, s, now);
      hide Served, Heard, VoidOpen, NoneInterrupted, FinishCancel, WaitersOf;
      ClosedTogether(st, FinishCancel(st, s, now), {s}, now);
    }
  }

  lemma CancelledTables(st: State, s: SessionId, now: Time)
    requires s in st.db.sessions
    ensures var after := FinishCancel(st, s, now);
            && after.db.requests == VoidOpen(st.db.requests, {s}, now) && NoneInterrupted(st.db, after.db, {s})
            && after.desk.waiters == st.desk.waiters - WaitersOf(st.db.requests, st.desk, {s})
  {
    hide VoidOpen, WaitersOf, DropLocks;
    VoidTwice(st.db.requests, {s}, now);
    var quiet := Abandon(st, s, now);
    assert quiet.desk.waiters == st.desk.waiters - WaitersOf(st.db.requests, st.desk, {s});
    hide Abandon;
    CancelledRows(quiet.db, s, now);
  }

  lemma CancelledRows(db: Db, s: SessionId, now: Time)
    requires s in db.sessions
    ensures var after := AfterChange(db, s, Cancelled, now);
            && NoneInterrupted(db, after, {s})
            && (after.requests == db.requests || after.requests == VoidOpen(db.requests, {s}, now))
    ensures Live(db, s) ==> AfterChange(db, s, Cancelled, now).requests == VoidOpen(db.requests, {s}, now)
  {
    hide VoidOpen, DropLocks;
  }

  lemma CancelWaits(cfg: Config, st: State, step: Step)
    requires step.CancelBegin? || step.CancelDisposed?
    ensures (Served(st) ==> Served(Next(cfg, st, step))) && (Heard(st) ==> Heard(Next(cfg, st, step)))
  {
    hide FinishCancel;
    if step.CancelBegin? {
      FinishCancelWaits(st, step.session, step.now);
    } else if step.call in st.cancels {
      var s := st.cancels[step.call].session;
      FinishCancelWaits(st.(workers := st.workers - {s}, cancels := st.cancels - {step.call}), s, step.now);
    }
  }

  lemma AskWaits(cfg: Config, st: State, w: WorkerId, kind: RequestKind, r: RequestId, now: Time)
    ensures var after := Ask(st, w, kind, r, now); (Served(st) ==> Served(after)) && (Heard(st) ==> Heard(after))
  {
    if CallsBack(st, w) && r !in st.db.requests {
      var s, next := st.processes[w].session, if kind.Question? then NeedsInput else AwaitingApproval;
      AskMoves(st.db, s, next, now);
      hide Served, Heard, AfterChange, ChangeStatus;
      MoveWaits(st, s, next, now);
      if ChangeStatus(st.db, s, next, now).Updated? {
        OneMoreAsk(st.(db := AfterChange(st.db, s, next, now)), Ask(st, w, kind, r, now), r, NewRequest(s, kind, now));
      }
    }
  }

  lemma AskMoves(db: Db, s: SessionId, next: Status, now: Time)
    requires !IsTerminal(next) && !next.Interrupted?
    ensures var c := ChangeStatus(db, s, next, now);
            c.Updated? ==>
              && c.db == AfterChange(db, s, next, now) && c.db.requests == db.requests
              && s in c.db.sessions && !c.db.sessions[s].status.Interrupted?
  {
    hide VoidOpen, DropLocks;
  }

  lemma OneMoreAsk(a: State, b: State, r: RequestId, row: RequestRow)
    requires r !in a.db.requests && b.db.requests == a.db.requests[r := row] && b.db.sessions == a.db.sessions
    requires row.session in a.db.sessions && !a.db.sessions[row.session].status.Interrupted? && IsOpen(row)
    requires b.desk.waiters == a.desk.waiters[r := row.session]
    ensures (Served(a) ==> Served(b)) && (Heard(a) ==> Heard(b))
  {
  }

  lemma RestartWaits(cfg: Config, st: State, now: Time)
    requires Inv(cfg, st)
    ensures var after := RestartProcess(st, now); (Served(st) ==> Served(after)) && Heard(after)
  {
    InvFacts(cfg, st, 0, 0);
    hide Inv, DeskOk, Recovered;
    if Served(st) {
      NothingStaysOpen(st, now);
    }
    hide RowsOk;
  }

  /** Startup voids what the sessions it interrupts had open, and the others had nothing open. */
  lemma NothingStaysOpen(st: State, now: Time)
    requires RowsOk(st.db) && Served(st)
    ensures var requests := Recovered(st.db, now).requests; forall r :: r in requests ==> !IsOpen(requests[r])
  {
    hide DropLocks, WithStatus;
    forall r | r in st.db.requests && IsOpen(st.db.requests[r])
      ensures st.db.requests[r].session in Resumable(st.db)
    {
      assert Live(st.db, st.db.requests[r].session);
    }
    hide Resumable, RowsOk, Served;
  }

  lemma TimeoutServes(st: State, r: RequestId, now: Time)
    requires DeskOk(st.db, st.desk)
    ensures Served(st) ==> Served(TimeOut(st, r, now))
  {
  }

  /** Every step keeps every open request served; every step but a timeout keeps every waiter on an open one. */
  lemma StepWaits(cfg: Config, st: State, step: Step)
    requires Inv(cfg, st)
    ensures Served(st) ==> Served(Next(cfg, st, step))
    ensures Heard(st) && !step.AskTimeout? ==> Heard(Next(cfg, st, step))
  {
    hide Inv, Served, Heard, StartSession, BeginSend, FinishLookup, ReleaseRecovery, ResumeSend, DeliverTo, BeginCancel,
         InterruptedCancel, DisposedCancel, AfterChange, Ask, TimeOut, RestartProcess, Retire, EndedState, CallsBack;
    match step
    case Start(_, _, _, _, _, _, _) => StartWaits(cfg, st, step);
    case SendBegin(_, _, _, _, _, _) => VolatileWaits(cfg, st, step);
    case LookupDone(_, _, _) => VolatileWaits(cfg, st, step);
    case RecoveryReleased(_) => VolatileWaits(cfg, st, step);
    case SendResume(c, now) => ResumeWaits(cfg, st, c, now);
    case Respond(s, _, r, answer, negative, now) =>
      if s in st.db.sessions && r in st.db.requests {
        DeliverWaits(st, s, r, answer, negative, now);
      }
    case CancelBegin(_, _, _) => CancelWaits(cfg, st, step);
    case CancelInterrupted(_) => VolatileWaits(cfg, st, step);
    case CancelDisposed(_, _) => CancelWaits(cfg, st, step);
    case TurnComplete(w, now) =>
      if CallsBack(st, w) {
        TurnWaits(st, w, now);
      }
    case WorkerFailed(w, now) => FailWaits(st, w, now);
    case AskUser(w, kind, r, now) => AskWaits(cfg, st, w, kind, r, now);
    case AskTimeout(r, now) =>
      InvFacts(cfg, st, 0, 0);
      TimeoutServes(st, r, now);
    case ClearUnanswered(r, now) =>
      if r in st.db.requests {
        MoveWaits(st, st.db.requests[r].session, Working, now);
      }
    case Sweep(now) => SweepWaits(cfg, st, now);
    case Restart(now) => RestartWaits(cfg, st, now);
  }

  lemma TurnWaits(st: State, w: WorkerId, now: Time)
    ensures var after := FinishTurn(st, w, now); (Served(st) ==> Served(after)) && (Heard(st) ==> Heard(after))
  {
    if CallsBack(st, w) {
      MoveWaits(st, st.processes[w].session, Idle, now);
      hide Served, Heard, AfterChange;
    }
  }

  lemma FailWaits(st: State, w: WorkerId, now: Time)
    ensures CallsBack(st, w) ==>
              var after := Fail(st, st.processes[w].session, now);
              (Served(st) ==> Served(after)) && (Heard(st) ==> Heard(after))
  {
    if CallsBack(st, w) {
      EndedWaits(st, {st.processes[w].session}, Failed, now);
      RetireIsEnded(st, {st.processes[w].session}, now);
      hide Served, Heard, Retire, EndedState;
    }
  }

  lemma SweepWaits(cfg: Config, st: State, now: Time)
    ensures var after := Retire(st, Expired(cfg, st.db, now), now);
            (Served(st) ==> Served(after)) && (Heard(st) ==> Heard(after))
  {
    EndedWaits(st, Expired(cfg, st.db, now), Failed, now);
    RetireIsEnded(st, Expired(cfg, st.db, now), now);
    hide Served, Heard, Retire, EndedState;
  }

  lemma RetireIsEnded(st: State, ids: set<SessionId>, now: Time)
    ensures Retire(st, ids, now) == EndedState(st, ids, Failed, now)
  {
  }

  lemma {:induction false} RunServes(cfg: Config, steps: seq<Step>)
    ensures Served(Reached(cfg, steps))
  {
    if steps == [] {
      assert Reached(cfg, steps) == INITIAL;
    } else {
      hide Served, Next;
      var before := steps[..|steps| - 1];
      RunServes(cfg, before);
      ReachedInv(cfg, before);
      StepWaits(cfg, Reached(cfg, before), steps[|steps| - 1]);
    }
  }

  // ---------------------------------------------------------------- promises

  /** In every reachable state an open request has a blocked worker: a waiter, an armed timer, nothing settled yet. */
  lemma OpenRequestsAreAwaited(cfg: Config, steps: seq<Step>, r: RequestId)
    requires var db := Reached(cfg, steps).db; r in db.requests && IsOpen(db.requests[r])
    ensures var st := Reached(cfg, steps);
            && r in st.desk.waiters && st.desk.waiters[r] == st.db.requests[r].session
            && r in st.desk.timers && History(st.desk.settled, r) == []
            && Live(st.db, st.db.requests[r].session)
  {
    RunServes(cfg, steps);
    ReachedInv(cfg, steps);
    AwaitedFacts(cfg, Reached(cfg, steps), r);
  }

  lemma AwaitedFacts(cfg: Config, st: State, r: RequestId)
    requires Inv(cfg, st) && r in st.desk.waiters
    ensures r in st.db.requests && st.desk.waiters[r] == st.db.requests[r].session
    ensures r in st.desk.timers && r !in st.desk.settled && Live(st.db, st.db.requests[r].session)
  {
    InvFacts(cfg, st, 0, r);
    hide Inv;
  }

  /**
   * An answer to an open request of the session reaches its worker: the ask resolves, once, with the
   * stored answer and denial; an answer to a closed one reaches nobody and changes nothing.
   */
  lemma AnswersReachTheWorker(cfg: Config, steps: seq<Step>, s: SessionId, r: RequestId,
                              answer: string, negative: bool, now: Time)
    requires var db := Reached(cfg, steps).db; r in db.requests && db.requests[r].session == s
    ensures var st := Reached(cfg, steps);
            var after := Next(cfg, st, Respond(s, true, r, answer, negative, now));
            var denied := st.db.requests[r].kind.Approval? && negative;
            if IsOpen(st.db.requests[r]) then
              && History(after.desk.settled, r) == [Resolved(answer, denied)]
              && r !in after.desk.waiters && r !in after.desk.timers && r in after.db.requests
              && after.db.requests[r].answer == Some(answer) && after.db.requests[r].denied == Some(denied)
            else after == st
  {
    ReachedInv(cfg, steps);
    var st := Reached(cfg, steps);
    InvFacts(cfg, st, s, r);
    hide Inv, Reached, DeliverTo;
    if IsOpen(st.db.requests[r]) {
      OpenRequestsAreAwaited(cfg, steps, r);
      AnswerSettles(st, s, r, answer, negative, now);
    } else {
      ClosedIsRefused(st, s, r, answer, negative, now);
    }
  }

  lemma AnswerSettles(st: State, s: SessionId, r: RequestId, answer: string, negative: bool, now: Time)
    requires s in st.db.sessions && r in st.db.requests && IsOpen(st.db.requests[r])
    requires r in st.desk.waiters && History(st.desk.settled, r) == []
    ensures var after := DeliverTo(st, s, r, answer, negative, now);
            var denied := st.db.requests[r].kind.Approval? && negative;
            && History(after.desk.settled, r) == [Resolved(answer, denied)]
            && r !in after.desk.waiters && r !in after.desk.timers
            && r in after.db.requests
            && after.db.requests[r].answer == Some(answer) && after.db.requests[r].denied == Some(denied)
  {
    hide AfterChange, AnswerDesk, AnswerRequest, History;
    var denied := st.db.requests[r].kind.Approval? && negative;
    DeskSettles(st.desk, r, answer, denied);
    RowAnswered(st.db, r, answer, denied, now);
    MoveKeepsRequests(AnswerRequest(st.db, r, answer, denied, now).db, s, Working, now);
  }

  lemma DeskSettles(desk: Desk, r: RequestId, answer: string, denied: bool)
    requires r in desk.waiters && History(desk.settled, r) == []
    ensures var after := AnswerDesk(desk, r, answer, denied);
            && History(after.settled, r) == [Resolved(answer, denied)]
            && r !in after.waiters && r !in after.timers
  {
  }

  lemma RowAnswered(db: Db, r: RequestId, answer: string, denied: bool, now: Time)
    requires r in db.requests && IsOpen(db.requests[r])
    ensures var a := AnswerRequest(db, r, answer, denied, now);
            && a.Answered? && r in a.db.requests
            && a.db.requests[r].answer == Some(answer) && a.db.requests[r].denied == Some(denied)
  {
  }

  lemma ClosedIsRefused(st: State, s: SessionId, r: RequestId, answer: string, negative: bool, now: Time)
    requires s in st.db.sessions && r in st.db.requests && !IsOpen(st.db.requests[r])
    ensures DeliverTo(st, s, r, answer, negative, now) == st
  {
  }

  /**
   * Exactly which steps leave somebody waiting on a closed request, from a state in which nobody is:
   * the timeout of an ask whose session has another one waiting.
   */
  lemma StrandedExactlyByTimeout(cfg: Config, steps: seq<Step>, step: Step)
    requires Heard(Reached(cfg, steps))
    ensures var st := Reached(cfg, steps);
            (!Heard(Next(cfg, st, step))
             <==> step.AskTimeout? && step.request in st.desk.timers
                  && exists q :: q != step.request && WaitsFor(st, q, st.desk.timers[step.request]))
  {
    var st := Reached(cfg, steps);
    ReachedInv(cfg, steps);
    StepWaits(cfg, st, step);
    if step.AskTimeout? {
      InvFacts(cfg, st, 0, 0);
      hide Inv, Reached;
      TimeoutHears(st, step.request, step.now);
    }
  }

  lemma TimeoutHears(st: State, r: RequestId, now: Time)
    requires DeskOk(st.db, st.desk) && Heard(st)
    ensures !Heard(TimeOut(st, r, now))
       <==> r in st.desk.timers && exists q :: q != r && WaitsFor(st, q, st.desk.timers[r])
  {
    var after := TimeOut(st, r, now);
    if r in st.desk.timers {
      var s := st.desk.timers[r];
      if q :| q != r && WaitsFor(st, q, s) {
        assert q in after.desk.waiters && !IsOpen(after.db.requests[q]);
      } else {
        forall q | q in after.desk.waiters ensures IsOpen(after.db.requests[q]) {
          assert q != r && !WaitsFor(st, q, s);
        }
      }
    }
  }

  lemma OneMoreStep(cfg: Config, steps: seq<Step>, step: Step)
    ensures Reached(cfg, steps + [step]) == Next(cfg, Reached(cfg, steps), step)
  {
    assert (steps + [step])[..|steps|] == steps;
  }

  const BEGIN := Start(0, Claude, None, Inspect, 0, SpawnOk, 0)

  /** A session at work with one worker and no requests yet. */
  predicate AtWork(st: State) {
    && st.db.sessions.Keys == {0} && st.db.sessions[0].status == Working
    && st.processes == map[0 := Process(0, true, false)]
    && st.db.requests == map[] && st.desk == EMPTY_DESK
  }

  lemma BegunWork(cfg: Config)
    ensures AtWork(Reached(cfg, [BEGIN]))
  {
    OneMoreStep(cfg, [], BEGIN);
    assert [] + [BEGIN] == [BEGIN] && Reached(cfg, []) == INITIAL;
    hide Reached;
    StartWorkingShape(cfg, INITIAL, BEGIN);
    hide StartSession;
  }

  /** A question of worker 0, whose session is 0 and at work or waiting already. */
  lemma Asks(st: State, r: RequestId, now: Time)
    requires 0 in st.db.sessions && (st.db.sessions[0].status.Working? || st.db.sessions[0].status.NeedsInput?)
    requires st.processes == map[0 := Process(0, true, false)] && r !in st.db.requests
    ensures var after := Ask(st, 0, Question, r, now);
            && 0 in after.db.sessions && after.db.sessions[0].status.NeedsInput? && after.processes == st.processes
            && after.db.requests == st.db.requests[r := NewRequest(0, Question, now)]
            && after.desk.waiters == st.desk.waiters[r := 0] && after.desk.timers == st.desk.timers[r := 0]
  {
    hide VoidOpen, DropLocks, WithStatus;
    AskMoves(st.db, 0, NeedsInput, now);
    MovedStatus(st.db, 0, NeedsInput, now);
  }

  lemma MovedStatus(db: Db, s: SessionId, next: Status, now: Time)
    requires s in db.sessions && CanTransition(db.sessions[s].status, next)
    ensures var c := ChangeStatus(db, s, next, now); c.Updated? && s in c.db.sessions && c.db.sessions[s].status == next
  {
    hide VoidOpen, DropLocks;
  }

  lemma FirstTimesOut(st: State)
    requires 0 in st.desk.timers && st.desk.timers[0] == 0
    requires 1 in st.desk.waiters && 1 in st.db.requests && st.db.requests[1].session == 0
    ensures var after := TimeOut(st, 0, 3);
            1 in after.desk.waiters && 1 in after.db.requests && !IsOpen(after.db.requests[1])
  {
  }

  /** A run that leaves a worker waiting on a closed request: two asks, and the timeout of the first. */
  lemma SomebodyIsStranded(cfg: Config)
    ensures exists steps, q :: var st := Reached(cfg, steps);
              q in st.desk.waiters && q in st.db.requests && !IsOpen(st.db.requests[q])
  {
    hide Reached, Ask, TimeOut, IsOpen;
    BegunWork(cfg);
    var asked := [BEGIN] + [AskUser(0, Question, 0, 1)];
    OneMoreStep(cfg, [BEGIN], AskUser(0, Question, 0, 1));
    Asks(Reached(cfg, [BEGIN]), 0, 1);
    var twice := asked + [AskUser(0, Question, 1, 2)];
    OneMoreStep(cfg, asked, AskUser(0, Question, 1, 2));
    Asks(Reached(cfg, asked), 1, 2);
    OneMoreStep(cfg, twice, AskTimeout(0, 3));
    FirstTimesOut(Reached(cfg, twice));
    var st := Reached(cfg, twice + [AskTimeout(0, 3)]);
    assert 1 in st.desk.waiters && 1 in st.db.requests && !IsOpen(st.db.requests[1]);
  }
}
