/**
 * What every reachable state of the work-session protocol keeps.
 */
module SessionSafety {
  import opened Options
  import opened Lifecycle
  import opened SessionRows
  import opened RequestBroker
  import opened SessionProtocol

  /** Lock rows and live writers of a project are the same thing. */
  ghost predicate LocksMatch(db: Db) {
    && (forall p :: p in db.locks ==> WritesTo(db, db.locks[p], p))
    && (forall s, p :: WritesTo(db, s, p) ==> p in db.locks && db.locks[p] == s)
  }

  ghost predicate RowsOk(db: Db) {
    && (forall s :: s in db.sessions ==>
          (db.sessions[s].finishedAt.Some? <==> IsTerminal(db.sessions[s].status)))
    && (forall r :: r in db.requests ==>
          var row := db.requests[r];
          && row.session in db.sessions
          && !(row.answeredAt.Some? && row.voidedAt.Some?)
          && (row.answeredAt.Some? ==> row.answer.Some? && row.denied.Some?)
          && (IsOpen(row) ==> Live(db, row.session)))
  }

  /** The settlement of an ask agrees with its row. */
  predicate SettledAs(row: RequestRow, how: Settlement) {
    how.Resolved? ==> row.answeredAt.Some? && row.answer == Some(how.answer) && row.denied == Some(how.denied)
  }

  ghost predicate DeskOk(db: Db, desk: Desk) {
    && desk.waiters == desk.timers
    && (forall r :: r in desk.waiters ==>
          && r in db.requests && db.requests[r].session == desk.waiters[r]
          && Live(db, desk.waiters[r]) && r !in desk.settled)
    && (forall r :: r in desk.settled ==>
          r in db.requests && |desk.settled[r]| == 1 && SettledAs(db.requests[r], desk.settled[r][0]))
  }

  ghost predicate WorkersOk(st: State) {
    && (forall s :: s in st.workers ==>
          && Live(st.db, s) && st.workers[s] in st.processes
          && st.processes[st.workers[s]].session == s && st.processes[st.workers[s]].started)
    && (forall w :: w in st.processes && st.processes[w].started && !st.processes[w].disposed ==>
          var s := st.processes[w].session; s in st.workers && st.workers[s] == w)
    && (forall w :: w in st.processes ==> st.processes[w].session in st.db.sessions)
  }

  ghost predicate StartedFor(st: State, w: WorkerId, s: SessionId) {
    w in st.processes && st.processes[w].session == s && st.processes[w].started
  }

  ghost predicate RecoveriesOk(st: State) {
    && (forall s :: s in st.inFlight ==>
          st.inFlight[s] in st.recoveries && st.recoveries[st.inFlight[s]].session == s)
    && (forall r :: r in st.recoveries ==>
          var rec := st.recoveries[r];
          && rec.session in st.db.sessions
          && (!rec.released <==> rec.session in st.inFlight && st.inFlight[rec.session] == r)
          && (rec.result.Lookup? ==> !rec.released && rec.session !in st.workers)
          && (rec.result.Built? ==> StartedFor(st, rec.result.worker, rec.session)))
  }

  ghost predicate CallsOk(st: State) {
    && (forall c :: c in st.sends ==>
          var call := st.sends[c];
          && call.session in st.db.sessions
          && (call.target.OnWorker? ==> StartedFor(st, call.target.worker, call.session))
          && (call.target.OnRecovery? ==>
                call.target.recovery in st.recoveries && st.recoveries[call.target.recovery].session == call.session))
    && (forall c :: c in st.cancels ==>
          var call := st.cancels[c];
          && StartedFor(st, call.worker, call.session)
          && (call.disposing ==> st.processes[call.worker].disposed)
          && (Live(st.db, call.session) ==> call.session in st.workers && st.workers[call.session] == call.worker))
  }

  ghost predicate Inv(cfg: Config, st: State) {
    && (if cfg.enforceLock then LocksMatch(st.db) else st.db.locks == map[])
    && RowsOk(st.db)
    && DeskOk(st.db, st.desk)
    && WorkersOk(st)
    && RecoveriesOk(st)
    && CallsOk(st)
  }

  lemma InitialInv(cfg: Config)
    ensures Inv(cfg, INITIAL)
  {
  }

  // ---------------------------------------------------------------- changes to the tables

  /** The same sessions are alive and write to the same projects, before and after. */
  ghost predicate SameLife(a: Db, b: Db) {
    && a.sessions.Keys == b.sessions.Keys
    && (forall s :: s in a.sessions ==>
          && IsTerminal(a.sessions[s].status) == IsTerminal(b.sessions[s].status)
          && a.sessions[s].finishedAt == b.sessions[s].finishedAt
          && a.sessions[s].writeCapable == b.sessions[s].writeCapable
          && a.sessions[s].project == b.sessions[s].project)
  }

  lemma LiveMove(db: Db, s: SessionId, next: Status, now: Time)
    requires !IsTerminal(next)
    ensures var moved := AfterChange(db, s, next, now);
            SameLife(db, moved) && moved.requests == db.requests && moved.locks == db.locks
  {
    hide VoidOpen, DropLocks;
  }

  lemma SameLifeTables(a: Db, b: Db)
    requires SameLife(a, b) && a.locks == b.locks && a.requests == b.requests
    ensures LocksMatch(a) ==> LocksMatch(b)
    ensures RowsOk(a) ==> RowsOk(b)
    ensures forall s :: Live(a, s) <==> Live(b, s)
  {
    forall s, p ensures WritesTo(a, s, p) <==> WritesTo(b, s, p) {
    }
  }

  lemma SameLifeInv(cfg: Config, st: State, b: Db)
    requires Inv(cfg, st) && SameLife(st.db, b) && b.locks == st.db.locks && b.requests == st.db.requests
    ensures Inv(cfg, st.(db := b))
  {
    SameLifeTables(st.db, b);
    hide LocksMatch, RowsOk;
    SameLifeState(st, b);
    hide SameLife, DeskOk, WorkersOk, RecoveriesOk, CallsOk;
  }

  lemma SameLifeState(st: State, b: Db)
    requires SameLife(st.db, b) && b.requests == st.db.requests && DeskOk(st.db, st.desk)
    requires WorkersOk(st) && RecoveriesOk(st) && CallsOk(st)
    ensures DeskOk(b, st.desk) && WorkersOk(st.(db := b)) && RecoveriesOk(st.(db := b)) && CallsOk(st.(db := b))
  {
    SameLifeDesk(st.db, b, st.desk);
    SameLifeWorkers(st, b);
    SameLifeCalls(st, b);
    hide DeskOk, WorkersOk, CallsOk;
  }

  lemma SameLifeDesk(a: Db, b: Db, desk: Desk)
    requires SameLife(a, b) && b.requests == a.requests && DeskOk(a, desk)
    ensures DeskOk(b, desk)
  {
  }

  lemma SameLifeWorkers(st: State, b: Db)
    requires SameLife(st.db, b) && WorkersOk(st)
    ensures WorkersOk(st.(db := b))
  {
  }

  lemma SameLifeCalls(st: State, b: Db)
    requires SameLife(st.db, b) && CallsOk(st)
    ensures CallsOk(st.(db := b))
  {
  }

  /** The tables after the sessions `ids` end with status `next`. */
  function Ended(db: Db, ids: set<SessionId>, next: Status, now: Time): Db {
    Db(map s | s in db.sessions :: if s in ids then WithStatus(db.sessions[s], next, now) else db.sessions[s],
       VoidOpen(db.requests, ids, now),
       DropLocks(db.locks, ids))
  }

  lemma EndedLife(db: Db, ids: set<SessionId>, next: Status, now: Time)
    requires IsTerminal(next)
    ensures forall s :: Live(Ended(db, ids, next, now), s) <==> Live(db, s) && s !in ids
    ensures forall s, p :: WritesTo(Ended(db, ids, next, now), s, p) <==> WritesTo(db, s, p) && s !in ids
  {
  }

  lemma EndedLocks(db: Db, ids: set<SessionId>, next: Status, now: Time)
    requires IsTerminal(next) && LocksMatch(db)
    ensures LocksMatch(Ended(db, ids, next, now))
  {
    EndedLife(db, ids, next, now);
  }

  lemma EndedRows(db: Db, ids: set<SessionId>, next: Status, now: Time)
    requires IsTerminal(next) && RowsOk(db)
    ensures RowsOk(Ended(db, ids, next, now))
  {
    EndedLife(db, ids, next, now);
  }

  lemma EndedDesk(db: Db, desk: Desk, ids: set<SessionId>, next: Status, now: Time)
    requires IsTerminal(next) && RowsOk(db) && DeskOk(db, desk)
    ensures DeskOk(Ended(db, ids, next, now), AbandonDesk(db.requests, desk, ids))
  {
    EndedLife(db, ids, next, now);
  }

  /** Ending sessions: their workers leave the map and, if still running, are disposed. */
  function EndedState(st: State, ids: set<SessionId>, next: Status, now: Time): State {
    st.(db := Ended(st.db, ids, next, now),
        workers := st.workers - ids,
        processes := DisposeAll(st.processes, EntriesOf(st.workers, ids)),
        desk := AbandonDesk(st.db.requests, st.desk, ids))
  }

  lemma EndedWorkers(st: State, ids: set<SessionId>, next: Status, now: Time)
    requires WorkersOk(st) && IsTerminal(next)
    ensures WorkersOk(EndedState(st, ids, next, now))
  {
    EndedLife(st.db, ids, next, now);
    var after := EndedState(st, ids, next, now);
    forall s | s in after.workers
      ensures Live(after.db, s) && StartedFor(after, after.workers[s], s)
    {
      assert s in st.workers && s !in ids;
    }
    forall w | w in after.processes && after.processes[w].started && !after.processes[w].disposed
      ensures var s := after.processes[w].session; s in after.workers && after.workers[s] == w
    {
      var s := st.processes[w].session;
      assert s in st.workers && st.workers[s] == w;
      assert s in ids ==> w in EntriesOf(st.workers, ids);
    }
  }

  lemma EndedRecoveries(st: State, ids: set<SessionId>, next: Status, now: Time)
    requires RecoveriesOk(st)
    ensures RecoveriesOk(EndedState(st, ids, next, now))
  {
  }

  lemma EndedCalls(st: State, ids: set<SessionId>, next: Status, now: Time)
    requires CallsOk(st) && IsTerminal(next)
    ensures CallsOk(EndedState(st, ids, next, now))
  {
    EndedLife(st.db, ids, next, now);
  }

  lemma EndedInv(cfg: Config, st: State, ids: set<SessionId>, next: Status, now: Time)
    requires Inv(cfg, st) && IsTerminal(next)
    ensures Inv(cfg, EndedState(st, ids, next, now))
  {
    if cfg.enforceLock {
      EndedLocks(st.db, ids, next, now);
    }
    EndedRows(st.db, ids, next, now);
    EndedDesk(st.db, st.desk, ids, next, now);
    EndedWorkers(st, ids, next, now);
    EndedRecoveries(st, ids, next, now);
    EndedCalls(st, ids, next, now);
  }

  lemma RetireInv(cfg: Config, st: State, ids: set<SessionId>, now: Time)
    requires Inv(cfg, st)
    ensures Inv(cfg, Retire(st, ids, now))
  {
    EndedInv(cfg, st, ids, Failed, now);
  }

  // ---------------------------------------------------------------- one lemma for each step

  /** Two voidings of the same session are one. */
  lemma VoidTwice(requests: map<RequestId, RequestRow>, ids: set<SessionId>, now: Time)
    ensures VoidOpen(VoidOpen(requests, ids, now), ids, now) == VoidOpen(requests, ids, now)
  {
  }

  /** Abandoning a finished session finds nothing left to void or reject. */
  lemma AbandonFinished(cfg: Config, st: State, s: SessionId, now: Time)
    requires Inv(cfg, st) && !Live(st.db, s)
    ensures Abandon(st, s, now) == st
  {
    assert VoidOpen(st.db.requests, {s}, now) == st.db.requests;
    var none := WaitersOf(st.db.requests, st.desk, {s});
    assert none == {};
    var desk := RejectAll(st.desk, none);
    assert desk.waiters == st.desk.waiters && desk.timers == st.desk.timers && desk.settled == st.desk.settled;
  }

  /** Cancelling a live session whose worker, if any, is already gone ends it like a failure does. */
  lemma CancelEnds(st: State, s: SessionId, now: Time)
    requires Live(st.db, s) && s !in st.workers
    ensures FinishCancel(st, s, now) == EndedState(st, {s}, Cancelled, now)
  {
    var a, b := FinishCancel(st, s, now), EndedState(st, {s}, Cancelled, now);
    VoidTwice(st.db.requests, {s}, now);
    assert a.db.sessions == b.db.sessions;
    assert a.db.requests == b.db.requests;
    assert a.db.locks == b.db.locks;
    assert EntriesOf(st.workers, {s}) == {};
    assert a.workers == b.workers;
    assert a.processes == b.processes;
  }

  lemma FinishCancelInv(cfg: Config, st: State, s: SessionId, now: Time)
    requires Inv(cfg, st) && s !in st.workers
    ensures Inv(cfg, FinishCancel(st, s, now))
  {
    if Live(st.db, s) {
      CancelEnds(st, s, now);
      EndedInv(cfg, st, {s}, Cancelled, now);
    } else {
      AbandonFinished(cfg, st, s, now);
    }
  }

  lemma BeginCancelInv(cfg: Config, st: State, c: CallId, s: SessionId, now: Time)
    requires Inv(cfg, st)
    ensures Inv(cfg, BeginCancel(st, c, s, now))
  {
    if Live(st.db, s) && c !in st.cancels && s !in st.workers {
      FinishCancelInv(cfg, st, s, now);
    }
  }

  /** The parts of the invariant read only some components; changing the others leaves them true. */
  lemma FrameWorkers(a: State, b: State)
    requires b.db == a.db && b.workers == a.workers && b.processes == a.processes
    ensures WorkersOk(a) ==> WorkersOk(b)
  {
  }

  lemma FrameRecoveries(a: State, b: State)
    requires b.db == a.db && b.workers == a.workers && b.processes == a.processes
    requires b.inFlight == a.inFlight && b.recoveries == a.recoveries
    ensures RecoveriesOk(a) ==> RecoveriesOk(b)
  {
  }

  lemma InterruptedWorkers(st: State, c: CallId)
    requires WorkersOk(st) && CallsOk(st)
    ensures WorkersOk(InterruptedCancel(st, c))
  {
  }

  lemma InterruptedRecoveries(st: State, c: CallId)
    requires RecoveriesOk(st)
    ensures RecoveriesOk(InterruptedCancel(st, c))
  {
  }

  lemma InterruptedCalls(st: State, c: CallId)
    requires CallsOk(st)
    ensures CallsOk(InterruptedCancel(st, c))
  {
  }

  lemma InterruptedCancelInv(cfg: Config, st: State, c: CallId)
    requires Inv(cfg, st)
    ensures Inv(cfg, InterruptedCancel(st, c))
  {
    hide LocksMatch, RowsOk, DeskOk, WorkersOk, RecoveriesOk, CallsOk;
    InterruptedWorkers(st, c);
    InterruptedRecoveries(st, c);
    InterruptedCalls(st, c);
  }

  lemma DropCancel(st: State, c: CallId)
    requires CallsOk(st)
    ensures CallsOk(st.(cancels := st.cancels - {c}))
  {
  }

  lemma DropSend(st: State, c: CallId)
    requires CallsOk(st)
    ensures CallsOk(st.(sends := st.sends - {c}))
  {
  }

  lemma DropCallsInv(cfg: Config, st: State, c: CallId)
    requires Inv(cfg, st)
    ensures Inv(cfg, st.(cancels := st.cancels - {c}))
    ensures Inv(cfg, st.(sends := st.sends - {c}))
  {
    hide LocksMatch, RowsOk, DeskOk, WorkersOk, RecoveriesOk, CallsOk;
    DropCancel(st, c);
    DropSend(st, c);
    FrameWorkers(st, st.(cancels := st.cancels - {c}));
    FrameRecoveries(st, st.(cancels := st.cancels - {c}));
    FrameWorkers(st, st.(sends := st.sends - {c}));
    FrameRecoveries(st, st.(sends := st.sends - {c}));
  }

  /** Deleting the entry of a worker that is already disposed before ending its session changes nothing. */
  lemma ClearedFirst(st: State, s: SessionId, now: Time)
    requires s in st.workers && st.workers[s] in st.processes && st.processes[st.workers[s]].disposed
    ensures EndedState(st.(workers := st.workers - {s}), {s}, Cancelled, now) == EndedState(st, {s}, Cancelled, now)
  {
    var cleared := st.(workers := st.workers - {s});
    assert EntriesOf(st.workers, {s}) == {st.workers[s]};
    assert EntriesOf(cleared.workers, {s}) == {};
    assert DisposeAll(st.processes, {st.workers[s]}) == DisposeAll(st.processes, {});
    assert cleared.workers - {s} == st.workers - {s};
  }

  lemma DisposedCancelInv(cfg: Config, st: State, c: CallId, now: Time)
    requires Inv(cfg, st)
    ensures Inv(cfg, DisposedCancel(st, c, now))
  {
    hide Inv, EndedState, Live;
    if c in st.cancels && st.cancels[c].disposing {
      var s := st.cancels[c].session;
      var rest := st.(cancels := st.cancels - {c});
      DropCallsInv(cfg, st, c);
      if Live(st.db, s) {
        DisposingFacts(cfg, st, c);
        ClearedFirst(rest, s, now);
        CancelEnds(rest.(workers := rest.workers - {s}), s, now);
        EndedInv(cfg, rest, {s}, Cancelled, now);
      } else {
        FinishedHasNoWorker(cfg, rest, s);
        AbandonFinished(cfg, rest, s, now);
      }
    }
  }

  lemma DisposingFacts(cfg: Config, st: State, c: CallId)
    requires Inv(cfg, st) && c in st.cancels && st.cancels[c].disposing && Live(st.db, st.cancels[c].session)
    ensures var s := st.cancels[c].session;
            s in st.workers && st.workers[s] in st.processes && st.processes[st.workers[s]].disposed
  {
    hide LocksMatch, RowsOk, DeskOk, WorkersOk, RecoveriesOk;
  }

  lemma FinishedHasNoWorker(cfg: Config, st: State, s: SessionId)
    requires Inv(cfg, st) && !Live(st.db, s)
    ensures s !in st.workers && st.workers - {s} == st.workers
  {
    hide LocksMatch, RowsOk, DeskOk, RecoveriesOk, CallsOk;
  }

  lemma FailInv(cfg: Config, st: State, s: SessionId, now: Time)
    requires Inv(cfg, st)
    ensures Inv(cfg, Fail(st, s, now))
  {
    RetireInv(cfg, st, {s}, now);
  }

  lemma FinishTurnInv(cfg: Config, st: State, w: WorkerId, now: Time)
    requires Inv(cfg, st)
    ensures Inv(cfg, FinishTurn(st, w, now))
  {
    if CallsBack(st, w) {
      var s := st.processes[w].session;
      LiveMove(st.db, s, Idle, now);
      SameLifeInv(cfg, st, AfterChange(st.db, s, Idle, now));
    }
  }

  lemma ClearStatusInv(cfg: Config, st: State, r: RequestId, now: Time)
    requires Inv(cfg, st)
    ensures Inv(cfg, ClearStatus(st, r, now))
  {
    if r in st.db.requests {
      var s := st.db.requests[r].session;
      LiveMove(st.db, s, Working, now);
      SameLifeInv(cfg, st, AfterChange(st.db, s, Working, now));
    }
  }

  lemma ReleaseInv(cfg: Config, st: State, r: RecoveryId)
    requires Inv(cfg, st)
    ensures Inv(cfg, ReleaseRecovery(st, r))
  {
    hide LocksMatch, RowsOk, DeskOk, WorkersOk, RecoveriesOk, CallsOk;
    FrameWorkers(st, ReleaseRecovery(st, r));
    ReleaseRecoveries(st, r);
    ReleaseCalls(st, r);
  }

  lemma ReleaseCalls(st: State, r: RecoveryId)
    requires CallsOk(st)
    ensures CallsOk(ReleaseRecovery(st, r))
  {
  }

  lemma ReleaseRecoveries(st: State, r: RecoveryId)
    requires RecoveriesOk(st)
    ensures RecoveriesOk(ReleaseRecovery(st, r))
  {
  }

  lemma CountTurnLife(db: Db, s: SessionId)
    ensures SameLife(db, CountTurn(db, s))
    ensures CountTurn(db, s).requests == db.requests && CountTurn(db, s).locks == db.locks
  {
  }

  lemma ResumeSendInv(cfg: Config, st: State, c: CallId, now: Time)
    requires Inv(cfg, st)
    ensures Inv(cfg, ResumeSend(st, c, now))
  {
    hide Inv, SameLife, AfterChange, CountTurn, ReadyToResume, ResumesWith, SendWorks;
    if c in st.sends && ReadyToResume(st, st.sends[c]) {
      var s := st.sends[c].session;
      var rest := st.(sends := st.sends - {c});
      DropCallsInv(cfg, st, c);
      var counted := CountTurn(st.db, s);
      CountTurnLife(st.db, s);
      SameLifeInv(cfg, rest, counted);
      LiveMove(counted, s, Working, now);
      SameLifeInv(cfg, rest.(db := counted), AfterChange(counted, s, Working, now));
    }
  }

  /** A recovery that is still looking its project up may be refused at any time. */
  lemma RefuseInv(cfg: Config, st: State, r: RecoveryId)
    requires Inv(cfg, st) && r in st.recoveries && st.recoveries[r].result.Lookup?
    ensures Inv(cfg, st.(recoveries := st.recoveries[r := st.recoveries[r].(result := Refusal)]))
  {
    hide LocksMatch, RowsOk, DeskOk, WorkersOk, RecoveriesOk, CallsOk;
    RefuseRecovery(st, r);
    SameOwners(st, r, st.recoveries[r].(result := Refusal));
    FrameWorkers(st, st.(recoveries := st.recoveries[r := st.recoveries[r].(result := Refusal)]));
  }

  lemma RefuseRecovery(st: State, r: RecoveryId)
    requires RecoveriesOk(st) && r in st.recoveries && st.recoveries[r].result.Lookup?
    ensures RecoveriesOk(st.(recoveries := st.recoveries[r := st.recoveries[r].(result := Refusal)]))
  {
  }

  /** Calls only ask a recovery for its session. */
  lemma SameOwners(st: State, r: RecoveryId, rec: Recovery)
    requires CallsOk(st) && r in st.recoveries && rec.session == st.recoveries[r].session
    ensures CallsOk(st.(recoveries := st.recoveries[r := rec]))
  {
  }

  /** A worker that never started is in no map and no call. */
  lemma StillbornInv(cfg: Config, st: State, w: WorkerId, s: SessionId, disposed: bool)
    requires Inv(cfg, st) && w !in st.processes && s in st.db.sessions
    ensures Inv(cfg, st.(processes := st.processes[w := Process(s, false, disposed)]))
  {
    hide LocksMatch, RowsOk, DeskOk, WorkersOk, RecoveriesOk, CallsOk;
    StillbornWorkers(st, w, s, disposed);
    StillbornRecoveries(st, w, s, disposed);
    StillbornCalls(st, w, s, disposed);
  }

  lemma StillbornWorkers(st: State, w: WorkerId, s: SessionId, disposed: bool)
    requires WorkersOk(st) && w !in st.processes && s in st.db.sessions
    ensures WorkersOk(st.(processes := st.processes[w := Process(s, false, disposed)]))
  {
  }

  lemma StillbornRecoveries(st: State, w: WorkerId, s: SessionId, disposed: bool)
    requires RecoveriesOk(st) && w !in st.processes
    ensures RecoveriesOk(st.(processes := st.processes[w := Process(s, false, disposed)]))
  {
  }

  lemma StillbornCalls(st: State, w: WorkerId, s: SessionId, disposed: bool)
    requires CallsOk(st) && w !in st.processes
    ensures CallsOk(st.(processes := st.processes[w := Process(s, false, disposed)]))
  {
  }

  /** The state once recovery `r` has put its started worker into the map. */
  function WithBuilt(st: State, r: RecoveryId, w: WorkerId): State
    requires r in st.recoveries
  {
    var s := st.recoveries[r].session;
    st.(workers := st.workers[s := w],
        processes := st.processes[w := Process(s, true, false)],
        recoveries := st.recoveries[r := st.recoveries[r].(result := Built(w))])
  }

  lemma BuiltRecoveries(st: State, r: RecoveryId, w: WorkerId)
    requires RecoveriesOk(st) && r in st.recoveries && st.recoveries[r].result.Lookup? && w !in st.processes
    ensures RecoveriesOk(WithBuilt(st, r, w))
  {
    var s, after := st.recoveries[r].session, WithBuilt(st, r, w);
    forall q | q in after.recoveries && q != r
      ensures after.recoveries[q].result.Lookup? ==> after.recoveries[q].session !in after.workers
      ensures after.recoveries[q].result.Built? ==>
                StartedFor(after, after.recoveries[q].result.worker, after.recoveries[q].session)
    {
      assert after.recoveries[q] == st.recoveries[q];
    }
  }

  lemma BuiltCalls(st: State, r: RecoveryId, w: WorkerId)
    requires CallsOk(st) && r in st.recoveries && st.recoveries[r].result.Lookup? && w !in st.processes
    requires Live(st.db, st.recoveries[r].session) && st.recoveries[r].session !in st.workers
    ensures CallsOk(WithBuilt(st, r, w))
  {
  }

  /** The one place where a session that lost its worker gets another. */
  lemma BuiltInv(cfg: Config, st: State, r: RecoveryId, w: WorkerId)
    requires Inv(cfg, st) && r in st.recoveries && st.recoveries[r].result.Lookup? && w !in st.processes
    requires Live(st.db, st.recoveries[r].session)
    ensures Inv(cfg, WithBuilt(st, r, w))
  {
    var after := WithBuilt(st, r, w);
    BuiltWorkers(st, st.recoveries[r].session, w);
    assert WorkersOk(after.(recoveries := st.recoveries));
    BuiltRecoveries(st, r, w);
    BuiltCalls(st, r, w);
  }

  lemma BuiltWorkers(st: State, s: SessionId, w: WorkerId)
    requires WorkersOk(st) && w !in st.processes && s !in st.workers && Live(st.db, s)
    ensures WorkersOk(st.(workers := st.workers[s := w], processes := st.processes[w := Process(s, true, false)]))
  {
  }

  lemma RebuildInv(cfg: Config, st: State, r: RecoveryId, w: WorkerId, spawn: Spawn)
    requires Inv(cfg, st) && r in st.recoveries && st.recoveries[r].result.Lookup? && w !in st.processes
    ensures Inv(cfg, Rebuild(cfg, st, r, w, spawn))
  {
    var s := st.recoveries[r].session;
    LookupFacts(cfg, st, r);
    hide Inv;
    if !Live(st.db, s) || !ProviderAvailable(cfg, st.db.sessions[s].provider) {
      hide Live, ProviderAvailable;
      RefuseInv(cfg, st, r);
    } else {
      RebuiltShape(cfg, st, r, w, spawn);
      hide Rebuild, Live, WithBuilt;
      if spawn.SpawnThrows? {
        RefuseInv(cfg, st, r);
        StillbornInv(cfg, st.(recoveries := st.recoveries[r := st.recoveries[r].(result := Refusal)]), w, s, false);
      } else {
        BuiltInv(cfg, st, r, w);
      }
    }
  }

  lemma RebuiltShape(cfg: Config, st: State, r: RecoveryId, w: WorkerId, spawn: Spawn)
    requires r in st.recoveries && st.recoveries[r].session !in st.workers && Live(st.db, st.recoveries[r].session)
    requires ProviderAvailable(cfg, st.db.sessions[st.recoveries[r].session].provider)
    ensures Rebuild(cfg, st, r, w, spawn)
         == if spawn.SpawnThrows? then
              st.(recoveries := st.recoveries[r := st.recoveries[r].(result := Refusal)],
                  processes := st.processes[w := Process(st.recoveries[r].session, false, false)])
            else WithBuilt(st, r, w)
  {
    assert st.workers - {st.recoveries[r].session} == st.workers;
  }

  /** While a recovery looks its project up, its session has no worker. */
  lemma LookupFacts(cfg: Config, st: State, r: RecoveryId)
    requires Inv(cfg, st) && r in st.recoveries && st.recoveries[r].result.Lookup?
    ensures st.recoveries[r].session !in st.workers && st.recoveries[r].session in st.db.sessions
  {
    hide LocksMatch, RowsOk, DeskOk, WorkersOk, CallsOk;
  }

  /** A recovery entry for a session that has neither a worker nor a recovery. */
  lemma EnteredInv(cfg: Config, st: State, s: SessionId, r: RecoveryId, result: Rebuilt)
    requires Inv(cfg, st) && s in st.db.sessions && s !in st.workers && s !in st.inFlight
    requires r !in st.recoveries && !result.Built?
    ensures Inv(cfg, st.(inFlight := st.inFlight[s := r],
                         recoveries := st.recoveries[r := Recovery(s, result, false)]))
  {
    EnteredRecoveries(st, s, r, result);
    EnteredCalls(st, s, r, result);
  }

  lemma EnteredRecoveries(st: State, s: SessionId, r: RecoveryId, result: Rebuilt)
    requires RecoveriesOk(st) && s in st.db.sessions && s !in st.workers && s !in st.inFlight
    requires r !in st.recoveries && !result.Built?
    ensures RecoveriesOk(st.(inFlight := st.inFlight[s := r],
                             recoveries := st.recoveries[r := Recovery(s, result, false)]))
  {
  }

  lemma EnteredCalls(st: State, s: SessionId, r: RecoveryId, result: Rebuilt)
    requires CallsOk(st) && r !in st.recoveries
    ensures CallsOk(st.(inFlight := st.inFlight[s := r],
                        recoveries := st.recoveries[r := Recovery(s, result, false)]))
  {
  }

  lemma AddSendInv(cfg: Config, st: State, c: CallId, call: SendCall)
    requires Inv(cfg, st) && call.session in st.db.sessions
    requires call.target.OnWorker? ==> StartedFor(st, call.target.worker, call.session)
    requires call.target.OnRecovery? ==>
               call.target.recovery in st.recoveries && st.recoveries[call.target.recovery].session == call.session
    ensures Inv(cfg, st.(sends := st.sends[c := call]))
  {
    hide LocksMatch, RowsOk, DeskOk, WorkersOk, RecoveriesOk, CallsOk;
    AddSend(st, c, call);
    FrameWorkers(st, st.(sends := st.sends[c := call]));
    FrameRecoveries(st, st.(sends := st.sends[c := call]));
  }

  lemma AddSend(st: State, c: CallId, call: SendCall)
    requires CallsOk(st) && call.session in st.db.sessions
    requires call.target.OnWorker? ==> StartedFor(st, call.target.worker, call.session)
    requires call.target.OnRecovery? ==>
               call.target.recovery in st.recoveries && st.recoveries[call.target.recovery].session == call.session
    ensures CallsOk(st.(sends := st.sends[c := call]))
  {
  }

  lemma WorkerForInv(cfg: Config, st: State, s: SessionId, r: RecoveryId, w: WorkerId, spawn: Spawn, now: Time)
    requires Inv(cfg, st) && s in st.db.sessions
    requires s in st.workers || s in st.inFlight || (r !in st.recoveries && w !in st.processes)
    ensures Inv(cfg, AfterWorkerFor(cfg, st, s, r, w, spawn, now))
  {
    hide Inv, Rebuild, PastCap;
    if s !in st.workers && s !in st.inFlight {
      var result := if PastCap(cfg, st.db.sessions[s], now) then Refusal else Lookup;
      EnteredInv(cfg, st, s, r, result);
      if result == Lookup {
        var begun := st.(inFlight := st.inFlight[s := r], recoveries := st.recoveries[r := Recovery(s, result, false)]);
        RebuildInv(cfg, begun, r, w, spawn);
      }
    }
  }

  /** The target a send waits for belongs to its session. */
  lemma TargetIsOwn(cfg: Config, st: State, s: SessionId, r: RecoveryId, w: WorkerId, spawn: Spawn, now: Time)
    requires Inv(cfg, st) && s in st.db.sessions
    requires s in st.workers || s in st.inFlight || (r !in st.recoveries && w !in st.processes)
    ensures var after := AfterWorkerFor(cfg, st, s, r, w, spawn, now);
            && after.db == st.db && after.sends == st.sends
            && match TargetFor(st, s, r)
               case OnWorker(v) => StartedFor(after, v, s)
               case OnRecovery(q) => q in after.recoveries && after.recoveries[q].session == s
  {
    hide Inv, PastCap, Rebuild;
    if s in st.workers {
      OwnedWorker(cfg, st, s);
    } else if s in st.inFlight {
      OwnedRecovery(cfg, st, s);
    } else {
      var begun := st.(inFlight := st.inFlight[s := r], recoveries := st.recoveries[r := Recovery(s, Lookup, false)]);
      RebuildKeepsOwner(cfg, begun, r, w, spawn);
    }
  }

  lemma OwnedWorker(cfg: Config, st: State, s: SessionId)
    requires Inv(cfg, st) && s in st.workers
    ensures StartedFor(st, st.workers[s], s)
  {
    hide LocksMatch, RowsOk, DeskOk, RecoveriesOk, CallsOk;
  }

  lemma OwnedRecovery(cfg: Config, st: State, s: SessionId)
    requires Inv(cfg, st) && s in st.inFlight
    ensures st.inFlight[s] in st.recoveries && st.recoveries[st.inFlight[s]].session == s
  {
    hide LocksMatch, RowsOk, DeskOk, WorkersOk, CallsOk;
  }

  lemma RebuildKeepsOwner(cfg: Config, st: State, r: RecoveryId, w: WorkerId, spawn: Spawn)
    requires r in st.recoveries
    ensures var after := Rebuild(cfg, st, r, w, spawn);
            && after.db == st.db && after.sends == st.sends
            && r in after.recoveries && after.recoveries[r].session == st.recoveries[r].session
  {
    hide Live, ProviderAvailable;
  }

  lemma BeginSendInv(cfg: Config, st: State, step: Step)
    requires Inv(cfg, st) && step.SendBegin?
    ensures Inv(cfg, BeginSend(cfg, st, step))
  {
    hide Inv, AfterWorkerFor, TargetFor, AcceptsInstruction;
    var s, r := step.session, step.recovery;
    if s in st.db.sessions && FindsWorker(st, step) {
      WorkerForInv(cfg, st, s, r, step.worker, step.spawn, step.now);
      TargetIsOwn(cfg, st, s, r, step.worker, step.spawn, step.now);
      AddSendInv(cfg, AfterWorkerFor(cfg, st, s, r, step.worker, step.spawn, step.now), step.call,
                 SendCall(s, st.db.sessions[s].status, TargetFor(st, s, r)));
    }
  }

  // Asking, answering and timing out touch only the request rows and the desk.

  lemma DeskChangeInv(cfg: Config, st: State, requests: map<RequestId, RequestRow>, desk: Desk)
    requires Inv(cfg, st)
    requires RowsOk(st.db.(requests := requests)) && DeskOk(st.db.(requests := requests), desk)
    ensures Inv(cfg, st.(db := st.db.(requests := requests), desk := desk))
  {
    OtherRequests(st, st.(db := st.db.(requests := requests), desk := desk));
    hide RowsOk, DeskOk, LocksMatch, WorkersOk, RecoveriesOk, CallsOk;
  }

  /** Locks, workers, recoveries and calls do not read the requests or the desk. */
  lemma OtherRequests(a: State, b: State)
    requires b.db.sessions == a.db.sessions && b.db.locks == a.db.locks
    requires b == a.(db := b.db, desk := b.desk)
    ensures LocksMatch(a.db) ==> LocksMatch(b.db)
    ensures WorkersOk(a) ==> WorkersOk(b)
    ensures RecoveriesOk(a) ==> RecoveriesOk(b)
    ensures CallsOk(a) ==> CallsOk(b)
  {
    SameSessionsLive(a.db, b.db);
    hide Live;
    OtherRequestsLocks(a.db, b.db);
  }

  lemma SameSessionsLive(a: Db, b: Db)
    requires b.sessions == a.sessions
    ensures forall s :: Live(b, s) == Live(a, s)
  {
  }

  lemma OtherRequestsLocks(a: Db, b: Db)
    requires b.sessions == a.sessions && b.locks == a.locks
    ensures LocksMatch(a) ==> LocksMatch(b)
  {
    assert forall s, p :: WritesTo(b, s, p) <==> WritesTo(a, s, p);
  }

  lemma AnsweredInv(cfg: Config, st: State, r: RequestId, answer: string, denied: bool, now: Time)
    requires Inv(cfg, st) && r in st.db.requests && IsOpen(st.db.requests[r])
    ensures Inv(cfg, st.(db := AnswerRequest(st.db, r, answer, denied, now).db,
                         desk := AnswerDesk(st.desk, r, answer, denied)))
  {
    var db := AnswerRequest(st.db, r, answer, denied, now).db;
    assert RowsOk(db);
    AnsweredDesk(st.db, st.desk, r, answer, denied, now);
    DeskChangeInv(cfg, st, db.requests, AnswerDesk(st.desk, r, answer, denied));
  }

  lemma AnsweredDesk(db: Db, desk: Desk, r: RequestId, answer: string, denied: bool, now: Time)
    requires RowsOk(db) && DeskOk(db, desk) && r in db.requests && IsOpen(db.requests[r])
    ensures DeskOk(AnswerRequest(db, r, answer, denied, now).db, AnswerDesk(desk, r, answer, denied))
  {
    OpenIsUnsettled(db, desk, r);
    AnsweredRow(db, r, answer, denied, now);
    hide RowsOk, AnswerRequest;
  }

  lemma OpenIsUnsettled(db: Db, desk: Desk, r: RequestId)
    requires DeskOk(db, desk)
    ensures r in desk.waiters ==> History(desk.settled, r) == [] && r in db.requests
  {
  }

  lemma AnsweredRow(db: Db, r: RequestId, answer: string, denied: bool, now: Time)
    requires r in db.requests && IsOpen(db.requests[r])
    ensures var after := AnswerRequest(db, r, answer, denied, now).db;
            && after.sessions == db.sessions && after.requests.Keys == db.requests.Keys
            && after.requests[r].session == db.requests[r].session
            && (forall how :: SettledAs(db.requests[r], how) ==> SettledAs(after.requests[r], how))
            && SettledAs(after.requests[r], Resolved(answer, denied))
            && forall q :: q in db.requests && q != r ==> after.requests[q] == db.requests[q]
  {
  }

  lemma DeliverInv(cfg: Config, st: State, s: SessionId, r: RequestId, answer: string, negative: bool, now: Time)
    requires Inv(cfg, st) && s in st.db.sessions && r in st.db.requests
    ensures Inv(cfg, DeliverTo(st, s, r, answer, negative, now))
  {
    hide Inv;
    var after := DeliverTo(st, s, r, answer, negative, now);
    if !IsOpen(st.db.requests[r]) {
      assert after == st;
    } else {
      var denied := st.db.requests[r].kind.Approval? && negative;
      var answered := AnswerRequest(st.db, r, answer, denied, now).db;
      var mid := st.(db := answered, desk := AnswerDesk(st.desk, r, answer, denied));
      assert after == mid || after == mid.(db := AfterChange(answered, s, Working, now));
      AnsweredInv(cfg, st, r, answer, denied, now);
      BackToWorkInv(cfg, mid, s, now);
    }
  }

  lemma BackToWorkInv(cfg: Config, st: State, s: SessionId, now: Time)
    requires Inv(cfg, st)
    ensures Inv(cfg, st.(db := AfterChange(st.db, s, Working, now)))
  {
    LiveMove(st.db, s, Working, now);
    SameLifeInv(cfg, st, AfterChange(st.db, s, Working, now));
  }

  lemma AskInv(cfg: Config, st: State, w: WorkerId, kind: RequestKind, r: RequestId, now: Time)
    requires Inv(cfg, st)
    ensures Inv(cfg, Ask(st, w, kind, r, now))
  {
    if CallsBack(st, w) && r !in st.db.requests {
      var s := st.processes[w].session;
      var next := if kind.Question? then NeedsInput else AwaitingApproval;
      var asked := AfterChange(st.db, s, next, now);
      LiveMove(st.db, s, next, now);
      SameLifeInv(cfg, st, asked);
      if ChangeStatus(st.db, s, next, now).Updated? {
        NewRequestInv(cfg, st.(db := asked), r, s, kind, now);
      }
    }
  }

  lemma NewRequestInv(cfg: Config, st: State, r: RequestId, s: SessionId, kind: RequestKind, now: Time)
    requires Inv(cfg, st) && r !in st.db.requests && Live(st.db, s)
    ensures Inv(cfg, st.(db := st.db.(requests := st.db.requests[r := NewRequest(s, kind, now)]),
                         desk := AskDesk(st.desk, r, s)))
  {
    var db := st.db.(requests := st.db.requests[r := NewRequest(s, kind, now)]);
    assert RowsOk(db);
    NewRequestDesk(st.db, st.desk, r, s, kind, now);
    DeskChangeInv(cfg, st, db.requests, AskDesk(st.desk, r, s));
  }

  lemma NewRequestDesk(db: Db, desk: Desk, r: RequestId, s: SessionId, kind: RequestKind, now: Time)
    requires DeskOk(db, desk) && r !in db.requests && Live(db, s)
    ensures DeskOk(db.(requests := db.requests[r := NewRequest(s, kind, now)]), AskDesk(desk, r, s))
  {
  }

  lemma TimeOutInv(cfg: Config, st: State, r: RequestId, now: Time)
    requires Inv(cfg, st)
    ensures Inv(cfg, TimeOut(st, r, now))
  {
    if r in st.desk.timers {
      var db := st.db.(requests := VoidOpen(st.db.requests, {st.desk.timers[r]}, now));
      assert RowsOk(db);
      TimedOutDesk(st.db, st.desk, r, now);
      DeskChangeInv(cfg, st, db.requests, TimeoutDesk(st.desk, r));
    }
  }

  lemma TimedOutDesk(db: Db, desk: Desk, r: RequestId, now: Time)
    requires RowsOk(db) && DeskOk(db, desk) && r in desk.timers
    ensures DeskOk(db.(requests := VoidOpen(db.requests, {desk.timers[r]}, now)), TimeoutDesk(desk, r))
  {
  }

  // Starting a session and restarting the process.

  lemma AddedRows(db: Db, desk: Desk, s: SessionId, row: SessionRow)
    requires RowsOk(db) && DeskOk(db, desk) && s !in db.sessions
    requires row.finishedAt.Some? <==> IsTerminal(row.status)
    ensures RowsOk(db.(sessions := db.sessions[s := row])) && DeskOk(db.(sessions := db.sessions[s := row]), desk)
  {
  }

  /** The rest of the state does not notice a new session. */
  lemma AddedElsewhere(st: State, db: Db)
    requires WorkersOk(st) && RecoveriesOk(st) && CallsOk(st)
    requires st.db.sessions.Keys <= db.sessions.Keys
    requires forall t :: t in st.db.sessions ==> db.sessions[t] == st.db.sessions[t]
    ensures WorkersOk(st.(db := db)) && RecoveriesOk(st.(db := db))
    ensures CallsOk(st.(db := db))
  {
    OlderLives(st.db, db);
    hide WorkersOk, RecoveriesOk, CallsOk, Live;
    MoreWorkers(st, db);
    MoreRecoveries(st, db);
    MoreCalls(st, db);
  }

  lemma OlderLives(a: Db, b: Db)
    requires a.sessions.Keys <= b.sessions.Keys
    requires forall t :: t in a.sessions ==> b.sessions[t] == a.sessions[t]
    ensures forall t :: t in a.sessions ==> Live(b, t) == Live(a, t)
    ensures forall t :: Live(a, t) ==> t in a.sessions
  {
  }

  lemma MoreWorkers(st: State, db: Db)
    requires WorkersOk(st) && st.db.sessions.Keys <= db.sessions.Keys
    requires forall t :: t in st.db.sessions ==> Live(db, t) == Live(st.db, t)
    ensures WorkersOk(st.(db := db))
  {
  }

  lemma MoreRecoveries(st: State, db: Db)
    requires RecoveriesOk(st) && st.db.sessions.Keys <= db.sessions.Keys
    ensures RecoveriesOk(st.(db := db))
  {
  }

  lemma MoreCalls(st: State, db: Db)
    requires CallsOk(st) && st.db.sessions.Keys <= db.sessions.Keys && WorkersOk(st)
    requires forall t :: t in st.db.sessions ==> Live(db, t) == Live(st.db, t)
    ensures CallsOk(st.(db := db))
  {
  }

  lemma AddedLocks(db: Db, s: SessionId, row: SessionRow, locks: map<ProjectId, SessionId>)
    requires LocksMatch(db) && s !in db.sessions
    requires var locking := row.writeCapable && row.project.Some? && !IsTerminal(row.status);
             if locking then row.project.value !in db.locks && locks == db.locks[row.project.value := s]
             else locks == db.locks
    ensures LocksMatch(db.(sessions := db.sessions[s := row], locks := locks))
  {
    var after := db.(sessions := db.sessions[s := row], locks := locks);
    forall t: SessionId, p: ProjectId
      ensures WritesTo(after, t, p) <==>
              WritesTo(db, t, p) || (t == s && !IsTerminal(row.status) && row.writeCapable && row.project == Some(p))
    {
    }
  }

  lemma AddedFinished(cfg: Config, st: State, s: SessionId, row: SessionRow)
    requires Inv(cfg, st) && s !in st.db.sessions && IsTerminal(row.status) && row.finishedAt.Some?
    ensures Inv(cfg, st.(db := st.db.(sessions := st.db.sessions[s := row])))
  {
    AddedRows(st.db, st.desk, s, row);
    if cfg.enforceLock {
      AddedLocks(st.db, s, row, st.db.locks);
    }
    AddedElsewhere(st, st.db.(sessions := st.db.sessions[s := row]));
  }

  lemma AddedWorker(cfg: Config, st: State, s: SessionId, w: WorkerId)
    requires WorkersOk(st) && RecoveriesOk(st) && CallsOk(st)
    requires Live(st.db, s) && s !in st.workers && w !in st.processes
    requires forall r :: r in st.recoveries ==> st.recoveries[r].session != s
    ensures WorkersOk(st.(workers := st.workers[s := w], processes := st.processes[w := Process(s, true, false)]))
    ensures RecoveriesOk(st.(workers := st.workers[s := w], processes := st.processes[w := Process(s, true, false)]))
    ensures CallsOk(st.(workers := st.workers[s := w], processes := st.processes[w := Process(s, true, false)]))
  {
    BuiltWorkers(st, s, w);
  }

  /** The row a start inserts and the lock table with its lock. */
  function StartRow(step: Step): SessionRow
    requires step.Start?
  {
    NewSession(step.provider, step.project, step.mode.Work?, step.now)
  }

  predicate Locking(cfg: Config, step: Step)
    requires step.Start?
  {
    step.mode.Work? && step.project.Some? && cfg.enforceLock
  }

  function StartLocks(cfg: Config, st: State, step: Step): map<ProjectId, SessionId>
    requires step.Start?
  {
    if Locking(cfg, step) then st.db.locks[step.project.value := step.session] else st.db.locks
  }

  /** A start that nothing refuses, before it knows whether its worker starts. */
  function BegunStart(cfg: Config, st: State, step: Step): State
    requires step.Start?
  {
    st.(db := st.db.(sessions := st.db.sessions[step.session := StartRow(step)], locks := StartLocks(cfg, st, step)),
        workers := st.workers[step.session := step.worker],
        processes := st.processes[step.worker := Process(step.session, step.spawn.SpawnOk?, false)])
  }

  predicate CanStart(cfg: Config, st: State, step: Step)
    requires step.Start?
  {
    step.session !in st.db.sessions && step.worker !in st.processes && ProviderAvailable(cfg, step.provider)
  }

  predicate LockGranted(cfg: Config, st: State, step: Step)
    requires step.Start?
  {
    Locking(cfg, step) ==> LockIsFree(st.db.locks, step.project.value, step.session)
  }

  lemma StartBegins(cfg: Config, st: State, step: Step)
    requires step.Start? && CanStart(cfg, st, step) && LockGranted(cfg, st, step)
    ensures var begun := BegunStart(cfg, st, step);
            StartSession(cfg, st, step)
            == if step.spawn.SpawnOk? then begun.(db := AfterChange(begun.db, step.session, Working, step.now))
               else Fail(begun, step.session, step.now)
  {
    hide AfterChange, Fail, LockIsFree, ProviderAvailable, NewSession;
  }

  lemma MoveRow(db: Db, s: SessionId, next: Status, now: Time)
    requires s in db.sessions && db.sessions[s].status.Starting? && !IsTerminal(next) && CanTransition(Starting, next)
    ensures AfterChange(db, s, next, now) == db.(sessions := db.sessions[s := WithStatus(db.sessions[s], next, now)])
  {
    hide WithStatus;
  }

  lemma StartWorkingShape(cfg: Config, st: State, step: Step)
    requires step.Start? && CanStart(cfg, st, step) && LockGranted(cfg, st, step) && step.spawn.SpawnOk?
    ensures var row := WithStatus(StartRow(step), Working, step.now);
            StartSession(cfg, st, step)
            == st.(db := st.db.(sessions := st.db.sessions[step.session := row], locks := StartLocks(cfg, st, step)),
                   workers := st.workers[step.session := step.worker],
                   processes := st.processes[step.worker := Process(step.session, true, false)])
  {
    StartBegins(cfg, st, step);
    hide StartSession, AfterChange, StartLocks, WithStatus, CanStart, LockGranted;
    MoveRow(BegunStart(cfg, st, step).db, step.session, Working, step.now);
    var s, row := step.session, WithStatus(StartRow(step), Working, step.now);
    assert st.db.sessions[s := StartRow(step)][s := row] == st.db.sessions[s := row];
  }

  lemma StartRefusedShape(cfg: Config, st: State, step: Step)
    requires step.Start? && CanStart(cfg, st, step) && !LockGranted(cfg, st, step)
    requires VoidOpen(st.db.requests, {step.session}, step.now) == st.db.requests
    requires step.session !in st.db.locks.Values
    ensures var row := WithStatus(StartRow(step), Cancelled, step.now);
            StartSession(cfg, st, step) == st.(db := st.db.(sessions := st.db.sessions[step.session := row]))
  {
    hide VoidOpen, WithStatus, LockIsFree, ProviderAvailable;
    var s, row := step.session, WithStatus(StartRow(step), Cancelled, step.now);
    assert st.db.sessions[s := StartRow(step)][s := row] == st.db.sessions[s := row];
    assert DropLocks(st.db.locks, {s}) == st.db.locks;
  }

  lemma StartRefused(cfg: Config, st: State, step: Step)
    requires Inv(cfg, st) && step.Start? && CanStart(cfg, st, step) && !LockGranted(cfg, st, step)
    ensures Inv(cfg, StartSession(cfg, st, step))
  {
    NoTraceOf(cfg, st, step.session, step.now);
    hide Inv, StartSession, VoidOpen, AbandonDesk;
    StartRefusedShape(cfg, st, step);
    AddedFinished(cfg, st, step.session, WithStatus(StartRow(step), Cancelled, step.now));
  }

  /** A start whose worker throws leaves a failed row and a worker nobody can reach. */
  lemma StartFailedShape(cfg: Config, st: State, step: Step)
    requires step.Start? && CanStart(cfg, st, step) && LockGranted(cfg, st, step) && step.spawn.SpawnThrows?
    requires step.session !in st.workers && step.session !in st.db.locks.Values
    requires VoidOpen(st.db.requests, {step.session}, step.now) == st.db.requests
    requires AbandonDesk(st.db.requests, st.desk, {step.session}) == st.desk
    ensures var row := WithStatus(StartRow(step), Failed, step.now);
            StartSession(cfg, st, step)
            == st.(db := st.db.(sessions := st.db.sessions[step.session := row]),
                   processes := st.processes[step.worker := Process(step.session, false, true)])
  {
    StartBegins(cfg, st, step);
    hide StartSession, VoidOpen, AbandonDesk, DropLocks, DisposeAll, EntriesOf, StartLocks, WithStatus, CanStart;
    var s, w := step.session, step.worker;
    FailedRow(st.db.sessions, s, StartRow(step), step.now);
    FailedLocks(cfg, st, step);
    FailedWorker(st, s, w);
  }

  lemma FailedRow(sessions: map<SessionId, SessionRow>, s: SessionId, row: SessionRow, now: Time)
    requires s !in sessions
    ensures var begun := sessions[s := row];
            (map t | t in begun :: if t in {s} then WithStatus(begun[t], Failed, now) else begun[t])
            == sessions[s := WithStatus(row, Failed, now)]
  {
    hide WithStatus;
  }

  lemma FailedLocks(cfg: Config, st: State, step: Step)
    requires step.Start? && LockGranted(cfg, st, step) && step.session !in st.db.locks.Values
    ensures DropLocks(StartLocks(cfg, st, step), {step.session}) == st.db.locks
  {
  }

  lemma FailedWorker(st: State, s: SessionId, w: WorkerId)
    requires s !in st.workers && w !in st.processes
    ensures var workers, processes := st.workers[s := w], st.processes[w := Process(s, false, false)];
            && workers - {s} == st.workers
            && DisposeAll(processes, EntriesOf(workers, {s})) == st.processes[w := Process(s, false, true)]
  {
    assert EntriesOf(st.workers[s := w], {s}) == {w};
  }

  lemma StartFailed(cfg: Config, st: State, step: Step)
    requires Inv(cfg, st) && step.Start? && CanStart(cfg, st, step) && LockGranted(cfg, st, step)
        && step.spawn.SpawnThrows?
    ensures Inv(cfg, StartSession(cfg, st, step))
  {
    var s, w := step.session, step.worker;
    var row := WithStatus(StartRow(step), Failed, step.now);
    NoTraceOf(cfg, st, s, step.now);
    hide Inv, StartSession, VoidOpen, AbandonDesk;
    StartFailedShape(cfg, st, step);
    AddedFinished(cfg, st, s, row);
    StillbornInv(cfg, st.(db := st.db.(sessions := st.db.sessions[s := row])), w, s, true);
  }

  /** An id that is no session yet occurs in no row, lock or waiter. */
  lemma NoTraceOf(cfg: Config, st: State, s: SessionId, now: Time)
    requires Inv(cfg, st) && s !in st.db.sessions
    ensures s !in st.workers && s !in st.inFlight
    ensures s !in st.db.locks.Values
    ensures VoidOpen(st.db.requests, {s}, now) == st.db.requests
    ensures AbandonDesk(st.db.requests, st.desk, {s}) == st.desk
  {
    AbandonFinished(cfg, st, s, now);
  }

  lemma StartWorking(cfg: Config, st: State, step: Step)
    requires Inv(cfg, st) && step.Start? && CanStart(cfg, st, step) && LockGranted(cfg, st, step) && step.spawn.SpawnOk?
    ensures Inv(cfg, StartSession(cfg, st, step))
  {
    var s, w := step.session, step.worker;
    var row := WithStatus(StartRow(step), Working, step.now);
    NoTraceOf(cfg, st, s, step.now);
    StartWorkingShape(cfg, st, step);
    hide StartSession, VoidOpen, AbandonDesk, LocksMatch, RowsOk, DeskOk, WorkersOk, RecoveriesOk, CallsOk;
    AddedSession(cfg, st, s, row, StartLocks(cfg, st, step));
    var added := st.(db := st.db.(sessions := st.db.sessions[s := row], locks := StartLocks(cfg, st, step)));
    NoRecoveryOf(st, s);
    AddedWorker(cfg, added, s, w);
  }

  lemma NoRecoveryOf(st: State, s: SessionId)
    requires RecoveriesOk(st) && s !in st.db.sessions
    ensures forall r :: r in st.recoveries ==> st.recoveries[r].session != s
  {
  }

  /** A new live session with its lock, before it has a worker. */
  lemma AddedSession(cfg: Config, st: State, s: SessionId, row: SessionRow, locks: map<ProjectId, SessionId>)
    requires Inv(cfg, st) && s !in st.db.sessions && !IsTerminal(row.status) && row.finishedAt.None?
    requires var locking := row.writeCapable && row.project.Some? && cfg.enforceLock;
             if locking then row.project.value !in st.db.locks && locks == st.db.locks[row.project.value := s]
             else locks == st.db.locks
    ensures Inv(cfg, st.(db := st.db.(sessions := st.db.sessions[s := row], locks := locks)))
  {
    hide WorkersOk, RecoveriesOk, CallsOk, LocksMatch;
    var db := st.db.(sessions := st.db.sessions[s := row], locks := locks);
    AddedRows(st.db, st.desk, s, row);
    if cfg.enforceLock {
      AddedLocks(st.db, s, row, locks);
    }
    AddedElsewhere(st, db);
  }

  lemma StartInv(cfg: Config, st: State, step: Step)
    requires Inv(cfg, st) && step.Start?
    ensures Inv(cfg, StartSession(cfg, st, step))
  {
    hide Inv;
    if !CanStart(cfg, st, step) {
      assert StartSession(cfg, st, step) == st;
    } else {
      hide StartSession, CanStart, LockGranted;
      if !LockGranted(cfg, st, step) {
        StartRefused(cfg, st, step);
      } else if step.spawn.SpawnOk? {
        StartWorking(cfg, st, step);
      } else {
        StartFailed(cfg, st, step);
      }
    }
  }

  lemma RecoveredTables(cfg: Config, db: Db, now: Time)
    requires RowsOk(db)
    ensures SameLife(db, Recovered(db, now)) && RowsOk(Recovered(db, now))
    ensures LocksMatch(db) ==> Recovered(db, now).locks == db.locks && LocksMatch(Recovered(db, now))
  {
    RecoveredLife(db, now);
    RecoveredRows(db, now);
    if LocksMatch(db) {
      RecoveredLocks(db, now);
      hide Recovered, RowsOk, LocksMatch, SameLife;
      SameWriters(db, Recovered(db, now));
    }
  }

  lemma RecoveredLife(db: Db, now: Time)
    ensures SameLife(db, Recovered(db, now))
  {
    hide VoidOpen, DropLocks;
  }

  lemma RecoveredRows(db: Db, now: Time)
    requires RowsOk(db)
    ensures RowsOk(Recovered(db, now))
  {
    hide DropLocks;
  }

  lemma RecoveredLocks(db: Db, now: Time)
    requires LocksMatch(db)
    ensures Recovered(db, now).locks == db.locks
  {
    hide VoidOpen, WithStatus;
  }

  lemma SameWriters(a: Db, b: Db)
    requires SameLife(a, b) && a.locks == b.locks && LocksMatch(a)
    ensures LocksMatch(b)
  {
    assert forall s: SessionId, p: ProjectId :: WritesTo(b, s, p) <==> WritesTo(a, s, p);
  }

  lemma RecoveredDesk(db: Db, desk: Desk, now: Time)
    requires RowsOk(db) && DeskOk(db, desk)
    ensures DeskOk(Recovered(db, now), Desk(map[], map[], desk.settled))
  {
  }

  lemma RestartInv(cfg: Config, st: State, now: Time)
    requires Inv(cfg, st)
    ensures Inv(cfg, RestartProcess(st, now))
  {
    RecoveredTables(cfg, st.db, now);
    RecoveredDesk(st.db, st.desk, now);
  }

  lemma LookupInv(cfg: Config, st: State, step: Step)
    requires Inv(cfg, st) && step.LookupDone?
    ensures Inv(cfg, FinishLookup(cfg, st, step))
  {
    hide Inv, Rebuild;
    var r := step.recovery;
    if r in st.recoveries && st.recoveries[r].result.Lookup? && step.worker !in st.processes {
      RebuildInv(cfg, st, r, step.worker, step.spawn);
    }
  }

  lemma RespondInv(cfg: Config, st: State, step: Step)
    requires Inv(cfg, st) && step.Respond?
    ensures Inv(cfg, Deliver(st, step))
  {
    hide Inv, DeliverTo;
    if step.session in st.db.sessions && step.request in st.db.requests {
      DeliverInv(cfg, st, step.session, step.request, step.answer, step.negative, step.now);
    }
  }

  /** Steps of the callers: starting, instructing, answering. */
  lemma CallerStepInv(cfg: Config, st: State, step: Step)
    requires Inv(cfg, st)
    requires step.Start? || step.SendBegin? || step.LookupDone? || step.RecoveryReleased? || step.SendResume?
        || step.Respond?
    ensures Inv(cfg, Next(cfg, st, step))
  {
    hide Inv, StartSession, BeginSend, Rebuild, ReleaseRecovery, ResumeSend, DeliverTo, BeginCancel, InterruptedCancel,
         DisposedCancel, FinishTurn, Fail, Ask, TimeOut, ClearStatus, RestartProcess, Retire, Expired, FinishLookup,
         Deliver;
    match step
    case Start(_, _, _, _, _, _, _) => StartInv(cfg, st, step);
    case SendBegin(_, _, _, _, _, _) => BeginSendInv(cfg, st, step);
    case LookupDone(_, _, _) => LookupInv(cfg, st, step);
    case RecoveryReleased(r) => ReleaseInv(cfg, st, r);
    case SendResume(c, now) => ResumeSendInv(cfg, st, c, now);
    case Respond(_, _, _, _, _, _) => RespondInv(cfg, st, step);
  }

  /** Steps of workers, timers and cancels. */
  lemma WorkerStepInv(cfg: Config, st: State, step: Step)
    requires Inv(cfg, st)
    requires step.CancelBegin? || step.CancelInterrupted? || step.CancelDisposed? || step.TurnComplete?
             || step.WorkerFailed? || step.AskUser? || step.AskTimeout? || step.ClearUnanswered?
    ensures Inv(cfg, Next(cfg, st, step))
  {
    hide Inv, StartSession, BeginSend, Rebuild, ReleaseRecovery, ResumeSend, DeliverTo, BeginCancel, InterruptedCancel,
         DisposedCancel, FinishTurn, Fail, Ask, TimeOut, ClearStatus, RestartProcess, Retire, Expired, FinishLookup,
         Deliver;
    match step
    case CancelBegin(c, s, now) => BeginCancelInv(cfg, st, c, s, now);
    case CancelInterrupted(c) => InterruptedCancelInv(cfg, st, c);
    case CancelDisposed(c, now) => DisposedCancelInv(cfg, st, c, now);
    case TurnComplete(w, now) => FinishTurnInv(cfg, st, w, now);
    case WorkerFailed(w, now) => if CallsBack(st, w) { FailInv(cfg, st, st.processes[w].session, now); }
    case AskUser(w, kind, r, now) => AskInv(cfg, st, w, kind, r, now);
    case AskTimeout(r, now) => TimeOutInv(cfg, st, r, now);
    case ClearUnanswered(r, now) => ClearStatusInv(cfg, st, r, now);
  }

  lemma StepInv(cfg: Config, st: State, step: Step)
    requires Inv(cfg, st)
    ensures Inv(cfg, Next(cfg, st, step))
  {
    if step.Sweep? {
      RetireInv(cfg, st, Expired(cfg, st.db, step.now), step.now);
      hide Inv, Retire, Expired;
    } else if step.Restart? {
      RestartInv(cfg, st, step.now);
      hide Inv, RestartProcess;
    } else if step.Start? || step.SendBegin? || step.LookupDone? || step.RecoveryReleased? || step.SendResume?
        || step.Respond? {
      hide Inv, Next;
      CallerStepInv(cfg, st, step);
    } else {
      hide Inv, Next;
      WorkerStepInv(cfg, st, step);
    }
  }

  lemma {:induction false} RunInv(cfg: Config, st: State, steps: seq<Step>)
    requires Inv(cfg, st)
    ensures Inv(cfg, Run(cfg, st, steps))
  {
    if steps == [] {
    } else {
      RunInv(cfg, st, steps[..|steps| - 1]);
      StepInv(cfg, Run(cfg, st, steps[..|steps| - 1]), steps[|steps| - 1]);
    }
  }
}
