/**
 * The session manager as an object. Each method is one stretch of code between two awaits and is
 * proved to take the protocol step of the same name; the maps are changed in place.
 */
module SessionManagement {
  import opened Options
  import opened Lifecycle
  import opened SessionRows
  import opened RequestBroker
  import opened SessionProtocol

  datatype StartOutcome = Begun | CodexUnavailable | ProjectBusy(heldBy: Option<SessionId>) | WorkerThrew
  datatype SendOutcome = Suspended | UnknownSession | NotAccepting
  datatype ResumeOutcome = Sent | RecoveryRefused | WorkerGone | StatusChangeRefused
  datatype RespondOutcome = Delivered | NothingOpen | WrongSession | Closed | NoSession
  datatype CancelOutcome = CancelSuspended | CancelDone | HadFinished | NoSuchWork

  /** `list` names every member of `ids` once. */
  ghost predicate Lists(list: seq<SessionId>, ids: set<SessionId>) {
    (forall s :: s in list <==> s in ids) && |list| == |ids|
  }

  lemma ReapedExactly(cfg: Config, db: Db, now: Time, reaped: seq<SessionId>)
    requires Lists(reaped, Expired(cfg, db, now))
    ensures forall s ::
              s in reaped <==>
              && s in db.sessions
              && var row := db.sessions[s];
                 && row.status !in {Completed, Failed, Cancelled}
                 && now - (if row.startedAt.Some? then row.startedAt.value else row.createdAt)
                    > (if row.provider == Codex then cfg.codexCap else cfg.claudeCap)
  {
    ExpiredExactly(cfg, db, now);
    hide Expired;
  }

  /** The two queries of a sweep list the live sessions; the expired ones among them are picked by the cap. */
  lemma CandidatesAreTheLive(cfg: Config, db: Db, now: Time)
    ensures var all := Resumable(db) + InStatus(db, Interrupted);
            && Expired(cfg, db, now) <= all <= db.sessions.Keys
            && (forall s :: s in all ==>
                  Live(db, s) && (s in Expired(cfg, db, now) <==> PastCap(cfg, db.sessions[s], now)))
  {
  }

  lemma SweepStep(cfg: Config, st: State, now: Time)
    ensures Next(cfg, st, Sweep(now)) == Retire(st, Expired(cfg, st.db, now), now)
  {
  }

  lemma RestartStep(cfg: Config, st: State, now: Time)
    ensures Next(cfg, st, Restart(now))
         == State(Recovered(st.db, now), Desk(map[], map[], st.desk.settled), map[], map[], map[], map[], map[], map[])
  {
  }

  lemma ListsMore(list: seq<SessionId>, ids: set<SessionId>)
    ensures Lists([], {})
    ensures forall s :: Lists(list, ids) && s !in ids ==> Lists(list + [s], ids + {s})
  {
  }

  /** Failing one more session. */
  lemma RetireMore(st: State, ids: set<SessionId>, s: SessionId, now: Time)
    requires s !in ids
    ensures Retire(Retire(st, ids, now), {s}, now) == Retire(st, ids + {s}, now)
  {
    hide DisposeAll, EntriesOf, AbandonDesk, VoidOpen, DropLocks, WithStatus;
    RetireMoreRows(st, ids, s, now);
    RetireMoreProcesses(st, ids, s);
    RetireMoreDesk(st, ids, s, now);
    assert st.workers - ids - {s} == st.workers - (ids + {s});
  }

  lemma RetireMoreRows(st: State, ids: set<SessionId>, s: SessionId, now: Time)
    requires s !in ids
    ensures Retire(Retire(st, ids, now), {s}, now).db == Retire(st, ids + {s}, now).db
  {
    hide DisposeAll, EntriesOf, AbandonDesk;
    var two, both := Retire(Retire(st, ids, now), {s}, now).db, Retire(st, ids + {s}, now).db;
    assert two.sessions == both.sessions;
    assert two.requests == both.requests;
    assert two.locks == both.locks;
  }

  lemma RetireMoreProcesses(st: State, ids: set<SessionId>, s: SessionId)
    requires s !in ids
    ensures DisposeAll(DisposeAll(st.processes, EntriesOf(st.workers, ids)), EntriesOf(st.workers - ids, {s}))
         == DisposeAll(st.processes, EntriesOf(st.workers, ids + {s}))
  {
    assert EntriesOf(st.workers, ids + {s}) == EntriesOf(st.workers, ids) + EntriesOf(st.workers - ids, {s});
  }

  lemma RetireMoreDesk(st: State, ids: set<SessionId>, s: SessionId, now: Time)
    requires s !in ids
    ensures AbandonDesk(VoidOpen(st.db.requests, ids, now), AbandonDesk(st.db.requests, st.desk, ids), {s})
         == AbandonDesk(st.db.requests, st.desk, ids + {s})
  {
    var voided := VoidOpen(st.db.requests, ids, now);
    var one := AbandonDesk(st.db.requests, st.desk, ids);
    var first, second := WaitersOf(st.db.requests, st.desk, ids), WaitersOf(voided, one, {s});
    assert WaitersOf(st.db.requests, st.desk, ids + {s}) == first + second;
    RejectTwice(st.desk, first, second);
  }

  lemma RejectTwice(desk: Desk, a: set<RequestId>, b: set<RequestId>)
    requires a !! b
    ensures RejectAll(RejectAll(desk, a), b) == RejectAll(desk, a + b)
  {
    var two, both := RejectAll(RejectAll(desk, a), b), RejectAll(desk, a + b);
    assert two.waiters == both.waiters;
    assert two.timers == both.timers;
    assert two.settled == both.settled;
  }

  /** The state once a session's worker was started or failed to. */
  function Launched(st: State, id: SessionId, w: WorkerId, spawn: Spawn, now: Time): State {
    var entered := st.(workers := st.workers[id := w],
        processes := st.processes[w := Process(id, spawn.SpawnOk?, false)]);
    if spawn.SpawnOk? then entered.(db := AfterChange(st.db, id, Working, now)) else Fail(entered, id, now)
  }

  /** The three ways a start can go once its session and worker are new. */
  lemma StartCases(cfg: Config, st: State, step: Step)
    requires step.Start? && step.session !in st.db.sessions && step.worker !in st.processes
    ensures var s := step.session;
            var added := st.db.(sessions :=
                st.db.sessions[s := NewSession(step.provider, step.project, step.mode.Work?, step.now)]);
            Next(cfg, st, step)
            == if !ProviderAvailable(cfg, step.provider) then st
               else if !(step.mode.Work? && step.project.Some? && cfg.enforceLock) then
                 Launched(st.(db := added), s, step.worker, step.spawn, step.now)
               else if LockIsFree(st.db.locks, step.project.value, s) then
                 Launched(st.(db := added.(locks := st.db.locks[step.project.value := s])), s, step.worker,
                     step.spawn, step.now)
               else st.(db := AfterChange(added, s, Cancelled, step.now))
  {
    hide Fail, AfterChange, LockIsFree, ProviderAvailable, NewSession;
  }

  /** Finding a worker leaves rows and suspended sends alone. */
  lemma NotSentYet(cfg: Config, st: State, id: SessionId, r: RecoveryId, w: WorkerId, spawn: Spawn, now: Time)
    ensures id in st.db.sessions ==> AfterWorkerFor(cfg, st, id, r, w, spawn, now).sends == st.sends
  {
    hide PastCap;
  }

  lemma FinishedDoesNotFail(st: State, id: SessionId, now: Time)
    requires !Live(st.db, id)
    ensures Fail(st, id, now) == st
  {
  }

  /** The statements of a failure, one after the other, add up to retiring the session. */
  lemma FailInSteps(st: State, id: SessionId, now: Time)
    requires Live(st.db, id)
    ensures var db := AfterChange(st.db, id, Failed, now);
            var processes := if id in st.workers then Dispose(st.processes, st.workers[id]) else st.processes;
            Fail(st, id, now)
            == st.(db := db.(requests := VoidOpen(db.requests, {id}, now)), workers := st.workers - {id},
                   processes := processes, desk := AbandonDesk(db.requests, st.desk, {id}))
  {
    hide DropLocks, WithStatus, VoidOpen, DisposeAll, EntriesOf, Dispose, AbandonDesk;
    FailedTables(st.db, id, now);
    FailedProcess(st, id);
    FailedDesk(st, id, now);
  }

  lemma FailedTables(db: Db, id: SessionId, now: Time)
    requires Live(db, id)
    ensures var after := AfterChange(db, id, Failed, now);
            && after.sessions == (map s | s in db.sessions ::
                                    if s in {id} then WithStatus(db.sessions[s], Failed, now) else db.sessions[s])
            && after.locks == DropLocks(db.locks, {id})
            && after.requests == VoidOpen(db.requests, {id}, now)
            && VoidOpen(after.requests, {id}, now) == after.requests
  {
    hide DropLocks, WithStatus;
  }

  lemma FailedProcess(st: State, id: SessionId)
    ensures DisposeAll(st.processes, EntriesOf(st.workers, {id}))
         == if id in st.workers then Dispose(st.processes, st.workers[id]) else st.processes
  {
    assert EntriesOf(st.workers, {id}) == if id in st.workers then {st.workers[id]} else {};
  }

  lemma FailedDesk(st: State, id: SessionId, now: Time)
    ensures AbandonDesk(VoidOpen(st.db.requests, {id}, now), st.desk, {id})
        == AbandonDesk(st.db.requests, st.desk, {id})
  {
    assert WaitersOf(VoidOpen(st.db.requests, {id}, now), st.desk, {id}) == WaitersOf(st.db.requests, st.desk, {id});
  }

  lemma RetireNext(st: State, ids: set<SessionId>, s: SessionId, now: Time)
    requires s !in ids && Live(st.db, s)
    ensures Fail(Retire(st, ids, now), s, now) == Retire(st, ids + {s}, now)
  {
    RetireMore(st, ids, s, now);
  }

  lemma DisposeNone(workers: map<SessionId, WorkerId>, processes: map<WorkerId, Process>)
    ensures DisposeAll(processes, EntriesOf(workers, {})) == processes && workers - {} == workers
  {
    assert EntriesOf(workers, {}) == {};
  }

  lemma NothingToDispose(workers: map<SessionId, WorkerId>, processes: map<WorkerId, Process>, ids: set<SessionId>)
    requires workers == map[] && processes == map[]
    ensures DisposeAll(processes, EntriesOf(workers, ids)) == map[] && workers - ids == map[]
  {
  }

  lemma DisposeNext(workers: map<SessionId, WorkerId>, processes: map<WorkerId, Process>, ids: set<SessionId>,
      s: SessionId)
    requires s !in ids
    ensures var before := DisposeAll(processes, EntriesOf(workers, ids));
            DisposeAll(processes, EntriesOf(workers, ids + {s}))
            == if s in workers - ids then Dispose(before, (workers - ids)[s]) else before
    ensures workers - (ids + {s}) == workers - ids - {s}
    ensures s !in workers - ids ==> workers - (ids + {s}) == workers - ids
  {
    assert EntriesOf(workers, ids + {s}) == EntriesOf(workers, ids) + if s in workers then {workers[s]} else {};
  }

  /** Startup recovery once the sessions `ids` are done and the orphaned locks are gone. */
  function PartlyRecovered(db: Db, ids: set<SessionId>, now: Time): Db {
    Db(map s | s in db.sessions :: if s in ids then WithStatus(db.sessions[s], Interrupted, now) else db.sessions[s],
       VoidOpen(db.requests, ids, now),
       DropLocks(db.locks, set s | s in db.sessions && IsTerminal(db.sessions[s].status)))
  }

  lemma RecoverNext(db: Db, ids: set<SessionId>, s: SessionId, now: Time)
    requires s !in ids && s in Resumable(db)
    ensures var moved := AfterChange(PartlyRecovered(db, ids, now), s, Interrupted, now);
            moved.(requests := VoidOpen(moved.requests, {s}, now)) == PartlyRecovered(db, ids + {s}, now)
  {
    var moved := AfterChange(PartlyRecovered(db, ids, now), s, Interrupted, now);
    var both := PartlyRecovered(db, ids + {s}, now);
    assert moved.sessions == both.sessions;
    assert VoidOpen(moved.requests, {s}, now) == both.requests;
  }

  lemma RecoverIsLegal(db: Db, ids: set<SessionId>, s: SessionId, now: Time)
    requires s !in ids && s in Resumable(db)
    ensures var moved := AfterChange(PartlyRecovered(db, ids, now), s, Interrupted, now);
            moved.locks == PartlyRecovered(db, ids, now).locks
  {
  }

  lemma RecoverAll(db: Db, now: Time)
    ensures PartlyRecovered(db, Resumable(db), now) == Recovered(db, now)
  {
  }

  lemma RecoverNone(db: Db, now: Time)
    ensures PartlyRecovered(db, {}, now)
         == db.(locks := DropLocks(db.locks, set s | s in db.sessions && IsTerminal(db.sessions[s].status)))
  {
    assert PartlyRecovered(db, {}, now).sessions == db.sessions;
    assert PartlyRecovered(db, {}, now).requests == db.requests;
  }

  lemma SameResumable(a: Db, b: Db)
    requires b.sessions == a.sessions
    ensures Resumable(b) == Resumable(a)
  {
  }

  /** In the middle of startup recovery: the sessions `done` are interrupted and their workers gone. */
  ghost predicate Recovering(before: Db, owned: map<SessionId, WorkerId>, running: map<WorkerId, Process>,
                             done: set<SessionId>, now: Time,
                             db: Db, workers: map<SessionId, WorkerId>, processes: map<WorkerId, Process>)
  {
    && db == PartlyRecovered(before, done, now)
    && workers == owned - done && processes == DisposeAll(running, EntriesOf(owned, done))
  }

  lemma RecoveringBegins(before: Db, owned: map<SessionId, WorkerId>, running: map<WorkerId, Process>, now: Time)
    ensures var finished := set s | s in before.sessions && IsTerminal(before.sessions[s].status);
            Recovering(before, owned, running, {}, now, before.(locks := DropLocks(before.locks, finished)), owned,
                running)
  {
    hide PartlyRecovered, DisposeAll, EntriesOf;
    RecoverNone(before, now);
    DisposeNone(owned, running);
  }

  lemma RecoveringNext(before: Db, owned: map<SessionId, WorkerId>, running: map<WorkerId, Process>,
                       done: set<SessionId>, now: Time,
                       db: Db, workers: map<SessionId, WorkerId>, processes: map<WorkerId, Process>, s: SessionId)
    requires Recovering(before, owned, running, done, now, db, workers, processes)
    requires s !in done && s in Resumable(before)
    ensures var moved := AfterChange(db, s, Interrupted, now);
            && moved.locks == db.locks
            && Recovering(before, owned, running, done + {s}, now,
                moved.(requests := VoidOpen(moved.requests, {s}, now)),
                          if s in workers then workers - {s} else workers,
                          if s in workers then Dispose(processes, workers[s]) else processes)
  {
    hide PartlyRecovered, DisposeAll, EntriesOf, AfterChange, VoidOpen, Dispose, Resumable;
    RecoverNext(before, done, s, now);
    RecoverIsLegal(before, done, s, now);
    DisposeNext(owned, running, done, s);
  }

  lemma RecoveringEnds(before: Db, owned: map<SessionId, WorkerId>, running: map<WorkerId, Process>, now: Time,
                       db: Db, workers: map<SessionId, WorkerId>, processes: map<WorkerId, Process>)
    requires Recovering(before, owned, running, Resumable(before), now, db, workers, processes)
    ensures db == Recovered(before, now) && workers == owned - Resumable(before)
    ensures processes == DisposeAll(running, EntriesOf(owned, Resumable(before)))
  {
    hide PartlyRecovered, DisposeAll, EntriesOf, Recovered, Resumable;
    RecoverAll(before, now);
  }

  lemma RetireNone(st: State, now: Time)
    ensures Retire(st, {}, now) == st
  {
    var none := Retire(st, {}, now);
    assert none.db.sessions == st.db.sessions;
    assert none.db.requests == st.db.requests;
    assert none.db.locks == st.db.locks;
    assert none.workers == st.workers;
    assert EntriesOf(st.workers, {}) == {};
    assert none.processes == st.processes;
    assert WaitersOf(st.db.requests, st.desk, {}) == {};
    assert none.desk.settled == st.desk.settled;
  }

  /** What the caller of a start is told; a refused lock names its holder. */
  function StartAnswer(cfg: Config, locks: map<ProjectId, SessionId>, id: SessionId, provider: Provider,
      project: Option<ProjectId>,
                       mode: Mode, spawn: Spawn): StartOutcome
  {
    if !ProviderAvailable(cfg, provider) then CodexUnavailable
    else if mode.Work? && project.Some? && cfg.enforceLock && !LockIsFree(locks, project.value, id)
    then ProjectBusy(if project.value in locks then Some(locks[project.value]) else None)
    else if spawn.SpawnThrows? then WorkerThrew
    else Begun
  }

  class SessionManager {
    const cfg: Config
    const store: WorkSessionStore
    const broker: PendingRequestBroker
    var workers: map<SessionId, WorkerId>
    var processes: map<WorkerId, Process>
    /** Recoveries in flight, so that concurrent callers share one worker build. */
    var inFlight: map<SessionId, RecoveryId>
    /** Suspended calls: recoveries, sends and cancels waiting at an await. */
    var recoveries: map<RecoveryId, Recovery>
    var sends: map<CallId, SendCall>
    var cancels: map<CallId, CancelCall>

    ghost predicate Valid()
      reads this
    {
      broker.store == store
    }

    function View(): State
      reads this, store, broker
    {
      State(store.View(), broker.View(), workers, processes, inFlight, recoveries, sends, cancels)
    }

    constructor (cfg: Config)
      ensures Valid() && this.cfg == cfg && View() == INITIAL
      ensures fresh(store) && fresh(broker)
    {
      this.cfg := cfg;
      var s := new WorkSessionStore();
      var b := new PendingRequestBroker(s);
      store, broker := s, b;
      workers, processes, inFlight, recoveries, sends, cancels := map[], map[], map[], map[], map[], map[];
    }

    method FailSession(id: SessionId, now: Time)
      requires Valid()
      modifies this`workers, this`processes, store, broker
      ensures View() == Fail(old(View()), id, now)
    {
      hide Fail, AfterChange, ChangeStatus, AbandonDesk, VoidOpen, Dispose;
      ghost var before := View();
      if id !in store.sessions || IsTerminal(store.sessions[id].status) {
        FinishedDoesNotFail(before, id, now);
        return;
      }
      FailInSteps(before, id, now);
      var o := store.SetStatus(id, Failed, now);
      if id in workers {
        processes := Dispose(processes, workers[id]);
      }
      workers := workers - {id};
      broker.AbandonSession(id, now);
    }

    method StartSession(id: SessionId, provider: Provider, project: Option<ProjectId>, mode: Mode,
                        w: WorkerId, spawn: Spawn, now: Time) returns (o: StartOutcome)
      requires Valid() && id !in store.sessions && w !in processes
      modifies this`workers, this`processes, store, broker
      ensures o == StartAnswer(cfg, old(store.locks), id, provider, project, mode, spawn)
      ensures View() == Next(cfg, old(View()), Start(id, provider, project, mode, w, spawn, now))
    {
      hide AfterChange, ChangeStatus, ProviderAvailable, LockIsFree, NewSession, Next, Launched;
      StartCases(cfg, View(), Start(id, provider, project, mode, w, spawn, now));
      if !ProviderAvailable(cfg, provider) {
        return CodexUnavailable;
      }
      store.Create(id, provider, project, mode.Work?, now);
      if mode.Work? && project.Some? && cfg.enforceLock {
        var lock := ClaimProject(project.value, id, now);
        if lock.LockHeldBy? {
          return ProjectBusy(lock.holder);
        }
      }
      o := Launch(id, w, spawn, now);
    }

    /** The write lock of the project, or else the new session goes straight to cancelled. */
    method ClaimProject(p: ProjectId, id: SessionId, now: Time) returns (lock: LockOutcome)
      modifies store
      ensures lock.LockTaken? <==> LockIsFree(old(store.locks), p, id)
      ensures lock.LockTaken? ==> store.View() == old(store.View()).(locks := old(store.locks)[p := id])
      ensures lock.LockHeldBy? ==>
                && store.View() == AfterChange(old(store.View()), id, Cancelled, now)
                && lock.holder == (if p in old(store.locks) then Some(old(store.locks)[p]) else None)
    {
      hide AfterChange, ChangeStatus;
      lock := store.TryAcquireProjectWriteLock(p, id);
      if lock.LockHeldBy? {
        var refused := store.SetStatus(id, Cancelled, now);
      }
    }

    /** The new worker enters the map and is started; if that throws, the session fails with it. */
    method Launch(id: SessionId, w: WorkerId, spawn: Spawn, now: Time) returns (o: StartOutcome)
      requires Valid()
      modifies this`workers, this`processes, store, broker
      ensures View() == Launched(old(View()), id, w, spawn, now)
      ensures o == if spawn.SpawnOk? then Begun else WorkerThrew
    {
      hide Fail, AfterChange, ChangeStatus;
      workers := workers[id := w];
      processes := processes[w := Process(id, spawn.SpawnOk?, false)];
      if spawn.SpawnThrows? {
        FailSession(id, now);
        return WorkerThrew;
      }
      var started := store.SetStatus(id, Working, now);
      return Begun;
    }

    /** `sendInstruction` up to its await: find, join or begin the session's worker. */
    method SendInstruction(c: CallId, id: SessionId, r: RecoveryId, w: WorkerId, spawn: Spawn, now: Time)
      returns (o: SendOutcome)
      requires Valid() && c !in sends && r !in recoveries && w !in processes
      modifies this
      ensures View() == Next(cfg, old(View()), SendBegin(c, id, r, w, spawn, now))
      ensures o == if id !in store.sessions then UnknownSession
                   else if !AcceptsInstruction(store.sessions[id].status) then NotAccepting
                   else Suspended
      ensures o.Suspended? <==> c in sends
    {
      hide AcceptsInstruction, AfterWorkerFor, TargetFor;
      NotSentYet(cfg, View(), id, r, w, spawn, now);
      if id !in store.sessions {
        return UnknownSession;
      }
      var status := store.sessions[id].status;
      if !AcceptsInstruction(status) {
        return NotAccepting;
      }
      var target := WorkerFor(id, r, w, spawn, now);
      sends := sends[c := SendCall(id, status, target)];
      return Suspended;
    }

    /** The live worker, the recovery already in flight, or a new recovery. */
    method WorkerFor(id: SessionId, r: RecoveryId, w: WorkerId, spawn: Spawn, now: Time) returns (target: Target)
      requires Valid() && id in store.sessions && r !in recoveries && w !in processes
      modifies this`workers, this`processes, this`inFlight, this`recoveries
      ensures target == TargetFor(old(View()), id, r)
      ensures View() == AfterWorkerFor(cfg, old(View()), id, r, w, spawn, now)
    {
      hide Rebuild, PastCap;
      if id in workers {
        return OnWorker(workers[id]);
      }
      if id in inFlight {
        return OnRecovery(inFlight[id]);
      }
      inFlight := inFlight[id := r];
      if PastCap(cfg, store.sessions[id], now) {
        recoveries := recoveries[r := Recovery(id, Refusal, false)];
      } else {
        recoveries := recoveries[r := Recovery(id, Lookup, false)];
        if store.sessions[id].project.None? {
          RebuildWorker(r, w, spawn);
        }
      }
      return OnRecovery(r);
    }

    /** The rest of a recovery once the project lookup has answered. */
    method RebuildWorker(r: RecoveryId, w: WorkerId, spawn: Spawn)
      requires Valid() && r in recoveries && w !in processes
      modifies this`workers, this`processes, this`recoveries
      ensures View() == Rebuild(cfg, old(View()), r, w, spawn)
    {
      var rec := recoveries[r];
      var id := rec.session;
      recoveries := recoveries[r := rec.(result := Refusal)];
      if id !in store.sessions || IsTerminal(store.sessions[id].status) {
        return;
      }
      if !ProviderAvailable(cfg, store.sessions[id].provider) {
        return;
      }
      processes := processes[w := Process(id, spawn.SpawnOk?, false)];
      workers := workers[id := w];
      if spawn.SpawnThrows? {
        workers := workers - {id};
        assert workers == old(workers) - {id};
        return;
      }
      recoveries := recoveries[r := rec.(result := Built(w))];
    }

    method FinishLookup(r: RecoveryId, w: WorkerId, spawn: Spawn)
      requires Valid() && r in recoveries && recoveries[r].result.Lookup? && w !in processes
      modifies this`workers, this`processes, this`recoveries
      ensures View() == Next(cfg, old(View()), LookupDone(r, w, spawn))
    {
      RebuildWorker(r, w, spawn);
    }

    /** The `finally` of a settled recovery. */
    method ForgetRecovery(r: RecoveryId)
      requires Valid() && r in recoveries && !recoveries[r].result.Lookup? && !recoveries[r].released
      modifies this`inFlight, this`recoveries
      ensures View() == Next(cfg, old(View()), RecoveryReleased(r))
    {
      inFlight := inFlight - {recoveries[r].session};
      recoveries := recoveries[r := recoveries[r].(released := true)];
    }

    /** `sendInstruction` after its await. */
    method ResumeInstruction(c: CallId, now: Time) returns (o: ResumeOutcome)
      requires Valid() && c in sends && ReadyToResume(View(), sends[c])
      modifies this`sends, store
      ensures o.Sent? ==> SendWorks(old(View()), ResumesWith(old(View()), old(sends)[c]))
      ensures o.WorkerGone? || o.RecoveryRefused? ==> store.View() == old(store.View())
      ensures View() == Next(cfg, old(View()), SendResume(c, now))
    {
      hide ReadyToResume, ResumesWith, AfterChange, ChangeStatus;
      var call := sends[c];
      var worker := ResumesWith(View(), call);
      var works := SendWorks(View(), worker);
      sends := sends - {c};
      if worker.None? {
        return RecoveryRefused;
      }
      if !works {
        return WorkerGone;
      }
      store.IncrementTurn(call.session);
      if !call.snapshot.Working? {
        var moved := store.SetStatus(call.session, Working, now);
        if !moved.StatusSet? {
          return StatusChangeRefused;
        }
      }
      return Sent;
    }

    /** Answers the request that is named or, without a name, the session's oldest open one. */
    method Respond(id: SessionId, named: Option<RequestId>, answer: string, negative: bool, now: Time)
      returns (o: RespondOutcome, r: RequestId)
      requires Valid()
      modifies store, broker
      ensures View() == Next(cfg, old(View()), SessionProtocol.Respond(id, named.Some?, r, answer, negative, now))
      ensures named.Some? ==> r == named.value
      ensures o.Delivered? ==>
                && r in old(store.requests) && IsOpen(old(store.requests)[r])
                && r in store.requests && store.requests[r].answer == Some(answer)
                && store.requests[r].denied == Some(old(store.requests)[r].kind.Approval? && negative)
      ensures !o.Delivered? ==> View() == old(View())
      ensures o.NothingOpen? ==>
                if named.Some? then r !in store.requests
                else forall q :: q in store.requests && store.requests[q].session == id ==> !IsOpen(store.requests[q])
    {
      r := if named.Some? then named.value else 0;
      if id !in store.sessions {
        return NoSession, r;
      }
      if named.None? {
        var found := store.GetOpenRequest(id);
        if found.None? {
          return NothingOpen, r;
        }
        r := found.value;
      }
      if r !in store.requests {
        return NothingOpen, r;
      }
      if store.requests[r].session != id {
        return WrongSession, r;
      }
      o := DeliverAnswer(id, r, answer, negative, now);
    }

    method DeliverAnswer(id: SessionId, r: RequestId, answer: string, negative: bool, now: Time)
      returns (o: RespondOutcome)
      requires Valid() && id in store.sessions && r in store.requests
      modifies store, broker
      ensures View() == DeliverTo(old(View()), id, r, answer, negative, now)
      ensures o == if IsOpen(old(store.requests)[r]) then Delivered else Closed
      ensures o.Delivered? ==>
                && r in store.requests && store.requests[r].answer == Some(answer)
                && store.requests[r].denied == Some(old(store.requests)[r].kind.Approval? && negative)
      ensures o.Closed? ==> View() == old(View())
    {
      var status := store.sessions[id].status;
      var denied := store.requests[r].kind.Approval? && negative;
      var a := broker.Answer(r, answer, denied, now);
      if a != AnswerRecorded {
        return Closed;
      }
      if status.NeedsInput? || status.AwaitingApproval? {
        var moved := store.SetStatus(id, Working, now);
      }
      return Delivered;
    }

    /** `cancel` up to its first await; with no worker to stop it runs to its end. */
    method Cancel(c: CallId, id: SessionId, now: Time) returns (o: CancelOutcome)
      requires Valid() && c !in cancels
      modifies this`cancels, store, broker
      ensures View() == Next(cfg, old(View()), CancelBegin(c, id, now))
      ensures o.CancelSuspended? <==> c in cancels
      ensures o.CancelDone? ==> id in store.sessions && store.sessions[id].status == Cancelled
    {
      if id !in store.sessions {
        return NoSuchWork;
      }
      if IsTerminal(store.sessions[id].status) {
        return HadFinished;
      }
      if id in workers {
        cancels := cancels[c := CancelCall(id, workers[id], false)];
        return CancelSuspended;
      }
      o := EndCancel(id, now);
    }

    method EndCancel(id: SessionId, now: Time) returns (o: CancelOutcome)
      requires Valid() && id in store.sessions
      modifies store, broker
      ensures View() == FinishCancel(old(View()), id, now)
      ensures o == if IsTerminal(old(store.sessions)[id].status) then HadFinished else CancelDone
      ensures o.CancelDone? ==> id in store.sessions && store.sessions[id].status == Cancelled
    {
      if IsTerminal(store.sessions[id].status) {
        broker.AbandonSession(id, now);
        return HadFinished;
      }
      broker.AbandonSession(id, now);
      var moved := store.SetStatus(id, Cancelled, now);
      return CancelDone;
    }

    /** The interrupt has returned: dispose the worker and wait for that. */
    method CancelAfterInterrupt(c: CallId)
      requires Valid() && c in cancels && !cancels[c].disposing
      modifies this`processes, this`cancels
      ensures View() == Next(cfg, old(View()), CancelInterrupted(c))
    {
      processes := Dispose(processes, cancels[c].worker);
      cancels := cancels[c := cancels[c].(disposing := true)];
    }

    /** The worker is disposed: drop its entry, re-read the row and finish. */
    method CancelAfterDispose(c: CallId, now: Time) returns (o: CancelOutcome)
      requires Valid() && c in cancels && cancels[c].disposing
      modifies this`workers, this`cancels, store, broker
      ensures View() == Next(cfg, old(View()), CancelDisposed(c, now))
    {
      var id := cancels[c].session;
      workers := workers - {id};
      cancels := cancels - {c};
      if id !in store.sessions {
        return NoSuchWork;
      }
      o := EndCancel(id, now);
    }

    // Worker callbacks.

    method OnTurnComplete(w: WorkerId, now: Time)
      requires Valid() && CallsBack(View(), w)
      modifies store
      ensures View() == Next(cfg, old(View()), TurnComplete(w, now))
    {
      var id := processes[w].session;
      if id !in store.sessions || IsTerminal(store.sessions[id].status) {
        return;
      }
      var moved := store.SetStatus(id, Idle, now);
    }

    method OnError(w: WorkerId, now: Time)
      requires Valid() && CallsBack(View(), w)
      modifies this`workers, this`processes, store, broker
      ensures View() == Next(cfg, old(View()), WorkerFailed(w, now))
    {
      FailSession(processes[w].session, now);
    }

    /** `askUser` and `requestApproval` up to their await; refused when the session cannot wait. */
    method OnAsk(w: WorkerId, kind: RequestKind, r: RequestId, now: Time) returns (asked: bool)
      requires Valid() && CallsBack(View(), w) && r !in store.requests
      modifies store, broker
      ensures View() == Next(cfg, old(View()), AskUser(w, kind, r, now))
      ensures asked <==> r in store.requests
      ensures asked ==> IsOpen(store.requests[r]) && r in broker.waiters && r in broker.timers
    {
      var id := processes[w].session;
      var moved := store.SetStatus(id, if kind.Question? then NeedsInput else AwaitingApproval, now);
      if !moved.StatusSet? {
        return false;
      }
      broker.Ask(r, id, kind, now);
      return true;
    }

    /** After a rejected ask: a session that still claims to be waiting goes back to work. */
    method ClearUnansweredStatus(r: RequestId, now: Time)
      requires Valid() && r in store.requests && Rejected in History(broker.settled, r)
      modifies store
      ensures View() == Next(cfg, old(View()), ClearUnanswered(r, now))
    {
      var id := store.requests[r].session;
      if id !in store.sessions || IsTerminal(store.sessions[id].status) {
        return;
      }
      var status := store.sessions[id].status;
      if !status.NeedsInput? && !status.AwaitingApproval? {
        return;
      }
      var moved := store.SetStatus(id, Working, now);
    }

    // Sweeping and restarting.

    /** Fail every session past its cap, one after the other, in whatever order the rows come. */
    method ReapExpiredSessions(now: Time) returns (reaped: seq<SessionId>)
      requires Valid()
      modifies this`workers, this`processes, store, broker
      ensures View() == Next(cfg, old(View()), Sweep(now))
      ensures Lists(reaped, Expired(cfg, old(store.View()), now))
      ensures forall s ::
                s in reaped <==>
                && s in old(store.View()).sessions
                && var row := old(store.View()).sessions[s];
                   && row.status !in {Completed, Failed, Cancelled}
                   && now - (if row.startedAt.Some? then row.startedAt.value else row.createdAt)
                      > (if row.provider == Codex then cfg.codexCap else cfg.claudeCap)
    {
      hide Next, Retire, Fail, PastCap, Lists, Expired, Resumable, InStatus, Live;
      ghost var before := View();
      var rows := store.sessions;
      var candidates := Resumable(store.View()) + InStatus(store.View(), Interrupted);
      ghost var all, expired := candidates, Expired(cfg, before.db, now);
      CandidatesAreTheLive(cfg, before.db, now);
      reaped := [];
      ghost var done := {};
      ListsMore([], {});
      RetireNone(before, now);
      while candidates != {}
        invariant candidates <= all
        invariant done == (all - candidates) * expired
        invariant View() == Retire(before, done, now)
        invariant Lists(reaped, done)
        decreases candidates
      {
        var s :| s in candidates;
        candidates := candidates - {s};
        if PastCap(cfg, rows[s], now) {
          RetireNext(before, done, s, now);
          FailSession(s, now);
          ListsMore(reaped, done);
          reaped := reaped + [s];
          done := done + {s};
        }
      }
      assert done == expired;
      SweepStep(cfg, before, now);
      ReapedExactly(cfg, before.db, now, reaped);
    }

    /**
     * Startup: every session that expects a worker becomes interrupted. After a restart no worker is
     * left; on a running manager those of the interrupted sessions are removed and disposed.
     */
    method RecoverOnStartup(now: Time) returns (interrupted: nat, locksReleased: nat)
      requires Valid()
      modifies this`workers, this`processes, store
      ensures workers == old(workers) - Resumable(old(store.View()))
      ensures processes == DisposeAll(old(processes), EntriesOf(old(workers), Resumable(old(store.View()))))
      ensures store.View() == Recovered(old(store.View()), now)
      ensures interrupted == |Resumable(old(store.View()))|
      ensures locksReleased == |old(store.locks)| - |store.locks|
    {
      hide Recovering, PartlyRecovered, AfterChange, ChangeStatus, VoidOpen, DropLocks, DisposeAll, EntriesOf, Dispose,
           Recovered, Resumable;
      ghost var before := store.View();
      ghost var owned, running := workers, processes;
      locksReleased := store.ReleaseOrphanedLocks();
      RecoveringBegins(before, owned, running, now);
      SameResumable(before, store.View());
      var remaining := Resumable(store.View());
      ghost var lost := remaining;
      ghost var done: set<SessionId> := {};
      interrupted := 0;
      while remaining != {}
        invariant done + remaining == lost && done !! remaining && lost == Resumable(before)
        invariant interrupted == |done|
        invariant |store.locks| == |before.locks| - locksReleased
        invariant Recovering(before, owned, running, done, now, store.View(), workers, processes)
        decreases remaining
      {
        var s :| s in remaining;
        remaining := remaining - {s};
        RecoveringNext(before, owned, running, done, now, store.View(), workers, processes, s);
        if s in workers {
          var existing := workers[s];
          workers := workers - {s};
          processes := Dispose(processes, existing);
        }
        var moved := store.SetStatus(s, Interrupted, now);
        store.VoidOpenRequests(s, now);
        done := done + {s};
        interrupted := interrupted + 1;
      }
      assert done == lost;
      RecoveringEnds(before, owned, running, now, store.View(), workers, processes);
    }

    /** The process dies between two steps and comes up again on the same database. */
    method RestartProcess(now: Time) returns (interrupted: nat, locksReleased: nat)
      requires Valid()
      modifies this, store, broker
      ensures View() == Next(cfg, old(View()), Restart(now))
      ensures interrupted == |Resumable(old(store.View()))|
    {
      hide Next, Recovered, Resumable, DisposeAll, EntriesOf;
      RestartStep(cfg, View(), now);
      workers, processes, inFlight, recoveries, sends, cancels := map[], map[], map[], map[], map[], map[];
      broker.Reset();
      NothingToDispose(workers, processes, Resumable(store.View()));
      interrupted, locksReleased := RecoverOnStartup(now);
    }
  }
}
