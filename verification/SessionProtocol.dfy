/**
 * The work-session protocol as a state machine.
 *
 * Every stretch of code between two awaits is one step. The state holds the durable tables, the
 * broker's desk, the maps of the session manager and the calls that are suspended at an await.
 * Identities a step mints (session, worker process, request, call) are part of the step and must
 * be new; a step whose guard fails leaves the state alone.
 */
module SessionProtocol {
  import opened Options
  import opened Lifecycle
  import opened SessionRows
  import opened RequestBroker

  type WorkerId = nat
  type CallId = nat
  type RecoveryId = nat

  datatype Config = Config(enforceLock: bool, codexEnabled: bool, claudeCap: nat, codexCap: nat)

  /** A worker: callbacks may fire whenever it was started, `send` fails once it is disposed. */
  datatype Process = Process(session: SessionId, started: bool, disposed: bool)

  /** What the environment does when a worker is started. */
  datatype Spawn = SpawnOk | SpawnThrows

  datatype Target = OnWorker(worker: WorkerId) | OnRecovery(recovery: RecoveryId)
  /** A `sendInstruction` suspended at its await, with the status it read before. */
  datatype SendCall = SendCall(session: SessionId, snapshot: Status, target: Target)

  datatype Rebuilt = Lookup | Built(worker: WorkerId) | Refusal
  /** A recovery: waiting for the project lookup, or settled and perhaps already forgotten by the manager. */
  datatype Recovery = Recovery(session: SessionId, result: Rebuilt, released: bool)

  /** A `cancel` suspended at `interrupt` or, once `disposing`, at `dispose`. */
  datatype CancelCall = CancelCall(session: SessionId, worker: WorkerId, disposing: bool)

  datatype State = State(
    db: Db,
    desk: Desk,
    workers: map<SessionId, WorkerId>,
    processes: map<WorkerId, Process>,
    inFlight: map<SessionId, RecoveryId>,
    recoveries: map<RecoveryId, Recovery>,
    sends: map<CallId, SendCall>,
    cancels: map<CallId, CancelCall>)

  const INITIAL := State(Db(map[], map[], map[]), EMPTY_DESK, map[], map[], map[], map[], map[], map[])

  datatype Step =
    | Start(session: SessionId, provider: Provider, project: Option<ProjectId>, mode: Mode,
            worker: WorkerId, spawn: Spawn, now: Time)
    | SendBegin(call: CallId, session: SessionId, recovery: RecoveryId, worker: WorkerId, spawn: Spawn, now: Time)
    | LookupDone(recovery: RecoveryId, worker: WorkerId, spawn: Spawn)
    | RecoveryReleased(recovery: RecoveryId)
    | SendResume(call: CallId, now: Time)
    | Respond(session: SessionId, named: bool, request: RequestId, answer: string, negative: bool, now: Time)
    | CancelBegin(call: CallId, session: SessionId, now: Time)
    | CancelInterrupted(call: CallId)
    | CancelDisposed(call: CallId, now: Time)
    | TurnComplete(worker: WorkerId, now: Time)
    | WorkerFailed(worker: WorkerId, now: Time)
    | AskUser(worker: WorkerId, kind: RequestKind, request: RequestId, now: Time)
    | AskTimeout(request: RequestId, now: Time)
    | ClearUnanswered(request: RequestId, now: Time)
    | Sweep(now: Time)
    | Restart(now: Time)

  function Cap(cfg: Config, provider: Provider): nat {
    if provider.Codex? then cfg.codexCap else cfg.claudeCap
  }

  /** The wall-clock cap counts from the first start, or from creation when there was none. */
  predicate PastCap(cfg: Config, row: SessionRow, now: Time) {
    now - (if row.startedAt.Some? then row.startedAt.value else row.createdAt) > Cap(cfg, row.provider)
  }

  predicate ProviderAvailable(cfg: Config, provider: Provider) {
    provider.Codex? ==> cfg.codexEnabled
  }

  function Dispose(processes: map<WorkerId, Process>, w: WorkerId): map<WorkerId, Process> {
    if w in processes then processes[w := processes[w].(disposed := true)] else processes
  }

  /** Workers that are the map entry of one of the sessions `ids`. */
  function EntriesOf(workers: map<SessionId, WorkerId>, ids: set<SessionId>): set<WorkerId> {
    set s | s in workers && s in ids :: workers[s]
  }

  function DisposeAll(processes: map<WorkerId, Process>, ws: set<WorkerId>): map<WorkerId, Process> {
    map w | w in processes :: if w in ws then processes[w].(disposed := true) else processes[w]
  }

  /** Fail all of the sessions `ids` at once, with everything a failure takes along. */
  function Retire(st: State, ids: set<SessionId>, now: Time): State {
    st.(db := Db(map s | s in st.db.sessions ::
                   if s in ids then WithStatus(st.db.sessions[s], Failed, now) else st.db.sessions[s],
                 VoidOpen(st.db.requests, ids, now),
                 DropLocks(st.db.locks, ids)),
        workers := st.workers - ids,
        processes := DisposeAll(st.processes, EntriesOf(st.workers, ids)),
        desk := AbandonDesk(st.db.requests, st.desk, ids))
  }

  function Fail(st: State, id: SessionId, now: Time): State {
    if Live(st.db, id) then Retire(st, {id}, now) else st
  }

  function Abandon(st: State, id: SessionId, now: Time): State {
    st.(db := st.db.(requests := VoidOpen(st.db.requests, {id}, now)),
        desk := AbandonDesk(st.db.requests, st.desk, {id}))
  }

  function StartSession(cfg: Config, st: State, step: Step): State
    requires step.Start?
  {
    var s, w := step.session, step.worker;
    if s in st.db.sessions || w in st.processes || !ProviderAvailable(cfg, step.provider) then st
    else
      var writes := step.mode.Work?;
      var row := NewSession(step.provider, step.project, writes, step.now);
      var db := st.db.(sessions := st.db.sessions[s := row]);
      var locking := writes && step.project.Some? && cfg.enforceLock;
      if locking && !LockIsFree(db.locks, step.project.value, s)
      then st.(db := AfterChange(db, s, Cancelled, step.now))
      else
        var locked := if locking then db.(locks := db.locks[step.project.value := s]) else db;
        var begun := st.(db := locked,
                         workers := st.workers[s := w],
                         processes := st.processes[w := Process(s, step.spawn.SpawnOk?, false)]);
        if step.spawn.SpawnOk?
        then begun.(db := AfterChange(locked, s, Working, step.now))
        else Fail(begun, s, step.now)
  }

  /** The part of a recovery after the project lookup: re-read the row, then build and start a worker. */
  function Rebuild(cfg: Config, st: State, r: RecoveryId, w: WorkerId, spawn: Spawn): State
    requires r in st.recoveries
  {
    var rec := st.recoveries[r];
    var s := rec.session;
    if !Live(st.db, s) || !ProviderAvailable(cfg, st.db.sessions[s].provider)
    then st.(recoveries := st.recoveries[r := rec.(result := Refusal)])
    else if spawn.SpawnThrows?
    then st.(workers := st.workers - {s},
             processes := st.processes[w := Process(s, false, false)],
             recoveries := st.recoveries[r := rec.(result := Refusal)])
    else st.(workers := st.workers[s := w],
             processes := st.processes[w := Process(s, true, false)],
             recoveries := st.recoveries[r := rec.(result := Built(w))])
  }

  /** The live worker of a session, the recovery already in flight, or a new recovery. */
  function TargetFor(st: State, s: SessionId, r: RecoveryId): Target {
    if s in st.workers then OnWorker(st.workers[s])
    else if s in st.inFlight then OnRecovery(st.inFlight[s])
    else OnRecovery(r)
  }

  /** The state once a session's worker has been found or its recovery begun. */
  function AfterWorkerFor(cfg: Config, st: State, s: SessionId, r: RecoveryId, w: WorkerId, spawn: Spawn,
                          now: Time): State
    requires s in st.db.sessions
  {
    if s in st.workers || s in st.inFlight then st
    else
      var row := st.db.sessions[s];
      var refused := PastCap(cfg, row, now);
      var begun := st.(inFlight := st.inFlight[s := r],
                       recoveries := st.recoveries[r := Recovery(s, if refused then Refusal else Lookup, false)]);
      if refused || row.project.Some? then begun else Rebuild(cfg, begun, r, w, spawn)
  }

  predicate FindsWorker(st: State, step: Step)
    requires step.SendBegin?
  {
    || step.session in st.workers || step.session in st.inFlight
    || (step.recovery !in st.recoveries && step.worker !in st.processes)
  }

  function BeginSend(cfg: Config, st: State, step: Step): State
    requires step.SendBegin?
  {
    var s := step.session;
    if s !in st.db.sessions || !AcceptsInstruction(st.db.sessions[s].status) || step.call in st.sends
       || !FindsWorker(st, step)
    then st
    else
      var call := SendCall(s, st.db.sessions[s].status, TargetFor(st, s, step.recovery));
      AfterWorkerFor(cfg, st, s, step.recovery, step.worker, step.spawn, step.now)
        .(sends := st.sends[step.call := call])
  }

  function FinishLookup(cfg: Config, st: State, step: Step): State
    requires step.LookupDone?
  {
    if step.recovery in st.recoveries && st.recoveries[step.recovery].result.Lookup? && step.worker !in st.processes
    then Rebuild(cfg, st, step.recovery, step.worker, step.spawn)
    else st
  }

  function ReleaseRecovery(st: State, r: RecoveryId): State {
    if r in st.recoveries && !st.recoveries[r].result.Lookup? && !st.recoveries[r].released
    then st.(inFlight := st.inFlight - {st.recoveries[r].session},
             recoveries := st.recoveries[r := st.recoveries[r].(released := true)])
    else st
  }

  /** The worker a suspended send resumes with: none when its recovery was refused. */
  function ResumesWith(st: State, call: SendCall): Option<WorkerId> {
    match call.target
    case OnWorker(w) => Some(w)
    case OnRecovery(r) =>
      if r in st.recoveries && st.recoveries[r].result.Built? then Some(st.recoveries[r].result.worker) else None
  }

  predicate ReadyToResume(st: State, call: SendCall) {
    call.target.OnWorker? || (call.target.recovery in st.recoveries && st.recoveries[call.target.recovery].released)
  }

  /** `send` on a worker that is not running throws. */
  predicate SendWorks(st: State, w: Option<WorkerId>) {
    w.Some? && w.value in st.processes && st.processes[w.value].started && !st.processes[w.value].disposed
  }

  function CountTurn(db: Db, s: SessionId): Db {
    if s in db.sessions
    then db.(sessions := db.sessions[s := db.sessions[s].(turns := db.sessions[s].turns + 1)])
    else db
  }

  function ResumeSend(st: State, c: CallId, now: Time): State {
    if c !in st.sends || !ReadyToResume(st, st.sends[c]) then st
    else
      var call := st.sends[c];
      var rest := st.(sends := st.sends - {c});
      if !SendWorks(st, ResumesWith(st, call)) then rest
      else
        var counted := CountTurn(st.db, call.session);
        rest.(db := if call.snapshot.Working? then counted else AfterChange(counted, call.session, Working, now))
  }

  /** An answer to request `r` of session `s`, which is known to exist. */
  function DeliverTo(st: State, s: SessionId, r: RequestId, answer: string, negative: bool, now: Time): State
    requires s in st.db.sessions && r in st.db.requests
  {
    var denied := st.db.requests[r].kind.Approval? && negative;
    var a := AnswerRequest(st.db, r, answer, denied, now);
    if !a.Answered? then st
    else
      var status := st.db.sessions[s].status;
      st.(db := if status.NeedsInput? || status.AwaitingApproval? then AfterChange(a.db, s, Working, now) else a.db,
          desk := AnswerDesk(st.desk, r, answer, denied))
  }

  function Deliver(st: State, step: Step): State
    requires step.Respond?
  {
    var s, r := step.session, step.request;
    if s !in st.db.sessions then st
    else if step.named && r !in st.db.requests then st
    else if !step.named && !IsOldestOpen(st.db, s, r) then st
    else if st.db.requests[r].session != s then st
    else DeliverTo(st, s, r, step.answer, step.negative, step.now)
  }

  function FinishCancel(st: State, s: SessionId, now: Time): State {
    if s !in st.db.sessions then st
    else
      var quiet := Abandon(st, s, now);
      if Live(st.db, s) then quiet.(db := AfterChange(quiet.db, s, Cancelled, now)) else quiet
  }

  function BeginCancel(st: State, c: CallId, s: SessionId, now: Time): State {
    if !Live(st.db, s) || c in st.cancels then st
    else if s in st.workers then st.(cancels := st.cancels[c := CancelCall(s, st.workers[s], false)])
    else FinishCancel(st, s, now)
  }

  function InterruptedCancel(st: State, c: CallId): State {
    if c in st.cancels && !st.cancels[c].disposing
    then st.(processes := Dispose(st.processes, st.cancels[c].worker),
             cancels := st.cancels[c := st.cancels[c].(disposing := true)])
    else st
  }

  function DisposedCancel(st: State, c: CallId, now: Time): State {
    if c in st.cancels && st.cancels[c].disposing
    then FinishCancel(st.(workers := st.workers - {st.cancels[c].session}, cancels := st.cancels - {c}),
                      st.cancels[c].session, now)
    else st
  }

  predicate CallsBack(st: State, w: WorkerId) {
    w in st.processes && st.processes[w].started
  }

  function FinishTurn(st: State, w: WorkerId, now: Time): State {
    if CallsBack(st, w) && Live(st.db, st.processes[w].session)
    then st.(db := AfterChange(st.db, st.processes[w].session, Idle, now))
    else st
  }

  function Ask(st: State, w: WorkerId, kind: RequestKind, r: RequestId, now: Time): State {
    if !CallsBack(st, w) || r in st.db.requests then st
    else
      var s := st.processes[w].session;
      var c := ChangeStatus(st.db, s, if kind.Question? then NeedsInput else AwaitingApproval, now);
      if !c.Updated? then st
      else st.(db := c.db.(requests := c.db.requests[r := NewRequest(s, kind, now)]), desk := AskDesk(st.desk, r, s))
  }

  function TimeOut(st: State, r: RequestId, now: Time): State {
    if r in st.desk.timers
    then st.(db := st.db.(requests := VoidOpen(st.db.requests, {st.desk.timers[r]}, now)),
        desk := TimeoutDesk(st.desk, r))
    else st
  }

  /** After an ask was rejected, put the session back to work if it still claims to be waiting. */
  function ClearStatus(st: State, r: RequestId, now: Time): State {
    if r in st.db.requests && Rejected in History(st.desk.settled, r)
       && st.db.requests[r].session in st.db.sessions
       && var status := st.db.sessions[st.db.requests[r].session].status; status.NeedsInput? || status.AwaitingApproval?
    then st.(db := AfterChange(st.db, st.db.requests[r].session, Working, now))
    else st
  }

  /** What a sweep at `now` should end: sessions that have not finished and are past their cap. */
  function Expired(cfg: Config, db: Db, now: Time): set<SessionId> {
    set s | s in db.sessions && !IsTerminal(db.sessions[s].status) && PastCap(cfg, db.sessions[s], now)
  }

  /** A session is to be ended exactly when it lasts longer than its provider may, from first start or else creation. */
  lemma ExpiredExactly(cfg: Config, db: Db, now: Time)
    ensures forall s :: s in db.sessions ==>
              var row := db.sessions[s];
              var start := if row.startedAt.Some? then row.startedAt.value else row.createdAt;
              s in Expired(cfg, db, now)
              <==> row.status !in {Completed, Failed, Cancelled}
                   && now - start > if row.provider == Codex then cfg.codexCap else cfg.claudeCap
    ensures forall s :: s in Expired(cfg, db, now) ==> s in db.sessions
  {
  }

  /** The tables after startup recovery. */
  function Recovered(db: Db, now: Time): Db {
    var lost := Resumable(db);
    Db(map s | s in db.sessions ::
         if s in lost then WithStatus(db.sessions[s], Interrupted, now) else db.sessions[s],
       VoidOpen(db.requests, lost, now),
       DropLocks(db.locks, set s | s in db.sessions && IsTerminal(db.sessions[s].status)))
  }

  /** The process dies at a step boundary, taking workers, promises and timers with it, and starts again. */
  function RestartProcess(st: State, now: Time): State {
    State(Recovered(st.db, now), Desk(map[], map[], st.desk.settled), map[], map[], map[], map[], map[], map[])
  }

  function Next(cfg: Config, st: State, step: Step): State {
    match step
    case Start(_, _, _, _, _, _, _) => StartSession(cfg, st, step)
    case SendBegin(_, _, _, _, _, _) => BeginSend(cfg, st, step)
    case LookupDone(_, _, _) => FinishLookup(cfg, st, step)
    case RecoveryReleased(r) => ReleaseRecovery(st, r)
    case SendResume(c, now) => ResumeSend(st, c, now)
    case Respond(_, _, _, _, _, _) => Deliver(st, step)
    case CancelBegin(c, s, now) => BeginCancel(st, c, s, now)
    case CancelInterrupted(c) => InterruptedCancel(st, c)
    case CancelDisposed(c, now) => DisposedCancel(st, c, now)
    case TurnComplete(w, now) => FinishTurn(st, w, now)
    case WorkerFailed(w, now) => if CallsBack(st, w) then Fail(st, st.processes[w].session, now) else st
    case AskUser(w, kind, r, now) => Ask(st, w, kind, r, now)
    case AskTimeout(r, now) => TimeOut(st, r, now)
    case ClearUnanswered(r, now) => ClearStatus(st, r, now)
    case Sweep(now) => Retire(st, Expired(cfg, st.db, now), now)
    case Restart(now) => RestartProcess(st, now)
  }

  /** The state after a run of steps. */
  function Run(cfg: Config, st: State, steps: seq<Step>): State {
    if steps == [] then st else Next(cfg, Run(cfg, st, steps[..|steps| - 1]), steps[|steps| - 1])
  }
}
