/**
 * The durable half of work sessions: session rows, write locks and pending requests.
 *
 * `Db` is the value of the three tables. The functions say what each statement does to it;
 * the class `WorkSessionStore` changes the tables in place and is proved against them.
 */
module SessionRows {
  import opened Basics
  import opened Options
  import opened Lifecycle

  type SessionId = nat
  type ProjectId = nat
  type RequestId = nat
  /** Milliseconds. */
  type Time = int

  datatype Provider = Claude | Codex
  datatype Mode = Work | Plan | Inspect
  datatype RequestKind = Question | Approval

  datatype SessionRow = SessionRow(
    provider: Provider,
    project: Option<ProjectId>,
    writeCapable: bool,
    status: Status,
    createdAt: Time,
    startedAt: Option<Time>,
    finishedAt: Option<Time>,
    turns: nat)

  datatype RequestRow = RequestRow(
    session: SessionId,
    kind: RequestKind,
    createdAt: Time,
    answeredAt: Option<Time>,
    answer: Option<string>,
    denied: Option<bool>,
    voidedAt: Option<Time>)

  datatype Db = Db(
    sessions: map<SessionId, SessionRow>,
    requests: map<RequestId, RequestRow>,
    locks: map<ProjectId, SessionId>)

  datatype StatusResult = Updated(db: Db) | SessionNotFound | Refused(verdict: Verdict)
  datatype AnswerResult = Answered(db: Db) | RequestNotFound | AlreadyAnswered
  datatype StatusOutcome = StatusSet | NoSuchSession | StatusRefused(verdict: Verdict)
  datatype AnswerOutcome = AnswerRecorded | NoSuchRequest | RequestClosed
  datatype LockOutcome = LockTaken | LockHeldBy(holder: Option<SessionId>)

  predicate Live(db: Db, id: SessionId) {
    id in db.sessions && !IsTerminal(db.sessions[id].status)
  }

  predicate IsOpen(row: RequestRow) {
    row.answeredAt.None? && row.voidedAt.None?
  }

  /** Live sessions that may write to project `p`. */
  predicate WritesTo(db: Db, id: SessionId, p: ProjectId) {
    Live(db, id) && db.sessions[id].writeCapable && db.sessions[id].project == Some(p)
  }

  function NewSession(provider: Provider, project: Option<ProjectId>, writeCapable: bool, now: Time): SessionRow {
    SessionRow(provider, project, writeCapable, Starting, now, None, None, 0)
  }

  function NewRequest(session: SessionId, kind: RequestKind, now: Time): RequestRow {
    RequestRow(session, kind, now, None, None, None, None)
  }

  function WithStatus(row: SessionRow, next: Status, now: Time): SessionRow {
    row.(status := next,
         startedAt := if next.Working? && row.startedAt.None? then Some(now) else row.startedAt,
         finishedAt := if IsTerminal(next) && row.finishedAt.None? then Some(now) else row.finishedAt)
  }

  function VoidOpen(requests: map<RequestId, RequestRow>, ids: set<SessionId>, now: Time): map<RequestId, RequestRow> {
    map r | r in requests ::
      if requests[r].session in ids && IsOpen(requests[r]) then requests[r].(voidedAt := Some(now)) else requests[r]
  }

  function DropLocks(locks: map<ProjectId, SessionId>, ids: set<SessionId>): map<ProjectId, SessionId> {
    map p | p in locks && locks[p] !in ids :: locks[p]
  }

  /** The whole check-and-set of one status change, including what a finished session gives up. */
  function ChangeStatus(db: Db, id: SessionId, next: Status, now: Time): StatusResult {
    if id !in db.sessions then SessionNotFound
    else
      var verdict := AssertTransition(db.sessions[id].status, next);
      if !verdict.Legal? then Refused(verdict)
      else
        var sessions := db.sessions[id := WithStatus(db.sessions[id], next, now)];
        if IsTerminal(next)
        then Updated(Db(sessions, VoidOpen(db.requests, {id}, now), DropLocks(db.locks, {id})))
        else Updated(db.(sessions := sessions))
  }

  /** The tables after a status change that may be refused: a refusal throws and changes nothing. */
  function AfterChange(db: Db, id: SessionId, next: Status, now: Time): Db {
    var r := ChangeStatus(db, id, next, now);
    if r.Updated? then r.db else db
  }

  function AnswerRequest(db: Db, r: RequestId, answer: string, denied: bool, now: Time): AnswerResult {
    if r !in db.requests then RequestNotFound
    else if !IsOpen(db.requests[r]) then AlreadyAnswered
    else
      Answered(db.(requests := db.requests[r :=
        db.requests[r].(answeredAt := Some(now), answer := Some(answer), denied := Some(denied))]))
  }

  /** The primary key is the project and the session column is unique, so either clash refuses the insert. */
  predicate LockIsFree(locks: map<ProjectId, SessionId>, p: ProjectId, id: SessionId) {
    p !in locks && id !in locks.Values
  }

  /** `r` is one of the oldest open requests of session `id`. */
  predicate IsOldestOpen(db: Db, id: SessionId, r: RequestId) {
    && r in db.requests && db.requests[r].session == id && IsOpen(db.requests[r])
    && forall q :: q in db.requests && db.requests[q].session == id && IsOpen(db.requests[q])
                   ==> db.requests[r].createdAt <= db.requests[q].createdAt
  }

  function Resumable(db: Db): set<SessionId> {
    set s | s in db.sessions && ExpectsLiveWorker(db.sessions[s].status)
  }

  function InStatus(db: Db, status: Status): set<SessionId> {
    set s | s in db.sessions && db.sessions[s].status == status
  }

  class WorkSessionStore {
    var sessions: map<SessionId, SessionRow>
    var requests: map<RequestId, RequestRow>
    var locks: map<ProjectId, SessionId>

    function View(): Db
      reads this
    {
      Db(sessions, requests, locks)
    }

    constructor ()
      ensures View() == Db(map[], map[], map[])
    {
      sessions, requests, locks := map[], map[], map[];
    }

    method Create(id: SessionId, provider: Provider, project: Option<ProjectId>, writeCapable: bool, now: Time)
      requires id !in sessions
      modifies this`sessions
      ensures sessions == old(sessions)[id := NewSession(provider, project, writeCapable, now)]
    {
      sessions := sessions[id := NewSession(provider, project, writeCapable, now)];
    }

    method SetStatus(id: SessionId, next: Status, now: Time) returns (o: StatusOutcome)
      modifies this
      ensures View() == AfterChange(old(View()), id, next, now)
      ensures o == match ChangeStatus(old(View()), id, next, now)
                   case Updated(_) => StatusSet
                   case SessionNotFound => NoSuchSession
                   case Refused(v) => StatusRefused(v)
    {
      if id !in sessions {
        return NoSuchSession;
      }
      var verdict := AssertTransition(sessions[id].status, next);
      if !verdict.Legal? {
        return StatusRefused(verdict);
      }
      sessions := sessions[id := WithStatus(sessions[id], next, now)];
      if IsTerminal(next) {
        locks := DropLocks(locks, {id});
        requests := VoidOpen(requests, {id}, now);
      }
      return StatusSet;
    }

    method IncrementTurn(id: SessionId)
      modifies this`sessions
      ensures sessions == if id in old(sessions)
                          then old(sessions)[id := old(sessions)[id].(turns := old(sessions)[id].turns + 1)]
                          else old(sessions)
    {
      if id in sessions {
        sessions := sessions[id := sessions[id].(turns := sessions[id].turns + 1)];
      }
    }

    method CreatePendingRequest(r: RequestId, session: SessionId, kind: RequestKind, now: Time)
      requires r !in requests
      modifies this`requests
      ensures requests == old(requests)[r := NewRequest(session, kind, now)]
    {
      requests := requests[r := NewRequest(session, kind, now)];
    }

    /** One of the oldest open requests of a session, if it has any. */
    method GetOpenRequest(id: SessionId) returns (r: Option<RequestId>)
      ensures r.Some? ==> IsOldestOpen(View(), id, r.value)
      ensures r.None? ==> forall q :: q in requests && requests[q].session == id ==> !IsOpen(requests[q])
    {
      r := None;
      var remaining := requests.Keys;
      while remaining != {}
        invariant remaining <= requests.Keys
        invariant r.None? ==>
                    forall q :: q in requests.Keys - remaining && requests[q].session == id ==> !IsOpen(requests[q])
        invariant r.Some? ==>
                    && r.value in requests && requests[r.value].session == id && IsOpen(requests[r.value])
                    && forall q :: q in requests.Keys - remaining && requests[q].session == id && IsOpen(requests[q])
                         ==> requests[r.value].createdAt <= requests[q].createdAt
        decreases |remaining|
      {
        var q :| q in remaining;
        remaining := remaining - {q};
        if requests[q].session == id && IsOpen(requests[q])
           && (r.None? || requests[q].createdAt < requests[r.value].createdAt) {
          r := Some(q);
        }
      }
    }

    method AnswerPendingRequest(r: RequestId, answer: string, denied: bool, now: Time) returns (o: AnswerOutcome)
      modifies this`requests
      ensures match AnswerRequest(old(View()), r, answer, denied, now)
              case Answered(db) => o == AnswerRecorded && View() == db
              case RequestNotFound => o == NoSuchRequest && View() == old(View())
              case AlreadyAnswered => o == RequestClosed && View() == old(View())
    {
      if r !in requests {
        return NoSuchRequest;
      }
      var existing := requests[r];
      if existing.voidedAt.Some? {
        return RequestClosed;
      }
      if existing.answeredAt.Some? {
        return RequestClosed;
      }
      requests := requests[r := existing.(answeredAt := Some(now), answer := Some(answer), denied := Some(denied))];
      return AnswerRecorded;
    }

    method VoidOpenRequests(session: SessionId, now: Time)
      modifies this`requests
      ensures requests == VoidOpen(old(requests), {session}, now)
    {
      requests := VoidOpen(requests, {session}, now);
    }

    method TryAcquireProjectWriteLock(p: ProjectId, id: SessionId) returns (o: LockOutcome)
      modifies this`locks
      ensures p !in old(locks) && id !in old(locks).Values ==> o == LockTaken && locks == old(locks)[p := id]
      ensures p in old(locks) || id in old(locks).Values ==>
                && locks == old(locks)
                && o == LockHeldBy(if p in locks then Some(locks[p]) else None)
    {
      if LockIsFree(locks, p, id) {
        locks := locks[p := id];
        return LockTaken;
      }
      return LockHeldBy(if p in locks then Some(locks[p]) else None);
    }

    /** Startup drops the locks of sessions that have finished; the result is how many. */
    method ReleaseOrphanedLocks() returns (released: nat)
      modifies this`locks
      ensures locks == DropLocks(old(locks), set s | s in sessions && IsTerminal(sessions[s].status))
      ensures released == |old(locks)| - |locks|
      ensures released == 0 <==> locks == old(locks)
    {
      var finished := set s | s in sessions && IsTerminal(sessions[s].status);
      var kept := DropLocks(locks, finished);
      DropLocksShrinks(locks, finished);
      released := |locks| - |kept|;
      locks := kept;
    }
  }

  lemma DropLocksShrinks(locks: map<ProjectId, SessionId>, ids: set<SessionId>)
    ensures |DropLocks(locks, ids)| <= |locks|
    ensures |DropLocks(locks, ids)| == |locks| <==> DropLocks(locks, ids) == locks
  {
    var kept := DropLocks(locks, ids);
    SubsetSize(kept.Keys, locks.Keys);
    if kept.Keys == locks.Keys {
      assert kept == locks;
    }
  }
}
