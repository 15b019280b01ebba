/**
 * The bridge between a blocked worker and the answer from the phone.
 *
 * A `Desk` is the volatile half: which asks have a waiter and an armed timer, and how each ask's
 * promise has been settled so far. The settlement history is what "settles at most once" is about.
 */
module RequestBroker {
  import opened SessionRows

  datatype Settlement = Resolved(answer: string, denied: bool) | Rejected

  datatype Desk = Desk(
    waiters: map<RequestId, SessionId>,
    timers: map<RequestId, SessionId>,
    settled: map<RequestId, seq<Settlement>>)

  const EMPTY_DESK := Desk(map[], map[], map[])

  function History(settled: map<RequestId, seq<Settlement>>, r: RequestId): seq<Settlement> {
    if r in settled then settled[r] else []
  }

  function Settle(settled: map<RequestId, seq<Settlement>>, r: RequestId, how: Settlement)
    : map<RequestId, seq<Settlement>>
  {
    settled[r := History(settled, r) + [how]]
  }

  /** Asks whose waiter is abandoned when the sessions `ids` are: the owner is read from the request row. */
  function WaitersOf(requests: map<RequestId, RequestRow>, desk: Desk, ids: set<SessionId>): set<RequestId> {
    set r | r in desk.waiters && r in requests && requests[r].session in ids
  }

  function RejectAll(desk: Desk, asks: set<RequestId>): Desk {
    Desk(desk.waiters - asks,
         desk.timers - asks,
         map r | r in desk.settled.Keys + asks ::
           if r in asks then History(desk.settled, r) + [Rejected] else desk.settled[r])
  }

  function AbandonDesk(requests: map<RequestId, RequestRow>, desk: Desk, ids: set<SessionId>): Desk {
    RejectAll(desk, WaitersOf(requests, desk, ids))
  }

  function AskDesk(desk: Desk, r: RequestId, session: SessionId): Desk {
    desk.(waiters := desk.waiters[r := session], timers := desk.timers[r := session])
  }

  function AnswerDesk(desk: Desk, r: RequestId, answer: string, denied: bool): Desk {
    if r in desk.waiters
    then Desk(desk.waiters - {r}, desk.timers - {r}, Settle(desk.settled, r, Resolved(answer, denied)))
    else desk
  }

  function TimeoutDesk(desk: Desk, r: RequestId): Desk {
    Desk(desk.waiters - {r}, desk.timers - {r}, Settle(desk.settled, r, Rejected))
  }

  class PendingRequestBroker {
    const store: WorkSessionStore
    var waiters: map<RequestId, SessionId>
    /** Timers that have been set and neither fired nor cleared. */
    var timers: map<RequestId, SessionId>
    var settled: map<RequestId, seq<Settlement>>

    function View(): Desk
      reads this
    {
      Desk(waiters, timers, settled)
    }

    constructor (store: WorkSessionStore)
      ensures this.store == store && View() == EMPTY_DESK
    {
      this.store := store;
      waiters, timers, settled := map[], map[], map[];
    }

    /** Forget everything volatile, as a restart of the process does. */
    method Reset()
      modifies this
      ensures View() == Desk(map[], map[], old(settled))
    {
      waiters, timers := map[], map[];
    }

    method Ask(r: RequestId, session: SessionId, kind: RequestKind, now: Time)
      requires r !in store.requests
      modifies this, store`requests
      ensures store.requests == old(store.requests)[r := NewRequest(session, kind, now)]
      ensures View() == AskDesk(old(View()), r, session)
    {
      store.CreatePendingRequest(r, session, kind, now);
      timers := timers[r := session];
      waiters := waiters[r := session];
    }

    /** The timer of ask `r` fires: every open row of the session is voided, this ask alone is rejected. */
    method Timeout(r: RequestId, now: Time)
      requires r in timers
      modifies this, store`requests
      ensures store.requests == VoidOpen(old(store.requests), {old(timers)[r]}, now)
      ensures View() == TimeoutDesk(old(View()), r)
    {
      var session := timers[r];
      timers := timers - {r};
      waiters := waiters - {r};
      store.VoidOpenRequests(session, now);
      settled := Settle(settled, r, Rejected);
    }

    method Answer(r: RequestId, answer: string, denied: bool, now: Time) returns (o: AnswerOutcome)
      modifies this, store`requests
      ensures match AnswerRequest(old(store.View()), r, answer, denied, now)
              case Answered(db) =>
                o == AnswerRecorded && store.View() == db && View() == AnswerDesk(old(View()), r, answer, denied)
              case RequestNotFound =>
                o == NoSuchRequest && store.View() == old(store.View()) && View() == old(View())
              case AlreadyAnswered =>
                o == RequestClosed && store.View() == old(store.View()) && View() == old(View())
    {
      o := store.AnswerPendingRequest(r, answer, denied, now);
      if o != AnswerRecorded {
        return;
      }
      if r in waiters {
        waiters := waiters - {r};
        timers := timers - {r};
        settled := Settle(settled, r, Resolved(answer, denied));
      }
    }

    method AbandonSession(session: SessionId, now: Time)
      modifies this, store`requests
      ensures store.requests == VoidOpen(old(store.requests), {session}, now)
      ensures View() == AbandonDesk(old(store.requests), old(View()), {session})
    {
      store.VoidOpenRequests(session, now);
      var remaining := waiters.Keys;
      ghost var before := View();
      ghost var mine := WaitersOf(store.requests, before, {session});
      assert mine == WaitersOf(old(store.requests), before, {session});
      while remaining != {}
        invariant store.requests == VoidOpen(old(store.requests), {session}, now)
        invariant remaining <= before.waiters.Keys
        invariant View() == RejectAll(before, mine - remaining)
        decreases remaining
      {
        var r :| r in remaining;
        ghost var done := mine - remaining;
        remaining := remaining - {r};
        if r in store.requests && store.requests[r].session == session {
          waiters := waiters - {r};
          timers := timers - {r};
          settled := Settle(settled, r, Rejected);
          RejectOneMore(before, done, r);
          assert mine - remaining == done + {r};
        } else {
          assert mine - remaining == done;
        }
      }
      assert mine - remaining == mine;
    }
  }

  lemma RejectOneMore(desk: Desk, asks: set<RequestId>, r: RequestId)
    requires r !in asks
    ensures RejectAll(desk, asks + {r})
         == Desk(RejectAll(desk, asks).waiters - {r}, RejectAll(desk, asks).timers - {r},
                 Settle(RejectAll(desk, asks).settled, r, Rejected))
  {
    var one := RejectAll(desk, asks);
    var two := RejectAll(desk, asks + {r});
    assert two.waiters == one.waiters - {r};
    assert two.timers == one.timers - {r};
    assert two.settled == Settle(one.settled, r, Rejected);
  }
}
