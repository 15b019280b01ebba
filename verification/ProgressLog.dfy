/**
 * The progress table: one id counter shared by all sessions, each append trimming its own session.
 */
module ProgressLog {

  type Id = nat

  datatype Row<+E> = Row(session: string, event: E)

  datatype Table<+E> = Table(rows: map<Id, Row<E>>, nextId: Id)

  function Empty<E>(): Table<E> {
    Table(map[], 1)
  }

  // ---------------------------------------------------------------- queries

  ghost predicate IsGreatest(m: Id, ids: set<Id>) {
    m in ids && forall k :: k in ids ==> k <= m
  }

  lemma {:induction false} HasGreatest(ids: set<Id>)
    requires ids != {}
    ensures exists m :: IsGreatest(m, ids)
  {
    var x :| x in ids;
    var rest := ids - {x};
    if rest == {} {
      assert ids == rest + {x} && IsGreatest(x, ids);
    } else {
      HasGreatest(rest);
      var m :| IsGreatest(m, rest);
      GreatestWith(m, rest, x);
      assert ids == rest + {x};
    }
  }

  lemma GreatestWith(m: Id, rest: set<Id>, x: Id)
    requires IsGreatest(m, rest)
    ensures IsGreatest(if m > x then m else x, rest + {x})
  {
  }

  function Greatest(ids: set<Id>): (m: Id)
    requires ids != {}
    ensures m in ids && forall k :: k in ids ==> k <= m
  {
    HasGreatest(ids);
    assert exists m :: IsGreatest(m, ids);
    var m :| m in ids && forall k :: k in ids ==> k <= m;
    m
  }

  /** ORDER BY id DESC. */
  function NewestFirst(ids: set<Id>): seq<Id> {
    if ids == {} then [] else [Greatest(ids)] + NewestFirst(ids - {Greatest(ids)})
  }

  /** LIMIT; a negative one is no limit. */
  function Limit<T>(s: seq<T>, limit: int): seq<T> {
    if limit < 0 || |s| <= limit then s else s[..limit]
  }

  function Reverse<T>(s: seq<T>): seq<T> {
    if s == [] then [] else Reverse(s[1..]) + [s[0]]
  }

  function IdsOf<E>(rows: map<Id, Row<E>>, session: string): set<Id> {
    set id | id in rows && rows[id].session == session
  }

  function Trimmed<E>(rows: map<Id, Row<E>>, session: string, maxEvents: int): map<Id, Row<E>> {
    var kept := Limit(NewestFirst(IdsOf(rows, session)), maxEvents);
    map id | id in rows && (rows[id].session != session || id in kept) :: rows[id]
  }

  function Appended<E>(t: Table<E>, maxEvents: int, row: Row<E>): Table<E> {
    Table(Trimmed(t.rows[t.nextId := row], row.session, maxEvents), t.nextId + 1)
  }

  function EventsAt<E>(rows: map<Id, Row<E>>, ids: seq<Id>): seq<E>
    requires forall id :: id in ids ==> id in rows
  {
    seq(|ids|, i requires 0 <= i < |ids| => rows[ids[i]].event)
  }

  lemma {:induction false} NewestFirstHasAll(ids: set<Id>)
    ensures forall id :: id in NewestFirst(ids) <==> id in ids
  {
    if ids == {} {
    } else {
      NewestFirstHasAll(ids - {Greatest(ids)});
    }
  }

  lemma LimitedAreRows<E>(rows: map<Id, Row<E>>, session: string, limit: int)
    ensures forall id :: id in Reverse(Limit(NewestFirst(IdsOf(rows, session)), limit)) ==> id in rows
  {
    var ids := NewestFirst(IdsOf(rows, session));
    NewestFirstHasAll(IdsOf(rows, session));
    assert forall id :: id in Limit(ids, limit) ==> id in ids;
    ReverseHasAll<Id>(Limit(ids, limit));
  }

  lemma {:induction false} ReverseHasAll<T>(s: seq<T>)
    ensures |Reverse(s)| == |s| && forall x :: x in Reverse(s) <==> x in s
  {
    if s == [] {
    } else {
      ReverseHasAll(s[1..]);
    }
  }

  function Listed<E>(rows: map<Id, Row<E>>, session: string, limit: int): seq<E> {
    LimitedAreRows(rows, session, limit);
    EventsAt(rows, Reverse(Limit(NewestFirst(IdsOf(rows, session)), limit)))
  }

  class ProgressStore<E> {
    const maxProgressEvents: int
    var rows: map<Id, Row<E>>
    var nextId: Id

    ghost function View(): Table<E>
      reads this
    {
      Table(rows, nextId)
    }

    constructor (maxProgressEvents: int)
      ensures this.maxProgressEvents == maxProgressEvents && View() == Empty()
    {
      this.maxProgressEvents := maxProgressEvents;
      rows := map[];
      nextId := 1;
    }

    /** INSERT, then DELETE what the session keeps no longer. */
    method AppendProgress(session: string, event: E) returns (id: Id)
      modifies this
      ensures id == old(nextId)
      ensures View() == Appended(old(View()), maxProgressEvents, Row(session, event))
    {
      id := nextId;
      rows := rows[id := Row(session, event)];
      nextId := nextId + 1;
      var kept := Limit(NewestFirst(IdsOf(rows, session)), maxProgressEvents);
      rows := map k | k in rows && (rows[k].session != session || k in kept) :: rows[k];
    }

    /** SELECT newest first up to the limit, reversed. */
    method ListProgress(session: string, limit: int) returns (events: seq<E>)
      ensures events == Listed(rows, session, limit)
    {
      var ids := Reverse(Limit(NewestFirst(IdsOf(rows, session)), limit));
      LimitedAreRows(rows, session, limit);
      events := EventsAt(rows, ids);
    }
  }

  // ---------------------------------------------------------------- the full log

  /** The table after a history of appends of all sessions. */
  function Run<E>(maxEvents: int, history: seq<Row<E>>): Table<E> {
    if history == [] then Empty()
    else Appended(Run(maxEvents, history[..|history| - 1]), maxEvents, history[|history| - 1])
  }

  /** Everything a session ever appended, oldest first. */
  function FullLog<E>(history: seq<Row<E>>, session: string): seq<E> {
    if history == [] then []
    else
      var last := history[|history| - 1];
      FullLog(history[..|history| - 1], session) + if last.session == session then [last.event] else []
  }

  /** The last `n` of a log; all of it if `n` is negative. */
  function LastOf<T>(log: seq<T>, n: int): seq<T> {
    if n < 0 || |log| <= n then log else log[|log| - n..]
  }

  /** Ids a session ever got, newest first: the k-th append of the history has id k. */
  function AllIds<E>(history: seq<Row<E>>, session: string): seq<Id> {
    if history == [] then []
    else
      var last := history[|history| - 1];
      (if last.session == session then [|history|] else []) + AllIds(history[..|history| - 1], session)
  }

  ghost predicate Faithful<E(!new)>(t: Table<E>, maxEvents: int, history: seq<Row<E>>, session: string) {
    && t.nextId == |history| + 1
    && (forall id :: id in t.rows ==> 1 <= id <= |history| && t.rows[id] == history[id - 1])
    && NewestFirst(IdsOf(t.rows, session)) == Limit(AllIds(history, session), maxEvents)
  }

  lemma NewGreatest(ids: set<Id>, m: Id)
    requires forall k :: k in ids ==> k < m
    ensures NewestFirst(ids + {m}) == [m] + NewestFirst(ids)
  {
    assert Greatest(ids + {m}) == m;
    assert ids + {m} - {m} == ids;
  }

  function Members(ids: seq<Id>): set<Id> {
    set id | id in ids
  }

  /** Selecting the newest `n` and listing them again gives the same list. */
  lemma {:induction false} NewestOfNewest(ids: set<Id>, n: int)
    ensures NewestFirst(Members(Limit(NewestFirst(ids), n))) == Limit(NewestFirst(ids), n)
  {
    hide NewestFirst;
    NewestFirstHasAll(ids);
    NewestFirstTurn(ids);
    if n < 0 || ids == {} {
      assert Members(NewestFirst(ids)) == ids;
    } else if n == 0 {
      NewestFirstTurn({});
      assert Members([]) == {};
    } else {
      var m := Greatest(ids);
      var older := Limit(NewestFirst(ids - {m}), n - 1);
      NewestOfNewest(ids - {m}, n - 1);
      LimitSplits(m, NewestFirst(ids - {m}), n);
      forall k | k in Members(older) ensures k < m {
        NewestFirstHasAll(ids - {m});
        assert k in NewestFirst(ids - {m});
      }
      NewGreatest(Members(older), m);
    }
  }

  lemma NewestFirstTurn(ids: set<Id>)
    ensures NewestFirst(ids) == if ids == {} then [] else [Greatest(ids)] + NewestFirst(ids - {Greatest(ids)})
  {
  }

  lemma LimitSplits(first: Id, rest: seq<Id>, n: int)
    requires n > 0
    ensures Limit([first] + rest, n) == [first] + Limit(rest, n - 1)
    ensures Members(Limit([first] + rest, n)) == Members(Limit(rest, n - 1)) + {first}
  {
    var limited := [first] + Limit(rest, n - 1);
    assert Limit([first] + rest, n) == limited;
    assert forall id :: id in limited <==> id == first || id in Limit(rest, n - 1);
  }

  /** Appending an event of the same session: the new id first, then the old ones, cut to the limit. */
  lemma LimitAgain<T>(first: T, older: seq<T>, n: int)
    ensures Limit([first] + Limit(older, n), n) == Limit([first] + older, n)
  {
    if 0 < n < |older| {
      assert ([first] + older[..n])[..n] == [first] + older[..n - 1];
      assert ([first] + older)[..n] == [first] + older[..n - 1];
    }
  }

  lemma KeepsRows<E>(t: Table<E>, maxEvents: int, history: seq<Row<E>>, row: Row<E>)
    requires t.nextId == |history| + 1
    requires forall id :: id in t.rows ==> 1 <= id <= |history| && t.rows[id] == history[id - 1]
    ensures var after := Appended(t, maxEvents, row);
            forall id :: id in after.rows ==> 1 <= id <= |history| + 1 && after.rows[id] == (history + [row])[id - 1]
  {
  }

  lemma AppendOther<E(!new)>(t: Table<E>, maxEvents: int, history: seq<Row<E>>, row: Row<E>, session: string)
    requires Faithful(t, maxEvents, history, session) && row.session != session
    ensures Faithful(Appended(t, maxEvents, row), maxEvents, history + [row], session)
  {
    hide NewestFirst;
    var after := Appended(t, maxEvents, row);
    KeepsRows(t, maxEvents, history, row);
    assert IdsOf(after.rows, session) == IdsOf(t.rows, session);
    assert (history + [row])[..|history|] == history;
    assert [] + AllIds(history, session) == AllIds(history, session);
  }

  lemma AppendOwn<E(!new)>(t: Table<E>, maxEvents: int, history: seq<Row<E>>, row: Row<E>)
    requires Faithful(t, maxEvents, history, row.session)
    ensures Faithful(Appended(t, maxEvents, row), maxEvents, history + [row], row.session)
  {
    KeepsRows(t, maxEvents, history, row);
    KeptIds(t, maxEvents, row);
    NewId(history, row);
    hide NewestFirst, Appended, AllIds, IdsOf, Members, Limit;
    NewestKept(IdsOf(t.rows, row.session), t.nextId, maxEvents, AllIds(history, row.session));
  }

  /** A new greatest id goes to the front of the kept ones. */
  lemma NewestKept(ids: set<Id>, next: Id, maxEvents: int, all: seq<Id>)
    requires (forall id :: id in ids ==> id < next) && NewestFirst(ids) == Limit(all, maxEvents)
    ensures NewestFirst(Members(Limit(NewestFirst(ids + {next}), maxEvents))) == Limit([next] + all, maxEvents)
  {
    NewGreatest(ids, next);
    hide NewestFirst, Members, Limit;
    NewestOfNewest(ids + {next}, maxEvents);
    LimitAgain(next, all, maxEvents);
  }

  lemma NewId<E>(history: seq<Row<E>>, row: Row<E>)
    ensures AllIds(history + [row], row.session) == [|history| + 1] + AllIds(history, row.session)
  {
    assert (history + [row])[..|history|] == history;
  }

  /** After the trim a session's rows are the newest of its rows and the new one. */
  lemma KeptIds<E>(t: Table<E>, maxEvents: int, row: Row<E>)
    requires forall id :: id in t.rows ==> id < t.nextId
    ensures var ids := IdsOf(t.rows, row.session) + {t.nextId};
            IdsOf(Appended(t, maxEvents, row).rows, row.session) == Members(Limit(NewestFirst(ids), maxEvents))
    ensures Appended(t, maxEvents, row).nextId == t.nextId + 1
    ensures forall id :: id in IdsOf(t.rows, row.session) ==> id < t.nextId
  {
    hide NewestFirst;
    var ids := IdsOf(t.rows, row.session) + {t.nextId};
    assert IdsOf(t.rows[t.nextId := row], row.session) == ids;
    NewestFirstHasAll(ids);
    assert forall id :: id in Limit(NewestFirst(ids), maxEvents) ==> id in NewestFirst(ids);
  }

  lemma {:induction false} RunIsFaithful<E(!new)>(maxEvents: int, history: seq<Row<E>>, session: string)
    ensures Faithful(Run(maxEvents, history), maxEvents, history, session)
  {
    if history == [] {
    } else {
      var before, row := history[..|history| - 1], history[|history| - 1];
      RunIsFaithful(maxEvents, before, session);
      assert before + [row] == history;
      if row.session == session {
        AppendOwn(Run(maxEvents, before), maxEvents, before, row);
      } else {
        AppendOther(Run(maxEvents, before), maxEvents, before, row, session);
      }
    }
  }

  predicate InRange(ids: seq<Id>, n: nat) {
    forall i :: 0 <= i < |ids| ==> 1 <= ids[i] <= n
  }

  function EventsOf<E>(history: seq<Row<E>>, ids: seq<Id>): seq<E>
    requires InRange(ids, |history|)
  {
    seq(|ids|, i requires 0 <= i < |ids| => history[ids[i] - 1].event)
  }

  lemma {:induction false} AllIdsInRange<E>(history: seq<Row<E>>, session: string)
    ensures InRange(AllIds(history, session), |history|) && InRange(Reverse(AllIds(history, session)), |history|)
  {
    if history == [] {
    } else {
      AllIdsInRange(history[..|history| - 1], session);
    }
    var all := AllIds(history, session);
    ReverseHasAll<Id>(all);
    forall i | 0 <= i < |all| ensures 1 <= Reverse(all)[i] <= |history| {
      assert Reverse(all)[i] in all;
    }
  }

  /** The ids of a session, oldest first, spell its full log. */
  lemma {:induction false} IdsSpellLog<E>(history: seq<Row<E>>, session: string)
    requires InRange(Reverse(AllIds(history, session)), |history|)
    ensures EventsOf(history, Reverse(AllIds(history, session))) == FullLog(history, session)
  {
    if history == [] {
    } else {
      var before, row := history[..|history| - 1], history[|history| - 1];
      AllIdsInRange(before, session);
      IdsSpellLog(before, session);
      OneMoreId(history, session);
      hide AllIds, FullLog, Reverse;
      EventsOfPrefix(history, Reverse(AllIds(before, session)));
      if row.session == session {
        EventsOfSnoc(history, Reverse(AllIds(before, session)), |history|);
      }
    }
  }

  /** A longer history adds its last event to its own session and nothing to the others. */
  lemma OneMoreId<E>(history: seq<Row<E>>, session: string)
    requires history != []
    ensures var before, row := history[..|history| - 1], history[|history| - 1];
            if row.session == session then
              && Reverse<Id>(AllIds(history, session)) == Reverse<Id>(AllIds(before, session)) + [|history|]
              && FullLog(history, session) == FullLog(before, session) + [row.event]
            else
              && AllIds(history, session) == AllIds(before, session)
              && FullLog(history, session) == FullLog(before, session)
  {
    var before, row := history[..|history| - 1], history[|history| - 1];
    var ids, log := AllIds(before, session), FullLog(before, session);
    if row.session == session {
      var last: Id := |history|;
      assert AllIds(history, session) == [last] + ids;
      ReverseOfFirst(last, ids);
      assert Reverse(AllIds(history, session)) == Reverse(ids) + [last];
      assert FullLog(history, session) == log + [row.event];
    } else {
      assert AllIds(history, session) == [] + ids == ids;
      assert FullLog(history, session) == log + [] == log;
    }
  }

  lemma ReverseOfFirst<T>(first: T, rest: seq<T>)
    ensures Reverse([first] + rest) == Reverse(rest) + [first]
  {
    assert ([first] + rest)[1..] == rest;
  }

  lemma EventsOfPrefix<E>(history: seq<Row<E>>, ids: seq<Id>)
    requires history != [] && InRange(ids, |history| - 1)
    ensures InRange(ids, |history|) && EventsOf(history, ids) == EventsOf(history[..|history| - 1], ids)
  {
  }

  lemma EventsOfSnoc<E>(history: seq<Row<E>>, ids: seq<Id>, last: Id)
    requires InRange(ids, |history|) && 1 <= last <= |history|
    ensures InRange(ids + [last], |history|)
    ensures EventsOf(history, ids + [last]) == EventsOf(history, ids) + [history[last - 1].event]
  {
  }

  lemma {:induction false} ReverseOfLimit<T>(s: seq<T>, n: int)
    ensures Reverse(Limit(s, n)) == LastOf(Reverse(s), n) && |Reverse(s)| == |s|
  {
    ReverseHasAll(s);
    if s != [] && 0 < n < |s| {
      ReverseOfLimit(s[1..], n - 1);
      ReverseHasAll(s[1..]);
      assert s[..n][1..] == s[1..][..n - 1];
    } else if s != [] && n == 0 {
      assert Limit(s, n) == [];
    }
  }

  lemma LimitTwice<T>(s: seq<T>, n: int, m: int)
    ensures Limit(Limit(s, n), m) == Limit(s, if n < 0 then m else if m < 0 || n < m then n else m)
  {
  }

  /** The smaller of two limits, a negative one being none. */
  function Tighter(n: int, m: int): int {
    if n < 0 then m else if m < 0 || n < m then n else m
  }

  /**
   * For every interleaving of appends: a listing is the last `limit` of the session's stored events,
   * which are the last `maxEvents` of everything it ever appended, oldest first.
   */
  lemma ListingIsTailOfFullLog<E(!new)>(maxEvents: int, history: seq<Row<E>>, session: string, limit: int)
    ensures Listed(Run(maxEvents, history).rows, session, limit)
            == LastOf(FullLog(history, session), Tighter(maxEvents, limit))
  {
    hide NewestFirst;
    var t := Run(maxEvents, history);
    RunIsFaithful(maxEvents, history, session);
    var all := AllIds(history, session);
    var n := Tighter(maxEvents, limit);
    LimitTwice(all, maxEvents, limit);
    LimitedAreRows(t.rows, session, limit);
    var ids := Reverse(Limit(NewestFirst(IdsOf(t.rows, session)), limit));
    ReverseOfLimit(all, n);
    assert ids == LastOf(Reverse(all), n);
    AllIdsInRange(history, session);
    IdsSpellLog(history, session);
    EventsOfLast(history, Reverse(all), n);
    SameEvents(t, history, ids);
  }

  lemma SameEvents<E>(t: Table<E>, history: seq<Row<E>>, ids: seq<Id>)
    requires forall id :: id in t.rows ==> 1 <= id <= |history| && t.rows[id] == history[id - 1]
    requires InRange(ids, |history|) && forall id :: id in ids ==> id in t.rows
    ensures EventsAt(t.rows, ids) == EventsOf(history, ids)
  {
  }

  lemma EventsOfLast<E>(history: seq<Row<E>>, ids: seq<Id>, n: int)
    requires InRange(ids, |history|)
    ensures InRange(LastOf(ids, n), |history|)
    ensures EventsOf(history, LastOf(ids, n)) == LastOf(EventsOf(history, ids), n)
  {
  }

  /** What the table stores of a session is the last `maxEvents` of its full log. */
  lemma StoredIsTailOfFullLog<E(!new)>(maxEvents: int, history: seq<Row<E>>, session: string)
    ensures Listed(Run(maxEvents, history).rows, session, -1) == LastOf(FullLog(history, session), maxEvents)
    ensures maxEvents >= 0 ==> |IdsOf(Run(maxEvents, history).rows, session)| <= maxEvents
  {
    ListingIsTailOfFullLog(maxEvents, history, session, -1);
    RunIsFaithful(maxEvents, history, session);
    NewestFirstSize(IdsOf(Run(maxEvents, history).rows, session));
  }

  lemma {:induction false} NewestFirstSize(ids: set<Id>)
    ensures |NewestFirst(ids)| == |ids|
  {
    if ids == {} {
    } else {
      NewestFirstSize(ids - {Greatest(ids)});
    }
  }
}
