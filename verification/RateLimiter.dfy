/**
 * The per-identity fixed-window limiter, and what its fixed windows guarantee over sliding ones.
 */
module RateLimiter {
  import opened Basics

  type Key = string

  datatype Window = Window(count: nat, resetAt: int)

  type Windows = map<Key, Window>

  const MAX_KEYS := 10_000

  datatype Limits = Limits(limit: nat, windowMs: nat)

  /** A window always admits the take that opens it. */
  function Cap(limits: Limits): nat {
    if limits.limit == 0 then 1 else limits.limit
  }

  function Pruned(windows: Windows, now: int): Windows {
    map k | k in windows && windows[k].resetAt > now :: windows[k]
  }

  predicate IsOpen(windows: Windows, key: Key, now: int) {
    key in windows && windows[key].resetAt > now
  }

  function MadeRoom(windows: Windows, now: int): Windows {
    if |windows| >= MAX_KEYS then Pruned(windows, now) else windows
  }

  predicate Granted(limits: Limits, windows: Windows, key: Key, now: int) {
    if IsOpen(windows, key, now) then windows[key].count < limits.limit
    else |MadeRoom(windows, now)| < MAX_KEYS
  }

  function AfterTake(limits: Limits, windows: Windows, key: Key, now: int): Windows {
    if IsOpen(windows, key, now) then
      if windows[key].count < limits.limit
      then windows[key := windows[key].(count := windows[key].count + 1)]
      else windows
    else if Granted(limits, windows, key, now) then
      MadeRoom(windows, now)[key := Window(1, now + limits.windowMs)]
    else MadeRoom(windows, now)
  }

  class IdentityRateLimiter {
    const limits: Limits
    var windows: Windows

    constructor (limits: Limits)
      ensures this.limits == limits && windows == map[]
    {
      this.limits := limits;
      windows := map[];
    }

    method Take(key: Key, now: int) returns (granted: bool)
      modifies this
      ensures granted == Granted(limits, old(windows), key, now)
      ensures windows == AfterTake(limits, old(windows), key, now)
    {
      if key !in windows || windows[key].resetAt <= now {
        if |windows| >= MAX_KEYS {
          Prune(now);
          if |windows| >= MAX_KEYS {
            return false;
          }
        }
        windows := windows[key := Window(1, now + limits.windowMs)];
        return true;
      }
      var entry := windows[key];
      if entry.count >= limits.limit {
        return false;
      }
      windows := windows[key := entry.(count := entry.count + 1)];
      return true;
    }

    /** The loop over the map that deletes the windows that have ended. */
    method Prune(now: int)
      modifies this
      ensures windows == Pruned(old(windows), now)
    {
      ghost var all := windows;
      var left := windows.Keys;
      while left != {}
        invariant left <= all.Keys && left <= windows.Keys
        invariant windows == map k | k in all && (k in left || all[k].resetAt > now) :: all[k]
        decreases |left|
      {
        var candidate :| candidate in left;
        if windows[candidate].resetAt <= now {
          windows := windows - {candidate};
        }
        left := left - {candidate};
      }
    }
  }

  /**
   * A take is granted exactly when the key's window is open and not used up, or is not open and fewer
   * than ten thousand keys have an open one; a granted take is counted in the open window or opens one.
   */
  lemma GrantedExactly(limits: Limits, windows: Windows, key: Key, now: int)
    ensures var open := key in windows && windows[key].resetAt > now;
            var granted := Granted(limits, windows, key, now);
            var after := AfterTake(limits, windows, key, now);
            && (granted <==> if open then windows[key].count < limits.limit
                             else |set k | k in windows && windows[k].resetAt > now| < 10_000)
            && (granted ==> key in after && after[key] == if open then
                Window(windows[key].count + 1, windows[key].resetAt)
                                                          else Window(1, now + limits.windowMs))
            && (!granted && open ==> after == windows)
            && (forall k :: k in after && k != key ==> k in windows && after[k] == windows[k])
            && (forall k :: k in windows && windows[k].resetAt > now ==> k in after)
  {
    var live := set k | k in windows && windows[k].resetAt > now;
    assert Pruned(windows, now).Keys == live;
    SubsetSize(live, windows.Keys);
    assert |Pruned(windows, now)| == |live| && |windows| == |windows.Keys|;
  }

  // ---------------------------------------------------------------- runs

  datatype Call = Call(key: Key, at: int)

  ghost predicate InOrder(calls: seq<Call>, now: int) {
    && (forall i, j :: 0 <= i <= j < |calls| ==> calls[i].at <= calls[j].at)
    && (forall i :: 0 <= i < |calls| ==> calls[i].at <= now)
  }

  /** The map after a run of calls, from an empty limiter. */
  function State(limits: Limits, calls: seq<Call>): Windows {
    if calls == [] then map[]
    else
      var last := calls[|calls| - 1];
      AfterTake(limits, State(limits, calls[..|calls| - 1]), last.key, last.at)
  }

  function GrantOfLast(limits: Limits, calls: seq<Call>, key: Key, a: int, b: int): nat
    requires calls != []
  {
    var last := calls[|calls| - 1];
    if last.key == key && a <= last.at < b && Granted(limits, State(limits, calls[..|calls| - 1]), key, last.at)
    then 1 else 0
  }

  /** How many takes of `key` the run granted at times in [a, b). */
  function Grants(limits: Limits, calls: seq<Call>, key: Key, a: int, b: int): nat {
    if calls == [] then 0
    else Grants(limits, calls[..|calls| - 1], key, a, b) + GrantOfLast(limits, calls, key, a, b)
  }

  lemma {:induction false} SplitGrants(limits: Limits, calls: seq<Call>, key: Key, a: int, m: int, b: int)
    requires a <= m <= b
    ensures Grants(limits, calls, key, a, b) == Grants(limits, calls, key, a, m) + Grants(limits, calls, key, m, b)
  {
    if calls == [] {
    } else {
      SplitGrants(limits, calls[..|calls| - 1], key, a, m, b);
    }
  }

  lemma {:induction false} NoGrantsAfter(limits: Limits, calls: seq<Call>, key: Key, a: int, b: int)
    requires forall i :: 0 <= i < |calls| ==> calls[i].at < a || b <= calls[i].at
    ensures Grants(limits, calls, key, a, b) == 0
  {
    if calls == [] {
    } else {
      NoGrantsAfter(limits, calls[..|calls| - 1], key, a, b);
    }
  }

  /**
   * What the run says about one key at time `now`. With a window: it opened at `s` no later than
   * now, its count is the takes granted since then, none after its end, and any interval of the
   * window's length that reaches `s` held fewer than the cap before `s`. Without one: the same of now.
   */
  ghost predicate Explained(limits: Limits, calls: seq<Call>, key: Key, now: int) {
    var windows := State(limits, calls);
    if key in windows then
      var s := windows[key].resetAt - limits.windowMs;
      && s <= now && 1 <= windows[key].count <= Cap(limits)
      && Grants(limits, calls, key, s, now + 1) == windows[key].count
      && Grants(limits, calls, key, s, s + 1) >= 1
      && Grants(limits, calls, key, windows[key].resetAt, now + 1) == 0
      && QuietBefore(limits, calls, key, s, s)
    else QuietBefore(limits, calls, key, now, now + 1) && Grants(limits, calls, key, now, now + 1) == 0
  }

  ghost predicate QuietBefore(limits: Limits, calls: seq<Call>, key: Key, s: int, end: int) {
    forall a | s - limits.windowMs < a <= end :: Grants(limits, calls, key, a, end) < Cap(limits)
  }

  lemma LaterNow(limits: Limits, calls: seq<Call>, key: Key, now: int, later: int)
    requires InOrder(calls, now) && now <= later && Explained(limits, calls, key, now)
    ensures Explained(limits, calls, key, later)
  {
    hide Grants, State;
    var windows := State(limits, calls);
    var end := later + 1;
    NoGrantsAfter(limits, calls, key, now + 1, end);
    if key in windows {
      var s, e := windows[key].resetAt - limits.windowMs, windows[key].resetAt;
      SplitGrants(limits, calls, key, s, now + 1, end);
      if e <= now {
        SplitGrants(limits, calls, key, e, now + 1, end);
      } else {
        NoGrantsAfter(limits, calls, key, e, end);
      }
    } else {
      if later > now {
        NoGrantsAfter(limits, calls, key, later, end);
      }
      forall a | later - limits.windowMs < a <= end
        ensures Grants(limits, calls, key, a, end) < Cap(limits)
      {
        if a > now {
          NoGrantsAfter(limits, calls, key, a, end);
        } else {
          SplitGrants(limits, calls, key, a, now + 1, end);
        }
      }
    }
  }

  /** Once its window has ended, a key has had fewer than the cap in the length of a window. */
  lemma QuietAfterEnd(limits: Limits, calls: seq<Call>, key: Key, now: int)
    requires limits.windowMs > 0 && InOrder(calls, now) && Explained(limits, calls, key, now)
    requires !IsOpen(State(limits, calls), key, now)
    ensures QuietBefore(limits, calls, key, now, now + 1) && QuietBefore(limits, calls, key, now, now)
    ensures Grants(limits, calls, key, now, now + 1) == 0
  {
    hide Grants, State;
    var windows := State(limits, calls);
    var end := now + 1;
    if key in windows {
      var s := windows[key].resetAt - limits.windowMs;
      SplitGrants(limits, calls, key, windows[key].resetAt, now, end);
      forall a | now - limits.windowMs < a <= end
        ensures Grants(limits, calls, key, a, end) < Cap(limits)
      {
        SplitGrants(limits, calls, key, s, s + 1, end);
        SplitGrants(limits, calls, key, s + 1, a, end);
      }
    }
    forall a | now - limits.windowMs < a <= now
      ensures Grants(limits, calls, key, a, now) < Cap(limits)
    {
      SplitGrants(limits, calls, key, a, now, end);
    }
  }

  lemma OneMoreCall(limits: Limits, calls: seq<Call>, key: Key, a: int, b: int)
    requires calls != []
    ensures var before, last := calls[..|calls| - 1], calls[|calls| - 1];
            Grants(limits, calls, key, a, b)
            == Grants(limits, before, key, a, b)
               + if last.key == key && a <= last.at < b && Granted(limits, State(limits, before), key, last.at)
                 then 1 else 0
  {
  }

  lemma StepOther(limits: Limits, calls: seq<Call>, key: Key)
    requires limits.windowMs > 0 && calls != []
    requires var last := calls[|calls| - 1]; key != last.key && InOrder(calls, last.at)
    requires Explained(limits, calls[..|calls| - 1], key, calls[|calls| - 1].at)
    ensures Explained(limits, calls, key, calls[|calls| - 1].at)
  {
    hide Grants, AfterTake;
    var before, last := calls[..|calls| - 1], calls[|calls| - 1];
    forall a, b ensures Grants(limits, calls, key, a, b) == Grants(limits, before, key, a, b) {
      OneMoreCall(limits, calls, key, a, b);
    }
    var windows, after := State(limits, before), State(limits, calls);
    assert after == AfterTake(limits, windows, last.key, last.at);
    OthersStay(limits, windows, last.key, last.at, key);
    if key in windows && key !in after {
      QuietAfterEnd(limits, before, key, last.at);
    }
  }

  /** A take leaves the window of another key alone, or deletes it once it has ended. */
  lemma OthersStay(limits: Limits, windows: Windows, taken: Key, now: int, key: Key)
    requires key != taken
    ensures var after := AfterTake(limits, windows, taken, now);
            && (key in after ==> key in windows && after[key] == windows[key])
            && (key in windows && key !in after ==> !IsOpen(windows, key, now))
  {
  }

  lemma StepOwn(limits: Limits, calls: seq<Call>, key: Key)
    requires limits.windowMs > 0 && calls != []
    requires var last := calls[|calls| - 1]; key == last.key && InOrder(calls, last.at)
    requires Explained(limits, calls[..|calls| - 1], key, calls[|calls| - 1].at)
    ensures Explained(limits, calls, key, calls[|calls| - 1].at)
  {
    hide Grants, AfterTake, Granted;
    var before, last := calls[..|calls| - 1], calls[|calls| - 1];
    var now, windows := last.at, State(limits, before);
    forall a, b ensures Grants(limits, calls, key, a, b)
                        == Grants(limits, before, key, a, b)
                           + if a <= now < b && Granted(limits, windows, key, now) then 1 else 0
    {
      OneMoreCall(limits, calls, key, a, b);
    }
    OwnWindow(limits, windows, key, now);
    if !IsOpen(windows, key, now) {
      QuietAfterEnd(limits, before, key, now);
      NoGrantsAfter(limits, before, key, now + limits.windowMs, now + 1);
    }
  }

  /** A take counts in its key's open window, opens one, or is refused and leaves no new one. */
  lemma OwnWindow(limits: Limits, windows: Windows, key: Key, now: int)
    ensures var after := AfterTake(limits, windows, key, now);
            if Granted(limits, windows, key, now) then
              && key in after
              && after[key] == (if IsOpen(windows, key, now) then windows[key].(count := windows[key].count + 1)
                                else Window(1, now + limits.windowMs))
              && (IsOpen(windows, key, now) ==> windows[key].count < limits.limit)
            else
              && (key in after ==> key in windows && after[key] == windows[key])
              && (key in windows && key !in after ==> !IsOpen(windows, key, now))
  {
  }

  lemma {:induction false} RunExplained(limits: Limits, calls: seq<Call>, key: Key, now: int)
    requires limits.windowMs > 0 && InOrder(calls, now)
    ensures Explained(limits, calls, key, now)
  {
    hide Explained;
    if calls == [] {
      assert Explained(limits, calls, key, now) by {
        NothingGranted(limits, key, now);
      }
    } else {
      var before, last := calls[..|calls| - 1], calls[|calls| - 1];
      RunExplained(limits, before, key, last.at);
      if key == last.key {
        StepOwn(limits, calls, key);
      } else {
        StepOther(limits, calls, key);
      }
      LaterNow(limits, calls, key, last.at, now);
    }
  }

  lemma NothingGranted(limits: Limits, key: Key, now: int)
    ensures Explained(limits, [], key, now)
  {
  }

  /**
   * Sliding bound: over every run with a non-decreasing clock, a key is granted at most
   * 2 * limit - 1 takes in any half-open interval of the window's length.
   */
  lemma {:induction false} SlidingBound(limits: Limits, calls: seq<Call>, key: Key, now: int, a: int, b: int)
    requires InOrder(calls, now) && b <= a + limits.windowMs
    ensures Grants(limits, calls, key, a, b) <= 2 * (if limits.limit == 0 then 1 else limits.limit) - 1
  {
    hide Grants, State;
    if b <= a || calls == [] {
      NoGrantsAfter(limits, calls, key, a, b);
    } else {
      var before, last := calls[..|calls| - 1], calls[|calls| - 1];
      SlidingBound(limits, before, key, last.at, a, b);
      OneMoreCall(limits, calls, key, a, b);
      if last.key == key && a <= last.at < b && Granted(limits, State(limits, before), key, last.at) {
        RunExplained(limits, calls, key, last.at);
        BoundAtGrant(limits, calls, key, a, b);
      }
    }
  }

  lemma BoundAtGrant(limits: Limits, calls: seq<Call>, key: Key, a: int, b: int)
    requires calls != []
    requires var last := calls[|calls| - 1];
             && InOrder(calls, last.at) && last.key == key && a <= last.at < b <= a + limits.windowMs
             && Granted(limits, State(limits, calls[..|calls| - 1]), key, last.at)
             && Explained(limits, calls, key, last.at)
    ensures Grants(limits, calls, key, a, b) <= 2 * Cap(limits) - 1
  {
    hide Grants;
    var last := calls[|calls| - 1];
    var windows := State(limits, calls);
    assert windows == AfterTake(limits, State(limits, calls[..|calls| - 1]), key, last.at);
    var s := windows[key].resetAt - limits.windowMs;
    SplitGrants(limits, calls, key, a, last.at + 1, b);
    NoGrantsAfter(limits, calls, key, last.at + 1, b);
    if a <= s {
      SplitGrants(limits, calls, key, a, s, last.at + 1);
    } else {
      SplitGrants(limits, calls, key, s, a, last.at + 1);
    }
  }

  /** Fixed-window bound: from the take that opens a window to the end of it, at most `limit` are granted. */
  lemma {:induction false} WindowBound(limits: Limits, calls: seq<Call>, now: int, i: nat)
    requires InOrder(calls, now) && i < |calls|
    requires !IsOpen(State(limits, calls[..i]), calls[i].key, calls[i].at)
    requires Granted(limits, State(limits, calls[..i]), calls[i].key, calls[i].at)
    ensures Grants(limits, calls, calls[i].key, calls[i].at, calls[i].at + limits.windowMs)
         <= if limits.limit == 0 then 1 else limits.limit
  {
    hide Grants, State, AfterTake, Granted;
    var key, s := calls[i].key, calls[i].at;
    var e := s + limits.windowMs;
    if limits.windowMs == 0 {
      NoGrantsAfter(limits, calls, key, s, e);
    } else {
      WindowStays(limits, calls, i);
      var last := calls[|calls| - 1];
      if last.at < e {
        RunExplained(limits, calls, key, last.at);
        SplitGrants(limits, calls, key, s, last.at + 1, e);
        NoGrantsAfter(limits, calls, key, last.at + 1, e);
      } else {
        var before := calls[..|calls| - 1];
        OneMoreCall(limits, calls, key, s, e);
        assert before[..i] == calls[..i];
        WindowBound(limits, before, last.at, i);
      }
    }
  }

  /** Until it ends, an opened window stays in the map with its end unchanged. */
  lemma {:induction false} WindowStays(limits: Limits, calls: seq<Call>, i: nat)
    requires limits.windowMs > 0 && i < |calls| && InOrder(calls, calls[|calls| - 1].at)
    requires !IsOpen(State(limits, calls[..i]), calls[i].key, calls[i].at)
    requires Granted(limits, State(limits, calls[..i]), calls[i].key, calls[i].at)
    ensures calls[|calls| - 1].at < calls[i].at + limits.windowMs ==>
              var windows := State(limits, calls);
              calls[i].key in windows && windows[calls[i].key].resetAt == calls[i].at + limits.windowMs
  {
    var before := calls[..|calls| - 1];
    if i < |before| {
      assert before[..i] == calls[..i];
      WindowStays(limits, before, i);
    }
  }

  /** The map never holds more than ten thousand windows. */
  lemma {:induction false} MapIsBounded(limits: Limits, calls: seq<Call>)
    ensures |State(limits, calls)| <= 10_000
  {
    if calls == [] {
    } else {
      var before, last := calls[..|calls| - 1], calls[|calls| - 1];
      MapIsBounded(limits, before);
      var windows := State(limits, before);
      PrunedIsSmaller(windows, last.at);
      SizeAfter(limits, windows, last.key, last.at);
    }
  }

  lemma PrunedIsSmaller(windows: Windows, now: int)
    ensures |Pruned(windows, now)| <= |windows|
  {
    assert Pruned(windows, now).Keys <= windows.Keys;
    SubsetSize(Pruned(windows, now).Keys, windows.Keys);
  }

  lemma SizeAfter(limits: Limits, windows: Windows, key: Key, now: int)
    requires |windows| <= MAX_KEYS && |Pruned(windows, now)| <= |windows|
    ensures |AfterTake(limits, windows, key, now)| <= MAX_KEYS
  {
    var after := AfterTake(limits, windows, key, now);
    if IsOpen(windows, key, now) {
      assert after.Keys == windows.Keys;
    } else {
      var room := MadeRoom(windows, now);
      assert after.Keys <= room.Keys + {key};
      SubsetSize(after.Keys, room.Keys + {key});
    }
  }

  /**
   * A take is refused only for cause: the key has already had `limit` takes within one window's
   * length up to now, or the map is full of keys each granted one within that time.
   */
  lemma RefusedForCause(limits: Limits, calls: seq<Call>, key: Key, now: int)
    requires limits.limit > 0 && limits.windowMs > 0 && InOrder(calls, now)
    requires !Granted(limits, State(limits, calls), key, now)
    ensures
      var since := now - limits.windowMs + 1;
      || Grants(limits, calls, key, since, now + 1) >= limits.limit
      || exists busy: set<Key> ::
           |busy| >= 10_000 && forall k :: k in busy ==> Grants(limits, calls, k, since, now + 1) >= 1
  {
    hide Grants, State;
    var windows := State(limits, calls);
    var since := now - limits.windowMs + 1;
    if IsOpen(windows, key, now) {
      RecentGrants(limits, calls, key, now);
    } else {
      var busy := Pruned(windows, now).Keys;
      forall k | k in busy ensures Grants(limits, calls, k, since, now + 1) >= 1 {
        RecentGrants(limits, calls, k, now);
      }
    }
  }

  lemma RecentGrants(limits: Limits, calls: seq<Call>, key: Key, now: int)
    requires limits.windowMs > 0 && InOrder(calls, now) && IsOpen(State(limits, calls), key, now)
    ensures var count := State(limits, calls)[key].count;
            count >= 1 && Grants(limits, calls, key, now - limits.windowMs + 1, now + 1) >= count
  {
    hide Grants, State;
    RunExplained(limits, calls, key, now);
    var s := State(limits, calls)[key].resetAt - limits.windowMs;
    SplitGrants(limits, calls, key, now - limits.windowMs + 1, s, now + 1);
  }

  /** One take at 0 and `late` takes just before its window ends. */
  function Late(key: Key, windowMs: nat, late: nat): seq<Call> {
    if late == 0 then [Call(key, 0)] else Late(key, windowMs, late - 1) + [Call(key, windowMs - 1)]
  }

  /** The same, and `next` takes just after. */
  function Burst(key: Key, windowMs: nat, late: nat, next: nat): seq<Call> {
    if next == 0 then Late(key, windowMs, late) else Burst(key, windowMs, late, next - 1) + [Call(key, windowMs)]
  }

  lemma CallMore(limits: Limits, calls: seq<Call>, last: Call, a: int, b: int)
    ensures State(limits, calls + [last]) == AfterTake(limits, State(limits, calls), last.key, last.at)
    ensures Grants(limits, calls + [last], last.key, a, b)
         == Grants(limits, calls, last.key, a, b)
            + if a <= last.at < b && Granted(limits, State(limits, calls), last.key, last.at) then 1 else 0
  {
    assert (calls + [last])[..|calls|] == calls;
  }

  /** A take by the only key in the map: it counts in an open window and opens a new one otherwise. */
  lemma TakeAlone(limits: Limits, key: Key, w: Window, now: int)
    requires w.resetAt > now ==> w.count < limits.limit
    ensures Granted(limits, map[key := w], key, now)
    ensures AfterTake(limits, map[key := w], key, now)
         == map[key := if w.resetAt > now then w.(count := w.count + 1) else Window(1, now + limits.windowMs)]
  {
    assert |map[key := w]| == 1;
  }

  /** After the calls the map holds one window, and so many of the takes since time 1 were granted. */
  ghost predicate Stands(limits: Limits, calls: seq<Call>, key: Key, w: Window, granted: nat) {
    State(limits, calls) == map[key := w] && Grants(limits, calls, key, 1, 1 + limits.windowMs) == granted
  }

  lemma BurstGoesOn(limits: Limits, before: seq<Call>, key: Key, w: Window, granted: nat, at: int)
    requires Stands(limits, before, key, w, granted) && (w.resetAt > at ==> w.count < limits.limit)
    requires 1 <= at < 1 + limits.windowMs
    ensures Stands(limits, before + [Call(key, at)], key,
                   if w.resetAt > at then w.(count := w.count + 1) else Window(1, at + limits.windowMs), granted + 1)
  {
    hide State, Grants, AfterTake, Granted;
    CallMore(limits, before, Call(key, at), 1, 1 + limits.windowMs);
    TakeAlone(limits, key, w, at);
  }

  /** Up to the limit, the takes of the first window are granted. */
  lemma {:induction false} LateIsGranted(limits: Limits, key: Key, late: nat)
    requires limits.windowMs >= 2 && late < limits.limit
    ensures Stands(limits, Late(key, limits.windowMs, late), key, Window(1 + late, limits.windowMs), late)
  {
    if late == 0 {
      FirstTake(limits, key);
    } else {
      LateIsGranted(limits, key, late - 1);
      hide Stands;
      BurstGoesOn(limits, Late(key, limits.windowMs, late - 1), key, Window(late, limits.windowMs), late - 1,
                  limits.windowMs - 1);
    }
  }

  lemma FirstTake(limits: Limits, key: Key)
    ensures Stands(limits, [Call(key, 0)], key, Window(1, limits.windowMs), 0)
  {
    assert [Call(key, 0)][..0] == [];
  }

  /** Those right after its end open a second one and are granted up to the limit again. */
  lemma {:induction false} BurstIsGranted(limits: Limits, key: Key, late: nat, next: nat)
    requires limits.windowMs >= 2 && late < limits.limit && 1 <= next <= limits.limit
    ensures Stands(limits, Burst(key, limits.windowMs, late, next), key, Window(next, 2 * limits.windowMs), late + next)
  {
    hide Stands;
    if next == 1 {
      LateIsGranted(limits, key, late);
      assert Burst(key, limits.windowMs, late, 0) == Late(key, limits.windowMs, late);
      BurstGoesOn(limits, Late(key, limits.windowMs, late), key, Window(1 + late, limits.windowMs), late,
          limits.windowMs);
    } else {
      BurstIsGranted(limits, key, late, next - 1);
      BurstGoesOn(limits, Burst(key, limits.windowMs, late, next - 1), key, Window(next - 1, 2 * limits.windowMs),
                  late + next - 1, limits.windowMs);
    }
  }

  lemma {:induction false} LateInOrder(key: Key, windowMs: nat, late: nat)
    requires windowMs >= 1
    ensures InOrder(Late(key, windowMs, late), windowMs - 1)
  {
    if late == 0 {
      assert |Late(key, windowMs, 0)| == 1;
    } else {
      LateInOrder(key, windowMs, late - 1);
    }
  }

  lemma {:induction false} BurstInOrder(key: Key, windowMs: nat, late: nat, next: nat)
    requires windowMs >= 1
    ensures InOrder(Burst(key, windowMs, late, next), windowMs)
  {
    if next == 0 {
      LateInOrder(key, windowMs, late);
    } else {
      BurstInOrder(key, windowMs, late, next - 1);
    }
  }

  /** The sliding bound is met, for every limit and every window of at least two milliseconds. */
  lemma BoundIsMet(limits: Limits, key: Key)
    requires limits.limit >= 1 && limits.windowMs >= 2
    ensures exists calls ::
              InOrder(calls, limits.windowMs)
              && Grants(limits, calls, key, 1, 1 + limits.windowMs) == 2 * limits.limit - 1
  {
    hide Grants, InOrder;
    BurstIsGranted(limits, key, limits.limit - 1, limits.limit);
    BurstInOrder(key, limits.windowMs, limits.limit - 1, limits.limit);
  }
}
