/**
 * The walk of one call, told post by post: where each post goes and how the call ends, from the replies
 * alone, without the nested loops.
 */
module FailoverOutcomes {
  import opened Options
  import opened FailoverClient

  // ---------------------------------------------------------------- what one outcome means

  /** The service did it, or ran or refused it and said why, or nobody knows whether it ran. */
  predicate Decides(write: bool, o: Outcome) {
    match o
    case Unsent => false
    case Lost => write
    case Answered(reply) => (reply.status == 200 && reply.ok) || reply.error != None
  }

  /** The result of the call once an outcome at `node` decides it. */
  function Decision(node: Node, o: Outcome): Verdict {
    match o
    case Answered(reply) =>
      if reply.status == 200 && reply.ok
      then Done(match reply.node case Some(name) => name case None => node.name, reply)
      else Refused(node.name, reply)
    case _ => OutcomeUnknown
  }

  predicate AsksToWait(o: Outcome) {
    match o
    case Answered(reply) => reply.status == 503 && reply.error == None
    case _ => false
  }

  function LeaderSaid(nodes: seq<Node>, o: Outcome): Option<Node> {
    match o
    case Answered(reply) => if reply.status == 409 && reply.error == None then Redirect(nodes, reply) else None
    case _ => None
  }

  /** The first node of the queue with a name not in `tried`. */
  function FirstUntried(queue: seq<Node>, tried: set<string>): Option<Node> {
    if queue == [] then None
    else if queue[0].name in tried then FirstUntried(queue[1..], tried)
    else Some(queue[0])
  }

  // ---------------------------------------------------------------- redirects and addresses

  /** `short` is `url` without its trailing slashes. */
  ghost predicate IsStripped(url: string, short: string) {
    && short <= url && (forall i :: |short| <= i < |url| ==> url[i] == '/')
    && (short != [] ==> short[|short| - 1] != '/')
  }

  lemma {:induction false} NormaliseUrlMeaning(url: string, short: string)
    ensures NormaliseUrl(url) == short <==> IsStripped(url, short)
  {
    if url != [] && url[|url| - 1] == '/' {
      var init := url[..|url| - 1];
      NormaliseUrlMeaning(init, short);
    } else if url != [] && IsStripped(url, short) {
      assert url[|url| - 1] != '/';
    }
  }

  /** `n` is the first of the nodes with the property that `n` has. */
  ghost predicate IsFirst(nodes: seq<Node>, n: Node, has: Node -> bool) {
    has(n) && exists i :: 0 <= i < |nodes| && nodes[i] == n && forall j :: 0 <= j < i ==> !has(nodes[j])
  }

  /**
   * A redirect is followed only on "not leader", to the first node of the name it gives or, when no node
   * has that name, to the first node at the address it gives without trailing slashes.
   */
  lemma RedirectMeaning(nodes: seq<Node>, reply: Reply, n: Node)
    ensures Redirect(nodes, reply) == Some(n)
       <==> && reply.reason == Some("not leader")
            && var named := (m: Node) => Some(m.name) == reply.leader;
               if exists m :: m in nodes && named(m) then IsFirst(nodes, n, named)
               else
                 && reply.leaderUrl.Some?
                 && IsFirst(nodes, n, (m: Node) => m.url == NormaliseUrl(reply.leaderUrl.value))
  {
    var named := (m: Node) => Some(m.name) == reply.leader;
    if reply.leader.Some? {
      FirstNamed(nodes, reply.leader.value, n, named);
    }
    if reply.leaderUrl.Some? {
      var short := NormaliseUrl(reply.leaderUrl.value);
      FirstAt(nodes, short, n, (m: Node) => m.url == short);
    }
  }

  lemma {:induction false} FirstNamed(nodes: seq<Node>, name: string, n: Node, has: Node -> bool)
    requires forall m :: has(m) <==> m.name == name
    ensures NodeNamed(nodes, name) == Some(n) <==> IsFirst(nodes, n, has)
  {
    if nodes != [] {
      FirstNamed(nodes[1..], name, n, has);
      FirstOfTail(nodes, n, has);
    }
  }

  lemma {:induction false} FirstAt(nodes: seq<Node>, url: string, n: Node, has: Node -> bool)
    requires forall m :: has(m) <==> m.url == url
    ensures NodeAtUrl(nodes, url) == Some(n) <==> IsFirst(nodes, n, has)
  {
    if nodes != [] {
      FirstAt(nodes[1..], url, n, has);
      FirstOfTail(nodes, n, has);
    }
  }

  lemma FirstOfTail(nodes: seq<Node>, n: Node, has: Node -> bool)
    requires nodes != []
    ensures IsFirst(nodes, n, has) <==> if has(nodes[0]) then n == nodes[0] else IsFirst(nodes[1..], n, has)
  {
    assert n == nodes[0] && has(n) ==> IsFirst(nodes, n, has);
    if !has(nodes[0]) {
      var rest := nodes[1..];
      if IsFirst(nodes, n, has) {
        var i :| 0 <= i < |nodes| && nodes[i] == n && forall j :: 0 <= j < i ==> !has(nodes[j]);
        assert rest[i - 1] == n && forall j :: 0 <= j < i - 1 ==> rest[j] == nodes[j + 1];
      }
      if IsFirst(rest, n, has) {
        var i :| 0 <= i < |rest| && rest[i] == n && forall j :: 0 <= j < i ==> !has(rest[j]);
        assert nodes[i + 1] == n && forall j :: 0 < j < i + 1 ==> nodes[j] == rest[j - 1];
      }
    }
  }

  /** The operations that are never repeated once they may have reached a node. */
  lemma WritesAreTheseOps(op: string)
    ensures op in OPS && IsWrite(op)
       <==> op in {"file_claim", "file_release", "file_finish", "heartbeat", "send", "ack", "job_take", "job_update"}
  {
  }

  // ---------------------------------------------------------------- the next post

  /** The last of `posts` may be made once more: it did not fill its node's allowance. */
  predicate MayRepeat(posts: seq<Node>, retries: nat)
    requires posts != []
  {
    var last := |posts| - 1;
    last < retries || posts[last - retries].name != posts[last].name
  }

  /**
   * Where the call posts next, if at all, after `posts`: nowhere once it is decided; to the same node
   * after a request to wait, while its allowance lasts; then to the leader it was told of, if that is
   * untried; and otherwise to the first untried node of the queue it began with.
   */
  function Upcoming(q: Request, queue: seq<Node>, tried: set<string>, k: nat, posts: seq<Node>): Option<Node> {
    if posts == [] then FirstUntried(queue, tried)
    else
      var last := |posts| - 1;
      var o := q.world(k + last);
      var tried' := tried + Names(posts);
      if Decides(q.write, o) then None
      else if AsksToWait(o) && MayRepeat(posts, q.retries) then Some(posts[last])
      else
        var leader := LeaderSaid(q.nodes, o);
        if leader.Some? && leader.value.name !in tried' then leader else FirstUntried(queue, tried')
  }

  /** How a call that made `posts` ends there. */
  function EndAfter(q: Request, queue: seq<Node>, tried: set<string>, k: nat, posts: seq<Node>): Verdict {
    if posts != [] && Decides(q.write, q.world(k + |posts| - 1))
    then Decision(posts[|posts| - 1], q.world(k + |posts| - 1))
    else if Upcoming(q, queue, tried, k, posts) == None then Exhausted
    else Cancelled
  }

  /** Post `i` was made where the posts before it led, and the signal was not set. */
  predicate AsTold(q: Request, queue: seq<Node>, tried: set<string>, k: nat, posts: seq<Node>, i: nat)
    requires i < |posts|
  {
    !q.aborted(k + i) && Upcoming(q, queue, tried, k, posts[..i]) == Some(posts[i])
  }

  ghost predicate PostsAsTold(q: Request, queue: seq<Node>, tried: set<string>, k: nat, posts: seq<Node>) {
    forall i :: 0 <= i < |posts| ==> AsTold(q, queue, tried, k, posts, i)
  }

  // ---------------------------------------------------------------- one visit, post by post

  lemma {:induction false} VisitExactly(q: Request, node: Node, attempt: nat, k: nat)
    requires attempt <= q.retries
    ensures var v := VisitNode(q, node, attempt, k);
            var n := v.next - k;
            && (forall i :: k <= i < v.next ==> !q.aborted(i))
            && (forall i :: k <= i < v.next - 1 ==> AsksToWait(q.world(i)))
            && if v.ending == Halt(Cancelled) then
                 q.aborted(v.next) && attempt + n <= q.retries && (n > 0 ==> AsksToWait(q.world(v.next - 1)))
               else
                 && n > 0
                 && var o := q.world(v.next - 1);
                    && !(AsksToWait(o) && attempt + n <= q.retries)
                    && v.ending == (if Decides(q.write, o) then Halt(Decision(node, o))
                                    else MoveOn(LeaderSaid(q.nodes, o)))
    decreases q.retries - attempt
  {
    hide Redirect;
    if !q.aborted(k) && Busy(q.world(k)) && attempt < q.retries {
      VisitExactly(q, node, attempt + 1, k + 1);
    }
  }

  /** A further post of the first visit: its node asked to wait and its allowance lasts. */
  lemma SameAgain(q: Request, queue: seq<Node>, tried: set<string>, k: nat, node: Node, n: nat)
    requires 0 < n <= q.retries && AsksToWait(q.world(k + n - 1))
    ensures Upcoming(q, queue, tried, k, Repeat(node, n)) == Some(node)
  {
    hide FirstUntried, LeaderSaid;
  }

  lemma FirstVisitAsTold(q: Request, queue: seq<Node>, tried: set<string>, k: nat, n: nat)
    requires queue != [] && queue[0].name !in tried && n <= q.retries + 1
    requires forall i :: k <= i < k + n ==> !q.aborted(i)
    requires forall i :: k <= i < k + n - 1 ==> AsksToWait(q.world(i))
    ensures PostsAsTold(q, queue, tried, k, Repeat(queue[0], n))
  {
    hide Upcoming, AsksToWait;
    var posts := Repeat(queue[0], n);
    forall i | 0 <= i < n ensures AsTold(q, queue, tried, k, posts, i) {
      assert posts[..i] == Repeat(queue[0], i);
      if i == 0 {
        NothingPostedYet(q, queue, tried, k);
      } else {
        SameAgain(q, queue, tried, k, queue[0], i);
      }
    }
  }

  lemma NothingPostedYet(q: Request, queue: seq<Node>, tried: set<string>, k: nat)
    ensures Upcoming(q, queue, tried, k, []) == FirstUntried(queue, tried)
    ensures queue != [] && queue[0].name !in tried ==> Upcoming(q, queue, tried, k, []) == Some(queue[0])
    ensures queue != [] && queue[0].name in tried ==>
              Upcoming(q, queue, tried, k, []) == Upcoming(q, queue[1..], tried, k, [])
  {
  }

  /** The queue after a visit whose last outcome at `node` decided nothing. */
  ghost predicate Visited(q: Request, queue: seq<Node>, tried: set<string>, k: nat, n: nat, later: seq<Node>) {
    && queue != [] && queue[0].name !in tried && 0 < n <= q.retries + 1
    && var o := q.world(k + n - 1);
       && !Decides(q.write, o) && !(AsksToWait(o) && n <= q.retries)
       && later == Requeue(queue[1..], LeaderSaid(q.nodes, o), tried + {queue[0].name})
  }

  /** Right after a visit the next post is the first untried one of the new queue. */
  lemma AfterVisit(q: Request, queue: seq<Node>, tried: set<string>, k: nat, n: nat, later: seq<Node>)
    requires Visited(q, queue, tried, k, n, later)
    ensures Upcoming(q, queue, tried, k, Repeat(queue[0], n)) == FirstUntried(later, tried + {queue[0].name})
  {
    hide Decides, AsksToWait, LeaderSaid;
    NamesOfRepeat(queue[0], n);
    hide Names;
  }

  lemma NamesOfRepeat(node: Node, n: nat)
    requires n > 0
    ensures Names(Repeat(node, n)) == {node.name}
  {
    assert Repeat(node, n)[0] == node;
  }

  /** From then on the posts since decide, as if the walk had begun there. */
  lemma LongAfterVisit(q: Request, queue: seq<Node>, tried: set<string>, k: nat, n: nat, later: seq<Node>,
      part: seq<Node>)
    requires Visited(q, queue, tried, k, n, later)
    requires part != [] && FirstUntried(later, tried + {queue[0].name}) == Some(part[0])
    requires forall m :: m in part ==> m.name != queue[0].name
    ensures Upcoming(q, queue, tried, k, Repeat(queue[0], n) + part)
         == Upcoming(q, later, tried + {queue[0].name}, k + n, part)
  {
    hide Decides, AsksToWait, LeaderSaid;
    var posts, tried' := Repeat(queue[0], n) + part, tried + {queue[0].name};
    NamesOfWalk(queue[0], n, part);
    assert tried + Names(posts) == tried' + Names(part);
    SameAllowance(queue[0], n, part, q.retries);
    LaterUntried(queue, LeaderSaid(q.nodes, q.world(k + n - 1)), tried, part);
    hide Names, FirstUntried, MayRepeat, Requeue;
  }

  lemma NamesOfWalk(node: Node, n: nat, part: seq<Node>)
    requires n > 0
    ensures Names(Repeat(node, n) + part) == {node.name} + Names(part)
  {
    assert Repeat(node, n)[0] == node;
  }

  lemma SameAllowance(node: Node, n: nat, part: seq<Node>, retries: nat)
    requires part != [] && n <= retries + 1 && forall m :: m in part ==> m.name != node.name
    ensures MayRepeat(Repeat(node, n) + part, retries) == MayRepeat(part, retries)
  {
    var posts, last := Repeat(node, n) + part, |part| - 1;
    assert posts[n + last] == part[last];
    if last < retries {
      assert last + n >= retries ==> posts[last + n - retries] == node;
    } else {
      assert posts[n + last - retries] == part[last - retries];
    }
  }

  lemma LaterUntried(queue: seq<Node>, leader: Option<Node>, tried: set<string>, part: seq<Node>)
    requires queue != [] && part != []
    requires var tried' := tried + {queue[0].name};
             FirstUntried(Requeue(queue[1..], leader, tried'), tried') == Some(part[0])
    ensures var tried' := tried + {queue[0].name} + Names(part);
            FirstUntried(Requeue(queue[1..], leader, tried + {queue[0].name}), tried') == FirstUntried(queue, tried')
  {
    assert part[0] in part && part[0].name in Names(part);
    hide Names;
  }

  lemma RestUpcoming(q: Request, queue: seq<Node>, tried: set<string>, k: nat, n: nat, later: seq<Node>,
                     rest: seq<Node>, i: nat)
    requires Visited(q, queue, tried, k, n, later) && queue != [] && i <= |rest|
    requires PostsAsTold(q, later, tried + {queue[0].name}, k + n, rest)
    requires forall m :: m in rest ==> m.name != queue[0].name
    ensures Upcoming(q, queue, tried, k, Repeat(queue[0], n) + rest[..i])
         == Upcoming(q, later, tried + {queue[0].name}, k + n, rest[..i])
  {
    var tried' := tried + {queue[0].name};
    assert i > 0 ==> AsTold(q, later, tried', k + n, rest, 0);
    hide Upcoming, Visited, FirstUntried, PostsAsTold;
    NothingPostedYet(q, later, tried', k + n);
    if i == 0 {
      AfterVisit(q, queue, tried, k, n, later);
      assert Repeat(queue[0], n) + rest[..0] == Repeat(queue[0], n);
    } else {
      assert rest[..0] == [];
      LongAfterVisit(q, queue, tried, k, n, later, rest[..i]);
    }
  }

  /** What follows a visit is told by the queue after it, and it all is told by the queue before. */
  lemma RestAsTold(q: Request, queue: seq<Node>, tried: set<string>, k: nat, n: nat, later: seq<Node>, rest: seq<Node>)
    requires Visited(q, queue, tried, k, n, later) && queue != []
    requires PostsAsTold(q, queue, tried, k, Repeat(queue[0], n))
    requires PostsAsTold(q, later, tried + {queue[0].name}, k + n, rest)
    requires forall m :: m in rest ==> m.name != queue[0].name
    ensures PostsAsTold(q, queue, tried, k, Repeat(queue[0], n) + rest)
  {
    hide Upcoming, Visited, AsTold;
    var first := Repeat(queue[0], n);
    var posts := first + rest;
    forall i | 0 <= i < |posts| ensures AsTold(q, queue, tried, k, posts, i) {
      if i < n {
        SamePost(q, queue, tried, k, first, rest, i);
      } else {
        LaterPost(q, queue, tried, k, n, later, rest, i - n);
      }
    }
  }

  lemma SamePost(q: Request, queue: seq<Node>, tried: set<string>, k: nat, first: seq<Node>, rest: seq<Node>, i: nat)
    requires i < |first| && AsTold(q, queue, tried, k, first, i)
    ensures AsTold(q, queue, tried, k, first + rest, i)
  {
    hide Upcoming;
    assert (first + rest)[..i] == first[..i];
  }

  lemma LaterPost(q: Request, queue: seq<Node>, tried: set<string>, k: nat, n: nat, later: seq<Node>, rest: seq<Node>,
                  i: nat)
    requires Visited(q, queue, tried, k, n, later) && queue != [] && i < |rest|
    requires PostsAsTold(q, later, tried + {queue[0].name}, k + n, rest)
    requires forall m :: m in rest ==> m.name != queue[0].name
    ensures AsTold(q, queue, tried, k, Repeat(queue[0], n) + rest, n + i)
  {
    assert AsTold(q, later, tried + {queue[0].name}, k + n, rest, i);
    hide Upcoming, Visited, PostsAsTold;
    RestUpcoming(q, queue, tried, k, n, later, rest, i);
    assert (Repeat(queue[0], n) + rest)[..n + i] == Repeat(queue[0], n) + rest[..i];
  }

  lemma SameEnd(q: Request, queue: seq<Node>, tried: set<string>, k: nat, n: nat, later: seq<Node>, rest: seq<Node>)
    requires Visited(q, queue, tried, k, n, later) && queue != []
    requires PostsAsTold(q, later, tried + {queue[0].name}, k + n, rest)
    requires forall m :: m in rest ==> m.name != queue[0].name
    ensures EndAfter(q, queue, tried, k, Repeat(queue[0], n) + rest)
         == EndAfter(q, later, tried + {queue[0].name}, k + n, rest)
  {
    LastOutcome(q, queue, tried, k, n, later);
    hide Upcoming, Visited, FirstUntried, Decides, Decision, PostsAsTold;
    RestUpcoming(q, queue, tried, k, n, later, rest, |rest|);
    assert rest[..|rest|] == rest;
    var posts := Repeat(queue[0], n) + rest;
    if rest != [] {
      assert posts[|posts| - 1] == rest[|rest| - 1];
      assert k + |posts| - 1 == k + n + |rest| - 1;
    }
  }

  lemma LastOutcome(q: Request, queue: seq<Node>, tried: set<string>, k: nat, n: nat, later: seq<Node>)
    requires Visited(q, queue, tried, k, n, later)
    ensures n > 0 && !Decides(q.write, q.world(k + n - 1))
  {
  }

  lemma SkippedIsTold(q: Request, queue: seq<Node>, tried: set<string>, k: nat, posts: seq<Node>)
    requires queue != [] && queue[0].name in tried && PostsAsTold(q, queue[1..], tried, k, posts)
    ensures PostsAsTold(q, queue, tried, k, posts)
    ensures EndAfter(q, queue, tried, k, posts) == EndAfter(q, queue[1..], tried, k, posts)
  {
    hide Names, Decides, Decision, AsksToWait, LeaderSaid;
    SameUpcoming(q, queue, tried, k, posts);
    forall i | 0 <= i < |posts| ensures AsTold(q, queue, tried, k, posts, i) {
      assert AsTold(q, queue[1..], tried, k, posts, i);
      SameUpcoming(q, queue, tried, k, posts[..i]);
    }
    hide Upcoming;
  }

  lemma SameUpcoming(q: Request, queue: seq<Node>, tried: set<string>, k: nat, posts: seq<Node>)
    requires queue != [] && queue[0].name in tried
    ensures Upcoming(q, queue, tried, k, posts) == Upcoming(q, queue[1..], tried, k, posts)
  {
    hide Names, Decides, AsksToWait, LeaderSaid;
  }

  lemma NoQueue(q: Request, tried: set<string>, k: nat)
    ensures EndAfter(q, [], tried, k, []) == Exhausted && PostsAsTold(q, [], tried, k, [])
  {
  }

  /** A call that ends in its first visit. */
  lemma VisitOnly(q: Request, queue: seq<Node>, tried: set<string>, k: nat)
    requires Within(queue, q.nodes) && queue != [] && queue[0].name !in tried
    requires VisitNode(q, queue[0], 0, k).ending.Halt?
    ensures var n := VisitNode(q, queue[0], 0, k).next - k;
            var trip := Walk(q, queue, tried, k);
            && trip.posts == Repeat(queue[0], n) && trip.verdict == EndAfter(q, queue, tried, k, trip.posts)
            && (trip.verdict == Cancelled ==> q.aborted(k + n))
  {
    hide VisitNode, Names;
    VisitExactly(q, queue[0], 0, k);
    var v := VisitNode(q, queue[0], 0, k);
    var n := v.next - k;
    if v.ending.verdict == Cancelled {
      if n == 0 {
        NothingPostedYet(q, queue, tried, k);
      } else {
        SameAgain(q, queue, tried, k, queue[0], n);
      }
    }
    hide Walk, Upcoming;
  }

  /**
   * Every post of a call is where the replies so far send it, made while the signal is not set; and the
   * call ends as its last reply says: decided, cancelled with a post still to make, or with none left.
   */
  lemma {:induction false} WalkExactly(q: Request, queue: seq<Node>, tried: set<string>, k: nat)
    requires Within(queue, q.nodes)
    ensures var trip := Walk(q, queue, tried, k);
            && PostsAsTold(q, queue, tried, k, trip.posts)
            && trip.verdict == EndAfter(q, queue, tried, k, trip.posts)
            && (trip.verdict == Cancelled ==> q.aborted(k + |trip.posts|))
    decreases |Names(q.nodes) - tried|, |queue|
  {
    hide VisitNode, Walk, Upcoming, Names, Decides, Decision, AsksToWait, LeaderSaid, AsTold, EndAfter, Requeue;
    WalkSkips(q, queue, tried, k);
    if queue == [] {
      NoQueue(q, tried, k);
    } else if queue[0].name in tried {
      WalkExactly(q, queue[1..], tried, k);
      SkippedIsTold(q, queue, tried, k, Walk(q, queue, tried, k).posts);
    } else {
      VisitExactly(q, queue[0], 0, k);
      var v := VisitNode(q, queue[0], 0, k);
      var n := v.next - k;
      FirstVisitAsTold(q, queue, tried, k, n);
      if v.ending.MoveOn? {
        FewerLeft(q.nodes, tried, queue[0]);
        var rest := Turn(q, queue, tried, k);
        var later, tried' := Requeue(queue[1..], v.ending.redirect, tried + {queue[0].name}), tried + {queue[0].name};
        WalkExactly(q, later, tried', v.next);
        EachNodeOnce(q, later, tried', v.next);
        RestAsTold(q, queue, tried, k, n, later, rest.posts);
        SameEnd(q, queue, tried, k, n, later, rest.posts);
      } else {
        VisitOnly(q, queue, tried, k);
      }
    }
  }

  /**
   * The verdict of every call by its last post: a success carries that reply and the name the reply gives
   * or else the node's; a refusal carries the error reply and the node's name; the outcome is unknown
   * exactly for a write that was lost.
   */
  lemma VerdictExactly(q: Request, queue: seq<Node>, tried: set<string>, k: nat, name: string, reply: Reply)
    requires Within(queue, q.nodes)
    ensures var trip := Walk(q, queue, tried, k);
            var n := |trip.posts|;
            && (trip.verdict == Done(name, reply)
                <==> n > 0 && q.world(k + n - 1) == Answered(reply) && reply.status == 200 && reply.ok
                     && name == (if reply.node.Some? then reply.node.value else trip.posts[n - 1].name))
            && (trip.verdict == Refused(name, reply)
                <==> n > 0 && q.world(k + n - 1) == Answered(reply) && reply.error.Some?
                     && !(reply.status == 200 && reply.ok) && name == trip.posts[n - 1].name)
            && (trip.verdict == OutcomeUnknown <==> n > 0 && q.write && q.world(k + n - 1) == Lost)
  {
    WalkExactly(q, queue, tried, k);
    hide Walk, Upcoming, PostsAsTold;
  }
}
