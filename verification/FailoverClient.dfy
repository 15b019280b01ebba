/**
 * The client of the coordination service: which nodes one call posts to, when it may try again, and
 * what it remembers between calls.
 *
 * The outside world is a script: `world(k)` is what becomes of the k-th post of this call, and
 * `aborted(k)` says whether the caller's signal is set when that post is about to be made.
 */
module FailoverClient {
  import opened Basics
  import opened Options

  datatype Node = Node(name: string, url: string)

  type Value = string

  /** The fields of a reply the loop looks at. `ok` is `reply.ok === true`; `epoch` is a finite number or absent. */
  datatype Reply = Reply(
    status: int,
    ok: bool,
    error: Option<Value>,
    reason: Option<string>,
    leader: Option<string>,
    leaderUrl: Option<string>,
    node: Option<string>,
    epoch: Option<real>,
    result: Value)

  /** A post is answered, or throws before or after the request may have left. */
  datatype Outcome = Answered(reply: Reply) | Unsent | Lost

  type World = nat -> Outcome
  type Signal = nat -> bool

  const OPS := {"file_board", "file_claim", "file_release", "file_finish", "heartbeat", "send", "attention",
                "ack", "read", "project_list", "project_show", "job_take", "job_update", "my_jobs"}
  const READ_OPS := {"file_board", "attention", "read", "project_list", "project_show", "my_jobs"}
  const LEADER_CACHE_MAX_AGE := 3_600_000

  /** Every operation outside the fixed set of reads. */
  predicate IsWrite(op: string) {
    op !in READ_OPS
  }

  function NormaliseUrl(url: string): string {
    if url != [] && url[|url| - 1] == '/' then NormaliseUrl(url[..|url| - 1]) else url
  }

  function NodeNamed(nodes: seq<Node>, name: string): (r: Option<Node>)
    ensures r.Some? ==> r.value in nodes && r.value.name == name
    ensures r.None? ==> forall n :: n in nodes ==> n.name != name
  {
    if nodes == [] then None
    else if nodes[0].name == name then Some(nodes[0])
    else NodeNamed(nodes[1..], name)
  }

  function NodeAtUrl(nodes: seq<Node>, url: string): (r: Option<Node>)
    ensures r.Some? ==> r.value in nodes && r.value.url == url
    ensures r.None? ==> forall n :: n in nodes ==> n.url != url
  {
    if nodes == [] then None
    else if nodes[0].url == url then Some(nodes[0])
    else NodeAtUrl(nodes[1..], url)
  }

  /** The configured node a "not leader" reply points at: by name if it names one, else by URL. */
  function Redirect(nodes: seq<Node>, reply: Reply): (r: Option<Node>)
    ensures r.Some? ==> r.value in nodes
  {
    if reply.reason != Some("not leader") then None
    else
      var named := if reply.leader.Some? then NodeNamed(nodes, reply.leader.value) else None;
      if named.Some? then named
      else if reply.leaderUrl.Some? then NodeAtUrl(nodes, NormaliseUrl(reply.leaderUrl.value))
      else None
  }

  // ---------------------------------------------------------------- one call, as a function of the script

  /** How a call ends. */
  datatype Verdict =
    | Done(name: string, reply: Reply)
    | Refused(name: string, reply: Reply)
    | OutcomeUnknown
    | Cancelled
    | Exhausted

  /** How the visit to one node ends: the whole call is over, or the loop goes on, perhaps to a named leader. */
  datatype Ending = Halt(verdict: Verdict) | MoveOn(redirect: Option<Node>)

  /** The index after the last post made so far, and how it ended. */
  datatype Visit = Visit(next: nat, ending: Ending)

  datatype Request = Request(nodes: seq<Node>, retries: nat, write: bool, world: World, aborted: Signal)

  predicate Busy(o: Outcome) {
    o.Answered? && o.reply.status == 503 && o.reply.error.None?
  }

  predicate Success(o: Outcome) {
    o.Answered? && o.reply.status == 200 && o.reply.ok
  }

  /** What one outcome at `node` decides, once it is not a reason to try the same node again. */
  function Judge(q: Request, node: Node, o: Outcome): Ending {
    match o
    case Unsent => MoveOn(None)
    case Lost => if q.write then Halt(OutcomeUnknown) else MoveOn(None)
    case Answered(reply) =>
      if Success(o) then Halt(Done(if reply.node.Some? then reply.node.value else node.name, reply))
      else if reply.error.Some? then Halt(Refused(node.name, reply))
      else if reply.status == 409 then MoveOn(Redirect(q.nodes, reply))
      else MoveOn(None)
  }

  function VisitNode(q: Request, node: Node, attempt: nat, k: nat): (v: Visit)
    requires attempt <= q.retries
    ensures k <= v.next <= k + (q.retries - attempt) + 1
    decreases q.retries - attempt
  {
    if q.aborted(k) then Visit(k, Halt(Cancelled))
    else if Busy(q.world(k)) && attempt < q.retries then VisitNode(q, node, attempt + 1, k + 1)
    else Visit(k + 1, Judge(q, node, q.world(k)))
  }

  /** The posts of a call in order, and how it ended. */
  datatype Trip = Trip(posts: seq<Node>, verdict: Verdict)

  function Names(nodes: seq<Node>): set<string> {
    set n | n in nodes :: n.name
  }

  function Repeat(node: Node, n: nat): seq<Node> {
    seq(n, _ => node)
  }

  function Requeue(queue: seq<Node>, redirect: Option<Node>, tried: set<string>): seq<Node> {
    if redirect.Some? && redirect.value.name !in tried then [redirect.value] + queue else queue
  }

  predicate Within(queue: seq<Node>, nodes: seq<Node>) {
    forall n :: n in queue ==> n in nodes
  }

  lemma FewerLeft(nodes: seq<Node>, tried: set<string>, node: Node)
    requires node in nodes && node.name !in tried
    ensures |Names(nodes) - tried| == |Names(nodes) - (tried + {node.name})| + 1
  {
    var left := Names(nodes) - tried;
    assert node.name in left;
    assert Names(nodes) - (tried + {node.name}) == left - {node.name};
  }

  function Walk(q: Request, queue: seq<Node>, tried: set<string>, k: nat): Trip
    requires Within(queue, q.nodes)
    decreases |Names(q.nodes) - tried|, |queue|
  {
    if queue == [] then Trip([], Exhausted)
    else if queue[0].name in tried then Walk(q, queue[1..], tried, k)
    else
      FewerLeft(q.nodes, tried, queue[0]);
      var v := VisitNode(q, queue[0], 0, k);
      var made := Repeat(queue[0], v.next - k);
      match v.ending
      case Halt(verdict) => Trip(made, verdict)
      case MoveOn(redirect) =>
        var tried' := tried + {queue[0].name};
        LeadersAreConfigured(q, queue[0], 0, k);
        var rest := Walk(q, Requeue(queue[1..], redirect, tried'), tried', v.next);
        Trip(made + rest.posts, rest.verdict)
  }

  lemma {:induction false} LeadersAreConfigured(q: Request, node: Node, attempt: nat, k: nat)
    requires attempt <= q.retries
    ensures var v := VisitNode(q, node, attempt, k);
            v.ending.MoveOn? && v.ending.redirect.Some? ==> v.ending.redirect.value in q.nodes
    decreases q.retries - attempt
  {
    if !q.aborted(k) && Busy(q.world(k)) && attempt < q.retries {
      LeadersAreConfigured(q, node, attempt + 1, k + 1);
    }
  }

  // ---------------------------------------------------------------- what a call posts

  /**
   * A name's posts are consecutive, all to the same node and at most `retries + 1`: so no name is
   * visited twice. Every post goes to a queued or configured node whose name is untried.
   */
  ghost predicate OneVisitEach(posts: seq<Node>, retries: nat) {
    forall i, j :: 0 <= i <= j < |posts| && posts[i].name == posts[j].name
      ==> j - i <= retries && forall m :: i <= m <= j ==> posts[m] == posts[i]
  }

  lemma VisitThenRest(node: Node, n: nat, rest: seq<Node>, retries: nat)
    requires n <= retries + 1
    requires OneVisitEach(rest, retries) && forall m :: m in rest ==> m.name != node.name
    ensures OneVisitEach(Repeat(node, n) + rest, retries)
  {
    var posts := Repeat(node, n) + rest;
    forall j | n <= j < |posts| ensures posts[j].name != node.name {
      assert posts[j] in rest;
    }
    forall i, j | 0 <= i <= j < |posts| && posts[i].name == posts[j].name
      ensures j - i <= retries && forall m :: i <= m <= j ==> posts[m] == posts[i]
    {
      if i >= n {
        assert rest[i - n].name == rest[j - n].name;
        forall m | i <= m <= j ensures posts[m] == posts[i] {
          assert posts[m] == rest[m - n];
        }
      }
    }
  }

  lemma OneMoreVisit(rest: nat, left: nat, made: nat, perVisit: nat)
    requires rest <= left * perVisit && made <= perVisit
    ensures made + rest <= (left + 1) * perVisit
  {
  }

  lemma NoPosts(retries: nat)
    ensures OneVisitEach([], retries)
  {
  }

  lemma TimesIsNat(a: nat, b: nat)
    ensures 0 <= a * b
  {
  }

  lemma RequeueWithin(queue: seq<Node>, redirect: Option<Node>, tried: set<string>, nodes: seq<Node>)
    requires Within(queue, nodes) && (redirect.Some? ==> redirect.value in nodes)
    ensures Within(Requeue(queue, redirect, tried), nodes)
  {
  }

  // ---------------------------------------------------------------- when a call posts again

  /** The outcomes after which a call may post again. */
  predicate Continues(write: bool, o: Outcome) {
    match o
    case Unsent => true
    case Lost => !write
    case Answered(reply) => !Success(o) && reply.error.None?
  }

  /**
   * Every post but the last had an outcome that lets the call go on; the last one too exactly when
   * the call was cancelled or ran out of nodes. A cancelled call saw the signal set before its next
   * post and never earlier.
   */
  ghost predicate StopsAtFirst(q: Request, k: nat, n: nat, verdict: Verdict) {
    && (forall i :: k <= i < k + n - 1 ==> Continues(q.write, q.world(i)))
    && (verdict.Cancelled? || verdict.Exhausted? ==> forall i :: k <= i < k + n ==> Continues(q.write, q.world(i)))
    && (!verdict.Cancelled? && !verdict.Exhausted? ==> n > 0 && !Continues(q.write, q.world(k + n - 1)))
    && (forall i :: k <= i < k + n ==> !q.aborted(i))
    && (verdict.Cancelled? ==> q.aborted(k + n))
  }

  lemma {:induction false} VisitStops(q: Request, node: Node, attempt: nat, k: nat)
    requires attempt <= q.retries
    ensures var v := VisitNode(q, node, attempt, k);
            && StopsAtFirst(q, k, v.next - k, if v.ending.Halt? then v.ending.verdict else Exhausted)
            && (v.ending.MoveOn? ==> v.next > k)
            && (v.ending.Halt? ==> !v.ending.verdict.Exhausted?)
            && (forall i :: k <= i < v.next - 1 ==> Busy(q.world(i)))
    decreases q.retries - attempt
  {
    if !q.aborted(k) && Busy(q.world(k)) && attempt < q.retries {
      VisitStops(q, node, attempt + 1, k + 1);
    }
  }

  /** Rewrites one turn of the outer loop: the visit to the first untried node, and the queue after it. */
  lemma WalkStep(q: Request, queue: seq<Node>, tried: set<string>, k: nat)
    returns (v: Visit, n: nat, queue': seq<Node>, rest: Trip)
    requires Within(queue, q.nodes) && queue != [] && queue[0].name !in tried
    ensures v == VisitNode(q, queue[0], 0, k) && v.next == k + n && n <= q.retries + 1
    ensures StopsAtFirst(q, k, n, if v.ending.Halt? then v.ending.verdict else Exhausted)
    ensures v.ending.Halt? ==>
              !v.ending.verdict.Exhausted? && Walk(q, queue, tried, k) == Trip(Repeat(queue[0], n), v.ending.verdict)
    ensures v.ending.MoveOn? ==>
              && n > 0
              && |Names(q.nodes) - tried| == |Names(q.nodes) - (tried + {queue[0].name})| + 1
              && Within(queue', q.nodes) && Names(queue[1..]) <= Names(queue')
              && rest == Walk(q, queue', tried + {queue[0].name}, v.next)
              && Walk(q, queue, tried, k) == Trip(Repeat(queue[0], n) + rest.posts, rest.verdict)
  {
    hide Names;
    v, n, queue', rest := VisitNode(q, queue[0], 0, k), 0, [], Trip([], Exhausted);
    n := v.next - k;
    VisitStops(q, queue[0], 0, k);
    FewerLeft(q.nodes, tried, queue[0]);
    if v.ending.MoveOn? {
      var tried' := tried + {queue[0].name};
      queue' := Requeue(queue[1..], v.ending.redirect, tried');
      LeadersAreConfigured(q, queue[0], 0, k);
      RequeueWithin(queue[1..], v.ending.redirect, tried', q.nodes);
      RequeueKeeps(queue[1..], v.ending.redirect, tried');
      rest := Walk(q, queue', tried', v.next);
    }
  }

  lemma {:induction false} EachNodeOnce(q: Request, queue: seq<Node>, tried: set<string>, k: nat)
    requires Within(queue, q.nodes)
    ensures var posts := Walk(q, queue, tried, k).posts;
            && OneVisitEach(posts, q.retries)
            && Within(posts, q.nodes)
            && (forall n :: n in posts ==> n.name !in tried)
            && |posts| <= |Names(q.nodes) - tried| * (q.retries + 1)
    decreases |Names(q.nodes) - tried|, |queue|
  {
    hide OneVisitEach, Walk, StopsAtFirst, Names, VisitNode;
    NoPosts(q.retries);
    var left := |Names(q.nodes) - tried|;
    TimesIsNat(left, q.retries + 1);
    if queue == [] {
      WalkSkips(q, queue, tried, k);
    } else if queue[0].name in tried {
      WalkSkips(q, queue, tried, k);
      EachNodeOnce(q, queue[1..], tried, k);
    } else {
      var v, n, queue', rest := WalkStep(q, queue, tried, k);
      if v.ending.MoveOn? {
        EachNodeOnce(q, queue', tried + {queue[0].name}, v.next);
        VisitThenRest(queue[0], n, rest.posts, q.retries);
        OneMoreVisit(|rest.posts|, left - 1, n, q.retries + 1);
      } else {
        VisitThenRest(queue[0], n, [], q.retries);
        assert Repeat(queue[0], n) + [] == Repeat(queue[0], n);
        FewerLeft(q.nodes, tried, queue[0]);
        TimesIsNat(left - 1, q.retries + 1);
        OneMoreVisit(0, left - 1, n, q.retries + 1);
      }
    }
  }

  lemma WalkSkips(q: Request, queue: seq<Node>, tried: set<string>, k: nat)
    requires Within(queue, q.nodes)
    ensures queue == [] ==> Walk(q, queue, tried, k) == Trip([], Exhausted)
    ensures queue != [] && queue[0].name in tried ==> Walk(q, queue, tried, k) == Walk(q, queue[1..], tried, k)
  {
  }

  lemma StopsLater(q: Request, k: nat, a: nat, b: nat, verdict: Verdict)
    requires StopsAtFirst(q, k, a, Exhausted) && StopsAtFirst(q, k + a, b, verdict)
    ensures StopsAtFirst(q, k, a + b, verdict)
  {
  }

  lemma NothingPosted(q: Request, k: nat)
    ensures StopsAtFirst(q, k, 0, Exhausted)
  {
  }

  lemma {:induction false} StopsAtFinalOutcome(q: Request, queue: seq<Node>, tried: set<string>, k: nat)
    requires Within(queue, q.nodes)
    ensures var trip := Walk(q, queue, tried, k); StopsAtFirst(q, k, |trip.posts|, trip.verdict)
    decreases |Names(q.nodes) - tried|, |queue|
  {
    hide VisitNode, Walk, StopsAtFirst, Names;
    WalkSkips(q, queue, tried, k);
    if queue == [] {
      NothingPosted(q, k);
    } else if queue[0].name in tried {
      StopsAtFinalOutcome(q, queue[1..], tried, k);
    } else {
      var v, n, queue', rest := WalkStep(q, queue, tried, k);
      if v.ending.MoveOn? {
        StopsAtFinalOutcome(q, queue', tried + {queue[0].name}, v.next);
        StopsLater(q, k, n, |rest.posts|, rest.verdict);
      }
    }
  }

  /** A call gives up only after every node name in its queue has been posted to. */
  lemma {:induction false} GivesUpLast(q: Request, queue: seq<Node>, tried: set<string>, k: nat)
    requires Within(queue, q.nodes)
    ensures var trip := Walk(q, queue, tried, k);
            trip.verdict.Exhausted? ==> Names(queue) <= Names(trip.posts) + tried
    decreases |Names(q.nodes) - tried|, |queue|
  {
    if queue == [] {
    } else if queue[0].name in tried {
      GivesUpLast(q, queue[1..], tried, k);
    } else {
      hide VisitNode, Walk, StopsAtFirst;
      var v, n, queue', rest := WalkStep(q, queue, tried, k);
      if v.ending.MoveOn? {
        GivesUpLast(q, queue', tried + {queue[0].name}, v.next);
        NamesAfterVisit(queue[0], n, rest.posts);
        assert Names(queue) <= Names(queue[1..]) + {queue[0].name};
      }
    }
  }

  lemma RequeueKeeps(queue: seq<Node>, redirect: Option<Node>, tried: set<string>)
    ensures Names(queue) <= Names(Requeue(queue, redirect, tried))
  {
  }

  lemma NamesAfterVisit(node: Node, n: nat, rest: seq<Node>)
    requires n > 0
    ensures Names(Repeat(node, n) + rest) == Names(rest) + {node.name}
  {
    assert Repeat(node, n)[0] == node;
  }

  /** With a single node name left, a call posts again only after a busy reply. */
  lemma {:induction false} OneNameOneVisit(q: Request, queue: seq<Node>, tried: set<string>, k: nat)
    requires Within(queue, q.nodes) && |Names(q.nodes) - tried| <= 1
    ensures var n := |Walk(q, queue, tried, k).posts|;
            forall i :: k <= i < k + n - 1 ==> Busy(q.world(i))
    decreases |queue|
  {
    if queue == [] {
    } else if queue[0].name in tried {
      OneNameOneVisit(q, queue[1..], tried, k);
    } else {
      hide VisitNode, Walk, StopsAtFirst, Names, OneVisitEach, Busy;
      var v, n, queue', rest := WalkStep(q, queue, tried, k);
      VisitStops(q, queue[0], 0, k);
      if v.ending.MoveOn? {
        EachNodeOnce(q, queue', tried + {queue[0].name}, v.next);
      }
    }
  }

  // ---------------------------------------------------------------- a write is applied at most once

  /** Which posts of a call the service applied. */
  type Ledger = nat -> bool

  ghost predicate AtMostOnce(applied: Ledger, n: nat) {
    forall i, j :: 0 <= i < j < n ==> !(applied(i) && applied(j))
  }

  /** What may become of one post: the outcome the client sees, and whether the operation was applied. */
  type Behaviour = (Outcome, bool) -> bool

  ghost predicate Plays(may: Behaviour, world: World, applied: Ledger) {
    forall k: nat :: may(world(k), applied(k))
  }

  /** Posts of a whole write: the cached leader, if any, then every node in order. */
  function WritePosts(nodes: seq<Node>, retries: nat, cached: seq<Node>, world: World, aborted: Signal): seq<Node>
    requires Within(cached, nodes)
  {
    Walk(Request(nodes, retries, true, world, aborted), cached + nodes, {}, 0).posts
  }

  /** An applied post after which a write on these nodes could be posted a second time. */
  predicate Repeatable(nodes: seq<Node>, retries: nat, o: Outcome) {
    Continues(true, o) && nodes != [] && (|Names(nodes)| >= 2 || (retries > 0 && Busy(o)))
  }

  /**
   * For any service: every write, on every script the service can produce, is applied at most once,
   * if and only if the service never applies an operation and then shows an outcome after which the
   * client can post again.
   */
  lemma WriteAppliedAtMostOnce(nodes: seq<Node>, retries: nat, cached: seq<Node>, may: Behaviour)
    requires Within(cached, nodes)
    ensures (forall world, applied, aborted | Plays(may, world, applied) ::
               AtMostOnce(applied, |WritePosts(nodes, retries, cached, world, aborted)|))
       <==> (forall o :: may(o, true) ==> !Repeatable(nodes, retries, o))
  {
    if forall o :: may(o, true) ==> !Repeatable(nodes, retries, o) {
      forall world, applied, aborted | Plays(may, world, applied)
        ensures AtMostOnce(applied, |WritePosts(nodes, retries, cached, world, aborted)|)
      {
        AppliedLast(nodes, retries, cached, may, world, applied, aborted);
      }
    } else {
      var o :| may(o, true) && Repeatable(nodes, retries, o);
      var world: World, applied: Ledger, aborted: Signal := _ => o, _ => true, _ => false;
      assert Plays(may, world, applied);
      PostedTwice(nodes, retries, cached, o);
      assert !AtMostOnce(applied, |WritePosts(nodes, retries, cached, world, aborted)|) by {
        assert applied(0) && applied(1);
      }
    }
  }

  /**
   * The replies the service documents: success, the two refusals without an error object, which
   * never apply anything, and every reply with an error object.
   */
  predicate Documented(o: Outcome, applied: bool) {
    match o
    case Unsent => !applied
    case Lost => true
    case Answered(reply) =>
      || Success(o)
      || reply.error.Some?
      || ((reply.status == 409 || reply.status == 503) && !applied)
  }

  /** Under the documented replies a write is applied at most once, and then only by its last post. */
  lemma DocumentedWriteOnce(nodes: seq<Node>, retries: nat, cached: seq<Node>,
                            world: World, applied: Ledger, aborted: Signal)
    requires Within(cached, nodes) && Plays((o, a) => Documented(o, a), world, applied)
    ensures var n := |WritePosts(nodes, retries, cached, world, aborted)|;
            && (forall i: nat :: i < n - 1 ==> !applied(i))
            && AtMostOnce(applied, n)
  {
    AppliedLast(nodes, retries, cached, (o, a) => Documented(o, a), world, applied, aborted);
  }

  /** Outside them it can be applied twice: a server error without an error object moves on to the next node. */
  lemma BareServerErrorIsRepeated(a: Node, b: Node, reply: Reply, retries: nat)
    requires a.name != b.name && reply.status == 500 && reply.error.None?
    ensures Repeatable([a, b], retries, Answered(reply))
    ensures |WritePosts([a, b], retries, [], _ => Answered(reply), _ => false)| >= 2
  {
    assert Names([a, b]) == {a.name, b.name} by {
      assert a in [a, b] && b in [a, b];
    }
    PostedTwice([a, b], retries, [], Answered(reply));
  }

  lemma AppliedLast(nodes: seq<Node>, retries: nat, cached: seq<Node>, may: Behaviour,
                    world: World, applied: Ledger, aborted: Signal)
    requires Within(cached, nodes) && Plays(may, world, applied)
    requires forall o :: may(o, true) ==> !Repeatable(nodes, retries, o)
    ensures var n := |WritePosts(nodes, retries, cached, world, aborted)|;
            && (forall i: nat :: i < n - 1 ==> !applied(i))
            && AtMostOnce(applied, n)
  {
    var q := Request(nodes, retries, true, world, aborted);
    var n := |Walk(q, cached + nodes, {}, 0).posts|;
    hide Walk;
    StopsAtFinalOutcome(q, cached + nodes, {}, 0);
    EachNodeOnce(q, cached + nodes, {}, 0);
    assert Names(nodes) - {} == Names(nodes);
    if |Names(nodes)| <= 1 {
      OneNameOneVisit(q, cached + nodes, {}, 0);
    }
    forall i: nat | i < n - 1 ensures !applied(i) {
      assert may(world(i), applied(i));
      assert Continues(true, world(i));
    }
  }

  lemma PostedTwice(nodes: seq<Node>, retries: nat, cached: seq<Node>, o: Outcome)
    requires Within(cached, nodes) && Repeatable(nodes, retries, o)
    ensures |WritePosts(nodes, retries, cached, _ => o, _ => false)| >= 2
  {
    var q := Request(nodes, retries, true, _ => o, _ => false);
    var queue := cached + nodes;
    var trip := Walk(q, queue, {}, 0);
    hide Walk;
    StopsAtFinalOutcome(q, queue, {}, 0);
    GivesUpLast(q, queue, {}, 0);
    assert trip.verdict.Exhausted?;
    assert Names(nodes) <= Names(trip.posts);
    if |Names(nodes)| >= 2 {
      SubsetSize(Names(nodes), Names(trip.posts));
      FewNames(trip.posts);
    } else {
      var _, _, _, _ := WalkStep(q, queue, {}, 0);
      assert VisitNode(q, queue[0], 0, 0) == VisitNode(q, queue[0], 1, 1);
      VisitStops(q, queue[0], 1, 1);
    }
  }

  lemma {:induction false} FewNames(posts: seq<Node>)
    ensures |Names(posts)| <= |posts|
  {
    if posts == [] {
    } else {
      FewNames(posts[1..]);
      assert Names(posts) == Names(posts[1..]) + {posts[0].name};
    }
  }

  // ---------------------------------------------------------------- redirects

  /** A post answered "not leader" with a configured, untried leader is followed by a post to that leader. */
  ghost predicate FollowsLeader(q: Request, posts: seq<Node>, tried: set<string>, k: nat) {
    forall i :: 0 <= i < |posts| - 1 ==> PointsRight(q, posts, tried, k, i)
  }

  ghost predicate PointsRight(q: Request, posts: seq<Node>, tried: set<string>, k: nat, i: nat)
    requires i < |posts| - 1
  {
    var o := q.world(k + i);
    o.Answered? && o.reply.status == 409 && o.reply.error.None? ==>
      var r := Redirect(q.nodes, o.reply);
      r.Some? && r.value.name !in tried && r.value.name !in Names(posts[..i + 1]) ==> posts[i + 1] == r.value
  }

  lemma FirstOfWalk(q: Request, queue: seq<Node>, tried: set<string>, k: nat)
    requires Within(queue, q.nodes) && queue != [] && queue[0].name !in tried
    ensures var posts := Walk(q, queue, tried, k).posts; posts != [] ==> posts[0] == queue[0]
  {
    hide Walk, StopsAtFirst;
    var v, n, _, _ := WalkStep(q, queue, tried, k);
    if n == 0 {
      assert Repeat(queue[0], n) == [];
    } else {
      assert Repeat(queue[0], n)[0] == queue[0];
    }
  }

  lemma VisitRedirect(q: Request, node: Node, attempt: nat, k: nat)
    requires attempt <= q.retries
    ensures var v := VisitNode(q, node, attempt, k);
            v.ending.MoveOn? ==> v.next > k && v.ending == Judge(q, node, q.world(v.next - 1))
    decreases q.retries - attempt
  {
    if !q.aborted(k) && Busy(q.world(k)) && attempt < q.retries {
      VisitRedirect(q, node, attempt + 1, k + 1);
    }
  }

  lemma {:induction false} LeaderIsNext(q: Request, queue: seq<Node>, tried: set<string>, k: nat)
    requires Within(queue, q.nodes)
    ensures FollowsLeader(q, Walk(q, queue, tried, k).posts, tried, k)
    decreases |Names(q.nodes) - tried|, |queue|
  {
    hide VisitNode, Walk, StopsAtFirst, PointsRight;
    WalkSkips(q, queue, tried, k);
    if queue == [] {
    } else if queue[0].name in tried {
      LeaderIsNext(q, queue[1..], tried, k);
    } else {
      var v, n, queue', rest := WalkStep(q, queue, tried, k);
      VisitStops(q, queue[0], 0, k);
      var tried' := tried + {queue[0].name};
      if v.ending.MoveOn? {
        LeaderIsNext(q, queue', tried', v.next);
        var posts := Repeat(queue[0], n) + rest.posts;
        forall i | 0 <= i < |posts| - 1 ensures PointsRight(q, posts, tried, k, i) {
          if i < n - 1 {
            BusyPointsNowhere(q, posts, tried, k, i);
          } else if i == n - 1 {
            RedirectedAfterVisit(q, queue, tried, k, posts);
          } else {
            assert PointsRight(q, rest.posts, tried', v.next, i - n);
            ShiftedPoint(q, queue[0], n, rest.posts, tried, k, i);
          }
        }
      } else {
        forall i: nat | i + 1 < n ensures PointsRight(q, Repeat(queue[0], n), tried, k, i) {
          BusyPointsNowhere(q, Repeat(queue[0], n), tried, k, i);
        }
      }
    }
  }

  lemma BusyPointsNowhere(q: Request, posts: seq<Node>, tried: set<string>, k: nat, i: nat)
    requires i < |posts| - 1 && Busy(q.world(k + i))
    ensures PointsRight(q, posts, tried, k, i)
  {
  }

  lemma ShiftedPoint(q: Request, node: Node, n: nat, rest: seq<Node>, tried: set<string>, k: nat, i: nat)
    requires 0 < n <= i < n + |rest| - 1
    requires PointsRight(q, rest, tried + {node.name}, k + n, i - n)
    ensures PointsRight(q, Repeat(node, n) + rest, tried, k, i)
  {
    var posts := Repeat(node, n) + rest;
    assert posts[..i + 1] == Repeat(node, n) + rest[..i - n + 1];
    NamesAfterVisit(node, n, rest[..i - n + 1]);
    assert posts[i + 1] == rest[i - n + 1];
  }

  lemma RedirectedAfterVisit(q: Request, queue: seq<Node>, tried: set<string>, k: nat, posts: seq<Node>)
    requires Within(queue, q.nodes) && queue != [] && queue[0].name !in tried
    requires VisitNode(q, queue[0], 0, k).ending.MoveOn? && posts == Walk(q, queue, tried, k).posts
    requires var n := VisitNode(q, queue[0], 0, k).next - k; 0 < n < |posts|
    ensures PointsRight(q, posts, tried, k, VisitNode(q, queue[0], 0, k).next - k - 1)
  {
    hide Walk, VisitNode, Names, Judge, PointsRight, Within;
    var v := VisitNode(q, queue[0], 0, k);
    VisitRedirect(q, queue[0], 0, k);
    NamesOfVisit(q, queue, tried, k, posts);
    var redirect := v.ending.redirect;
    if redirect.Some? && redirect.value.name !in tried + {queue[0].name} {
      LeadersAreConfigured(q, queue[0], 0, k);
      FirstAfterVisit(q, queue, tried, k, posts);
    }
    JudgedPoints(q, posts, tried, k, v.next - k, queue[0], redirect);
  }

  /** The redirect that ended a visit is the one its last outcome gives. */
  lemma JudgedPoints(q: Request, posts: seq<Node>, tried: set<string>, k: nat, n: nat,
                     node: Node, redirect: Option<Node>)
    requires 0 < n < |posts| && Judge(q, node, q.world(k + n - 1)) == MoveOn(redirect)
    requires Names(posts[..n]) == {node.name}
    requires redirect.Some? && redirect.value.name !in tried + {node.name} ==> posts[n] == redirect.value
    ensures PointsRight(q, posts, tried, k, n - 1)
  {
    hide Names, Redirect, Judge;
    var o := q.world(k + n - 1);
    if o.Answered? && o.reply.status == 409 && o.reply.error.None? {
      JudgedRedirect(q, node, o);
    }
  }

  /** A conflict without an error object is judged by its redirect. */
  lemma JudgedRedirect(q: Request, node: Node, o: Outcome)
    requires o.Answered? && o.reply.status == 409 && o.reply.error.None?
    ensures Judge(q, node, o) == MoveOn(Redirect(q.nodes, o.reply))
  {
  }

  /** The posts of the first visit all go to its node. */
  lemma NamesOfVisit(q: Request, queue: seq<Node>, tried: set<string>, k: nat, posts: seq<Node>)
    requires Within(queue, q.nodes) && queue != [] && queue[0].name !in tried
    requires VisitNode(q, queue[0], 0, k).ending.MoveOn? && posts == Walk(q, queue, tried, k).posts
    requires var n := VisitNode(q, queue[0], 0, k).next - k; 0 < n < |posts|
    ensures Names(posts[..VisitNode(q, queue[0], 0, k).next - k]) == {queue[0].name}
  {
    hide Walk, VisitNode, StopsAtFirst, Names;
    var v, n, _, rest := WalkStep(q, queue, tried, k);
    assert posts[..n] == Repeat(queue[0], n);
    assert Repeat(queue[0], n) + [] == Repeat(queue[0], n);
    NamesAfterVisit(queue[0], n, []);
    NoNames();
  }

  lemma NoNames()
    ensures Names([]) == {}
  {
  }

  lemma FirstAfterVisit(q: Request, queue: seq<Node>, tried: set<string>, k: nat, posts: seq<Node>)
    requires Within(queue, q.nodes) && queue != [] && queue[0].name !in tried
    requires posts == Walk(q, queue, tried, k).posts
    requires var v := VisitNode(q, queue[0], 0, k);
             && v.ending.MoveOn? && v.ending.redirect.Some? && v.ending.redirect.value in q.nodes
             && v.ending.redirect.value.name !in tried + {queue[0].name}
             && 0 < v.next - k < |posts|
    ensures var v := VisitNode(q, queue[0], 0, k); posts[v.next - k] == v.ending.redirect.value
  {
    hide VisitNode, Names;
    var v := VisitNode(q, queue[0], 0, k);
    var tried' := tried + {queue[0].name};
    LeadersAreConfigured(q, queue[0], 0, k);
    var queue' := Requeue(queue[1..], v.ending.redirect, tried');
    var rest := Walk(q, queue', tried', v.next).posts;
    assert posts == Repeat(queue[0], v.next - k) + rest;
    FirstOfWalk(q, queue', tried', v.next);
  }

  // ---------------------------------------------------------------- what is remembered between calls

  datatype Leader = Leader(name: string, epoch: real, seenAt: nat)

  datatype Memory = Memory(leader: Option<Leader>, downUntil: nat)

  /** What a call leaves behind: a node that answered for an epoch, or the finding that none answered. */
  datatype Event = Learnt(name: string, epoch: real, at: nat) | Silent(at: nat)

  predicate IsFresh(leader: Option<Leader>, now: nat) {
    leader.Some? && now - leader.value.seenAt < LEADER_CACHE_MAX_AGE
  }

  /** The epoch a call at `now` requires of the node it posts to. */
  function MinEpoch(m: Memory, now: nat): real {
    if IsFresh(m.leader, now) then m.leader.value.epoch else 0.0
  }

  function After(nodes: seq<Node>, downCacheMs: nat, m: Memory, e: Event): Memory {
    match e
    case Learnt(name, epoch, at) =>
      if NodeNamed(nodes, name).None? then m
      else
        var previous := MinEpoch(m, at);
        m.(leader := Some(Leader(name, if epoch > previous then epoch else previous, at)))
    case Silent(at) => m.(downUntil := at + downCacheMs)
  }

  /** The memory after a history of events; calls overlap, so their events arrive in any order. */
  function Recall(nodes: seq<Node>, downCacheMs: nat, events: seq<Event>): Memory {
    if events == [] then Memory(None, 0)
    else After(nodes, downCacheMs, Recall(nodes, downCacheMs, events[..|events| - 1]), events[|events| - 1])
  }

  ghost predicate InOrder(events: seq<Event>, now: nat) {
    && (forall i, j :: 0 <= i <= j < |events| ==> events[i].at <= events[j].at)
    && (forall i :: 0 <= i < |events| ==> events[i].at <= now)
  }

  lemma {:induction false} LeaderIsConfigured(nodes: seq<Node>, downCacheMs: nat, events: seq<Event>, now: nat)
    requires InOrder(events, now)
    ensures var m := Recall(nodes, downCacheMs, events);
            m.leader.Some? ==>
              && m.leader.value.name in Names(nodes) && m.leader.value.epoch >= 0.0
              && m.leader.value.seenAt <= now
  {
    if events == [] {
    } else {
      LeaderIsConfigured(nodes, downCacheMs, events[..|events| - 1], events[|events| - 1].at);
    }
  }

  /** A call never accepts an older epoch than one a configured node answered for in the last hour. */
  lemma {:induction false} EpochFloor(nodes: seq<Node>, downCacheMs: nat, events: seq<Event>, now: nat, i: nat)
    requires InOrder(events, now) && i < |events|
    requires events[i].Learnt? && events[i].name in Names(nodes) && now - events[i].at < LEADER_CACHE_MAX_AGE
    ensures events[i].epoch <= MinEpoch(Recall(nodes, downCacheMs, events), now)
  {
    var last := |events| - 1;
    var before, e := events[..last], events[last];
    if i == last {
      LearntRaises(nodes, downCacheMs, Recall(nodes, downCacheMs, before), e, now);
    } else {
      var t := if e.Learnt? && e.name in Names(nodes) then e.at else now;
      EpochFloor(nodes, downCacheMs, before, t, i);
      hide Recall, MinEpoch, After, InOrder, Names;
      LearntRaises(nodes, downCacheMs, Recall(nodes, downCacheMs, before), e, now);
      LastEvent(nodes, downCacheMs, events);
    }
  }

  lemma LastEvent(nodes: seq<Node>, downCacheMs: nat, events: seq<Event>)
    requires events != []
    ensures Recall(nodes, downCacheMs, events)
         == After(nodes, downCacheMs, Recall(nodes, downCacheMs, events[..|events| - 1]), events[|events| - 1])
  {
  }

  /** An event of a configured node keeps or raises the required epoch; any other leaves it alone. */
  lemma LearntRaises(nodes: seq<Node>, downCacheMs: nat, m: Memory, e: Event, now: nat)
    requires e.at <= now
    ensures var after := After(nodes, downCacheMs, m, e);
            if e.Learnt? && e.name in Names(nodes) then
              now - e.at < LEADER_CACHE_MAX_AGE ==>
                MinEpoch(after, now) >= MinEpoch(m, e.at) && MinEpoch(after, now) >= e.epoch
            else MinEpoch(after, now) == MinEpoch(m, now)
  {
  }

  /** And the epoch it requires is one that some configured node answered for, or zero. */
  lemma {:induction false} EpochWasLearnt(nodes: seq<Node>, downCacheMs: nat, events: seq<Event>, now: nat)
    ensures var e := MinEpoch(Recall(nodes, downCacheMs, events), now);
            e == 0.0 || exists i :: 0 <= i < |events| && events[i].Learnt? && events[i].epoch == e
                                    && events[i].name in Names(nodes)
  {
    if events == [] {
    } else {
      var last := |events| - 1;
      var before := events[..last];
      EpochWasLearnt(nodes, downCacheMs, before, now);
      EpochWasLearnt(nodes, downCacheMs, before, events[last].at);
      var e := MinEpoch(Recall(nodes, downCacheMs, events), now);
      if e != 0.0 && !(events[last].Learnt? && events[last].epoch == e && events[last].name in Names(nodes)) {
        var t := if events[last].Learnt? && events[last].name in Names(nodes) then events[last].at else now;
        var i :| 0 <= i < |before| && before[i].Learnt? && before[i].name in Names(nodes)
                 && before[i].epoch == MinEpoch(Recall(nodes, downCacheMs, before), t);
        assert events[i] == before[i];
      }
    }
  }

  /** The network is skipped exactly while some call that found no node answering is recent enough. */
  lemma {:induction false} SkippedExactlyAfterSilence(nodes: seq<Node>, downCacheMs: nat, events: seq<Event>, now: nat)
    requires InOrder(events, now)
    ensures Recall(nodes, downCacheMs, events).downUntil > now
            <==> exists i :: 0 <= i < |events| && events[i].Silent? && now < events[i].at + downCacheMs
  {
    if events == [] {
    } else {
      var last := |events| - 1;
      var before := events[..last];
      SkippedExactlyAfterSilence(nodes, downCacheMs, before, now);
      assert forall i :: 0 <= i < |before| ==> before[i] == events[i];
    }
  }

  // ---------------------------------------------------------------- the client

  datatype Admission =
    | UnsupportedOperation
    | NoNodes
    | NoCredential
    | CachedDown
    | Go(write: bool, minEpoch: real, queue: seq<Node>)

  /** What the end of a call adds to the memory. */
  function Lesson(verdict: Verdict, anyAnswer: bool, downCacheMs: nat, now: nat): Option<Event> {
    match verdict
    case Done(name, reply) => Some(Learnt(name, if reply.epoch.Some? then reply.epoch.value else 0.0, now))
    case Refused(name, reply) => Some(Learnt(name, if reply.epoch.Some? then reply.epoch.value else 0.0, now))
    case Exhausted => if !anyAnswer && downCacheMs > 0 then Some(Silent(now)) else None
    case _ => None
  }

  function NormaliseAll(nodes: seq<Node>): seq<Node> {
    seq(|nodes|, i requires 0 <= i < |nodes| => Node(nodes[i].name, NormaliseUrl(nodes[i].url)))
  }

  /** The whole walk from `start` is `posts` so far and then the walk from here. */
  ghost predicate Remaining(q: Request, start: seq<Node>, queue: seq<Node>, tried: set<string>, posts: seq<Node>)
    requires Within(start, q.nodes)
  {
    && Within(queue, q.nodes)
    && var rest := Walk(q, queue, tried, |posts|);
       Walk(q, start, {}, 0) == Trip(posts + rest.posts, rest.verdict)
  }

  lemma NothingDone(q: Request, start: seq<Node>)
    requires Within(start, q.nodes)
    ensures Remaining(q, start, start, {}, [])
  {
    assert [] + Walk(q, start, {}, 0).posts == Walk(q, start, {}, 0).posts;
  }

  lemma QueueEmpty(q: Request, start: seq<Node>, tried: set<string>, posts: seq<Node>)
    requires Within(start, q.nodes) && Remaining(q, start, [], tried, posts)
    ensures Walk(q, start, {}, 0) == Trip(posts, Exhausted)
  {
    assert posts + [] == posts;
  }

  lemma SkipTried(q: Request, start: seq<Node>, queue: seq<Node>, tried: set<string>, posts: seq<Node>)
    requires Within(start, q.nodes) && Remaining(q, start, queue, tried, posts)
    requires queue != [] && queue[0].name in tried
    ensures Remaining(q, start, queue[1..], tried, posts)
  {
  }

  lemma VisitEnds(q: Request, start: seq<Node>, queue: seq<Node>, tried: set<string>,
                  earlier: seq<Node>, posts: seq<Node>, redirect: Option<Node>)
    requires Within(start, q.nodes) && Remaining(q, start, queue, tried, earlier)
    requires queue != [] && queue[0].name !in tried
    requires |earlier| <= |posts| && posts == earlier + Repeat(queue[0], |posts| - |earlier|)
    requires VisitNode(q, queue[0], 0, |earlier|) == Visit(|posts|, MoveOn(redirect))
    ensures Remaining(q, start, Requeue(queue[1..], redirect, tried + {queue[0].name}), tried + {queue[0].name}, posts)
  {
    hide VisitNode, Walk, StopsAtFirst, Names, Requeue;
    var tried' := tried + {queue[0].name};
    var rest := Turn(q, queue, tried, |earlier|);
    assert earlier + (Repeat(queue[0], |posts| - |earlier|) + rest.posts) == posts + rest.posts;
  }

  lemma Turn(q: Request, queue: seq<Node>, tried: set<string>, k: nat) returns (rest: Trip)
    requires Within(queue, q.nodes) && queue != [] && queue[0].name !in tried
    requires VisitNode(q, queue[0], 0, k).ending.MoveOn?
    ensures var v := VisitNode(q, queue[0], 0, k);
            var tried' := tried + {queue[0].name};
            var queue' := Requeue(queue[1..], v.ending.redirect, tried');
            && Within(queue', q.nodes) && rest == Walk(q, queue', tried', v.next)
            && Walk(q, queue, tried, k) == Trip(Repeat(queue[0], v.next - k) + rest.posts, rest.verdict)
  {
    hide VisitNode, Names, Requeue;
    var v := VisitNode(q, queue[0], 0, k);
    var tried' := tried + {queue[0].name};
    LeadersAreConfigured(q, queue[0], 0, k);
    RequeueWithin(queue[1..], v.ending.redirect, tried', q.nodes);
    rest := Walk(q, Requeue(queue[1..], v.ending.redirect, tried'), tried', v.next);
  }

  lemma CallEnds(q: Request, start: seq<Node>, queue: seq<Node>, tried: set<string>,
                 earlier: seq<Node>, posts: seq<Node>, verdict: Verdict)
    requires Within(start, q.nodes) && Remaining(q, start, queue, tried, earlier)
    requires queue != [] && queue[0].name !in tried
    requires |earlier| <= |posts| && posts == earlier + Repeat(queue[0], |posts| - |earlier|)
    requires VisitNode(q, queue[0], 0, |earlier|) == Visit(|posts|, Halt(verdict))
    ensures Walk(q, start, {}, 0) == Trip(posts, verdict)
  {
    hide VisitNode, Names;
  }

  /** In the middle of a visit: `posts` continues `earlier` with posts to the first node of the queue. */
  ghost predicate Visiting(q: Request, start: seq<Node>, queue: seq<Node>, tried: set<string>,
                           earlier: seq<Node>, posts: seq<Node>, attempt: nat)
    requires Within(start, q.nodes)
  {
    && Remaining(q, start, queue, tried, earlier)
    && queue != [] && queue[0].name !in tried && attempt <= q.retries
    && |earlier| <= |posts| && posts == earlier + Repeat(queue[0], |posts| - |earlier|)
    && VisitNode(q, queue[0], attempt, |posts|) == VisitNode(q, queue[0], 0, |earlier|)
  }

  lemma VisitBegins(q: Request, start: seq<Node>, queue: seq<Node>, tried: set<string>, posts: seq<Node>)
    requires Within(start, q.nodes) && Remaining(q, start, queue, tried, posts)
    requires queue != [] && queue[0].name !in tried
    ensures Visiting(q, start, queue, tried, posts, posts, 0)
    ensures |Names(q.nodes) - (tried + {queue[0].name})| < |Names(q.nodes) - tried|
  {
    hide Walk, VisitNode, Names;
    assert posts == posts + Repeat(queue[0], 0);
    FewerLeft(q.nodes, tried, queue[0]);
  }

  lemma VisitAborted(q: Request, start: seq<Node>, queue: seq<Node>, tried: set<string>,
                     earlier: seq<Node>, posts: seq<Node>, attempt: nat)
    requires Within(start, q.nodes) && Visiting(q, start, queue, tried, earlier, posts, attempt) && q.aborted(|posts|)
    ensures Walk(q, start, {}, 0) == Trip(posts, Cancelled)
  {
    hide Walk, Remaining, Names, Judge;
    CallEnds(q, start, queue, tried, earlier, posts, Cancelled);
  }

  /** One more post: the visit goes on after a busy reply, and otherwise the outcome is judged. */
  lemma VisitPosts(q: Request, start: seq<Node>, queue: seq<Node>, tried: set<string>,
                   earlier: seq<Node>, posts: seq<Node>, attempt: nat)
    requires Within(start, q.nodes) && Visiting(q, start, queue, tried, earlier, posts, attempt) && !q.aborted(|posts|)
    ensures var o := q.world(|posts|);
            var ending := Judge(q, queue[0], o);
            if Busy(o) && attempt < q.retries then
              Visiting(q, start, queue, tried, earlier, posts + [queue[0]], attempt + 1)
            else if ending.Halt? then Walk(q, start, {}, 0) == Trip(posts + [queue[0]], ending.verdict)
            else
              var tried' := tried + {queue[0].name};
              Remaining(q, start, Requeue(queue[1..], ending.redirect, tried'), tried', posts + [queue[0]])
  {
    hide Walk, Remaining, Names, Judge, Requeue, Repeat;
    RepeatOneMore(queue[0], |posts| - |earlier|);
    var longer := posts + [queue[0]];
    assert longer == earlier + Repeat(queue[0], |longer| - |earlier|);
    var o := q.world(|posts|);
    if !(Busy(o) && attempt < q.retries) {
      var ending := Judge(q, queue[0], o);
      if ending.Halt? {
        CallEnds(q, start, queue, tried, earlier, longer, ending.verdict);
      } else {
        VisitEnds(q, start, queue, tried, earlier, longer, ending.redirect);
      }
    }
  }

  /** One of the first `n` posts was answered. */
  ghost predicate SomeAnswer(world: World, n: nat) {
    exists k :: 0 <= k < n && world(k).Answered?
  }

  lemma MoreAnswers(world: World, n: nat)
    ensures SomeAnswer(world, n + 1) <==> SomeAnswer(world, n) || world(n).Answered?
    ensures !SomeAnswer(world, 0)
  {
    if world(n).Answered? {
      assert 0 <= n < n + 1;
    }
  }

  /**
   * One call is three stretches: `Begin` up to the first post, `Deliver` (which touches none of the
   * fields) while posts are outstanding, `Settle` after the last one. Other calls run in between.
   */
  class AgentcoordClient {
    const nodes: seq<Node>
    const retries: nat
    const downCacheMs: nat
    var leader: Option<Leader>
    var downUntil: nat

    ghost function View(): Memory
      reads this
    {
      Memory(leader, downUntil)
    }

    constructor (nodes: seq<Node>, retries: nat, downCacheMs: nat)
      ensures this.nodes == NormaliseAll(nodes) && this.retries == retries && this.downCacheMs == downCacheMs
      ensures View() == Recall(this.nodes, downCacheMs, [])
    {
      this.nodes := NormaliseAll(nodes);
      this.retries := retries;
      this.downCacheMs := downCacheMs;
      leader := None;
      downUntil := 0;
    }

    method Begin(op: string, token: string, now: nat) returns (a: Admission)
      ensures a.UnsupportedOperation? <==> op !in OPS
      ensures a.NoNodes? <==> op in OPS && nodes == []
      ensures a.NoCredential? <==> op in OPS && nodes != [] && token == []
      ensures a.CachedDown? <==> op in OPS && nodes != [] && token != [] && View().downUntil > now
      ensures a.Go? ==>
                && a.write == IsWrite(op)
                && a.minEpoch == (if leader.Some? && now - leader.value.seenAt < 3_600_000 then leader.value.epoch
                    else 0.0)
                && a.minEpoch == MinEpoch(View(), now)
                && Within(a.queue, nodes) && Names(nodes) <= Names(a.queue)
                && exists cached :: a.queue == cached + nodes && |cached| <= 1
                     && (cached != [] ==> IsFresh(leader, now) && cached[0].name == leader.value.name)
                     && (cached == [] && IsFresh(leader, now) ==> leader.value.name !in Names(nodes))
    {
      if op !in OPS {
        return UnsupportedOperation;
      }
      if nodes == [] {
        return NoNodes;
      }
      if token == [] {
        return NoCredential;
      }
      if downUntil > now {
        return CachedDown;
      }
      var isFresh := leader.Some? && now - leader.value.seenAt < LEADER_CACHE_MAX_AGE;
      var minEpoch := if isFresh then leader.value.epoch else 0.0;
      var named := if isFresh then NodeNamed(nodes, leader.value.name) else None;
      var cached := if named.Some? then [named.value] else [];
      var queue := cached + nodes;
      assert Names(nodes) <= Names(queue);
      return Go(op !in READ_OPS, minEpoch, queue);
    }

    /** The nested loops over the queue and the attempts at one node. */
    method Deliver(plan: Admission, world: World, aborted: Signal)
      returns (posts: seq<Node>, verdict: Verdict, anyAnswer: bool)
      requires plan.Go? && Within(plan.queue, nodes)
      ensures Trip(posts, verdict) == Walk(Request(nodes, retries, plan.write, world, aborted), plan.queue, {}, 0)
      ensures anyAnswer <==> SomeAnswer(world, |posts|)
    {
      hide Names, Redirect, Remaining, Visiting, SomeAnswer, Walk, VisitNode, Within;
      var write := plan.write;
      ghost var q, start := Request(nodes, retries, write, world, aborted), plan.queue;
      var queue, tried: set<string> := plan.queue, {};
      posts, anyAnswer := [], false;
      NothingDone(q, start);
      MoreAnswers(world, 0);
      while queue != []
        invariant Remaining(q, start, queue, tried, posts)
        invariant anyAnswer <==> SomeAnswer(world, |posts|)
        decreases |Names(nodes) - tried|, |queue|
      {
        var node := queue[0];
        ghost var before, triedBefore, earlier := queue, tried, posts;
        queue := queue[1..];
        if node.name in tried {
          SkipTried(q, start, before, tried, posts);
          continue;
        }
        VisitBegins(q, start, before, tried, posts);
        tried := tried + {node.name};
        var redirect: Option<Node> := None;
        var attempt := 0;
        while attempt <= retries
          invariant attempt <= retries
          invariant Visiting(q, start, before, triedBefore, earlier, posts, attempt)
          invariant anyAnswer <==> SomeAnswer(world, |posts|)
          decreases retries - attempt
        {
          if aborted(|posts|) {
            VisitAborted(q, start, before, triedBefore, earlier, posts, attempt);
            return posts, Cancelled, anyAnswer;
          }
          var outcome := world(|posts|);
          VisitPosts(q, start, before, triedBefore, earlier, posts, attempt);
          MoreAnswers(world, |posts|);
          posts := posts + [node];
          if !outcome.Answered? {
            if write && outcome.Lost? {
              return posts, OutcomeUnknown, anyAnswer;
            }
            break;
          }
          anyAnswer := true;
          var reply := outcome.reply;
          if reply.status == 200 && reply.ok {
            return posts, Done(if reply.node.Some? then reply.node.value else node.name, reply), anyAnswer;
          }
          if reply.status == 409 && reply.error.None? {
            redirect := Redirect(nodes, reply);
            break;
          }
          if reply.status == 503 && reply.error.None? {
            if attempt < retries {
              attempt := attempt + 1;
              continue;
            }
            break;
          }
          if reply.error.Some? {
            return posts, Refused(node.name, reply), anyAnswer;
          }
          break;
        }
        if redirect.Some? && redirect.value.name !in tried {
          queue := [redirect.value] + queue;
        }
      }
      verdict := Exhausted;
      QueueEmpty(q, start, tried, posts);
    }

    method Settle(verdict: Verdict, anyAnswer: bool, now: nat)
      modifies this
      ensures var e := Lesson(verdict, anyAnswer, downCacheMs, now);
              View() == if e.Some? then After(nodes, downCacheMs, old(View()), e.value) else old(View())
      ensures (verdict.Done? || verdict.Refused?) && (exists n :: n in nodes && n.name == verdict.name) ==>
                var was := old(leader);
                var epoch := if verdict.reply.epoch.Some? then verdict.reply.epoch.value else 0.0;
                var floor := if was.Some? && now - was.value.seenAt < 3_600_000 then was.value.epoch else 0.0;
                leader == Some(Leader(verdict.name, if epoch > floor then epoch else floor, now))
      ensures !((verdict.Done? || verdict.Refused?) && exists n :: n in nodes && n.name == verdict.name) ==>
                leader == old(leader)
      ensures downUntil == if verdict.Exhausted? && !anyAnswer && downCacheMs > 0 then now + downCacheMs
                           else old(downUntil)
    {
      if verdict.Done? || verdict.Refused? {
        Remember(verdict.name, verdict.reply.epoch, now);
      } else if verdict.Exhausted? && !anyAnswer && downCacheMs > 0 {
        downUntil := now + downCacheMs;
      }
    }

    method Remember(name: string, epoch: Option<real>, now: nat)
      modifies this
      ensures View() == After(nodes, downCacheMs, old(View()),
                              Learnt(name, if epoch.Some? then epoch.value else 0.0, now))
    {
      if NodeNamed(nodes, name).None? {
        return;
      }
      var value := if epoch.Some? then epoch.value else 0.0;
      var isFresh := leader.Some? && now - leader.value.seenAt < LEADER_CACHE_MAX_AGE;
      var previous := if isFresh then leader.value.epoch else 0.0;
      leader := Some(Leader(name, if value > previous then value else previous, now));
    }
  }

  lemma RepeatOneMore(node: Node, n: nat)
    ensures Repeat(node, 0) == [] && Repeat(node, n) + [node] == Repeat(node, n + 1)
  {
  }
}
