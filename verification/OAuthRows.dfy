/**
 * The token store of the authorization server: single-use codes, rotating refresh tokens linked by
 * `rotatedTo`, and access tokens linked to the refresh token they came with.
 *
 * Secrets appear only as their hashes, which are taken to be injective.
 */
module OAuthRows {
  import opened Options

  type Hash = nat
  /** Milliseconds. */
  type Time = int
  type ClientId = nat

  datatype Kind = Access | Refresh

  datatype Code = Code(
    client: ClientId,
    redirect: string,
    challenge: string,
    challengeMethod: string,
    resource: Option<string>,
    scope: string,
    expiresAt: Time,
    consumedAt: Option<Time>)

  datatype Token = Token(
    kind: Kind,
    client: ClientId,
    audience: string,
    scope: string,
    expiresAt: Time,
    revokedAt: Option<Time>,
    rotatedTo: Option<Hash>,
    parent: Option<Hash>)

  type Codes = map<Hash, Code>
  type Tokens = map<Hash, Token>

  datatype Verdict = Retry | Theft | Unrelated

  function NewToken(kind: Kind, parent: Option<Hash>, client: ClientId, audience: string, scope: string,
                    expiresAt: Time): Token
  {
    Token(kind, client, audience, scope, expiresAt, None, None, parent)
  }

  predicate Redeemable(codes: Codes, h: Hash, now: Time) {
    h in codes && codes[h].consumedAt.None? && codes[h].expiresAt > now
  }

  /** The token is there, of this kind, not revoked and not expired. */
  predicate Usable(tokens: Tokens, h: Hash, kind: Kind, now: Time) {
    h in tokens && tokens[h].kind == kind && tokens[h].revokedAt.None? && tokens[h].expiresAt > now
  }

  /** Rotation: the successor copies the grant, the old token is revoked and points at it. */
  function Rotate(tokens: Tokens, h: Hash, next: Hash, expiresAt: Time, now: Time): Tokens
    requires h in tokens
  {
    var row := tokens[h];
    tokens[next := NewToken(Refresh, None, row.client, row.audience, row.scope, expiresAt)]
          [h := row.(revokedAt := Some(now), rotatedTo := Some(next))]
  }

  /** Revoke those of `hs` that are not revoked yet. */
  function RevokeAll(tokens: Tokens, hs: set<Hash>, now: Time): Tokens {
    map h | h in tokens ::
      if h in hs && tokens[h].revokedAt.None? then tokens[h].(revokedAt := Some(now)) else tokens[h]
  }

  function Unexpired(tokens: Tokens, now: Time): Tokens {
    map h | h in tokens && tokens[h].expiresAt > now :: tokens[h]
  }

  function UnexpiredCodes(codes: Codes, now: Time): Codes {
    map h | h in codes && codes[h].expiresAt > now :: codes[h]
  }

  /** What a refused refresh token says: only one revoked by a rotation longer ago than the grace is a theft. */
  function Classify(tokens: Tokens, h: Hash, grace: int, now: Time): Verdict {
    if h !in tokens || tokens[h].kind != Refresh then Unrelated
    else if tokens[h].revokedAt.None? || tokens[h].rotatedTo.None? then Unrelated
    else if grace > 0 && now - tokens[h].revokedAt.value <= grace then Retry
    else Theft
  }

  // ---------------------------------------------------------------- rotation chains

  function Link(tokens: Tokens, h: Hash): Option<Hash> {
    if h in tokens then tokens[h].rotatedTo else None
  }

  /** `n` steps along `rotatedTo` from `h`. */
  function Hop(tokens: Tokens, h: Hash, n: nat): Option<Hash> {
    if n == 0 then Some(h)
    else
      var before := Hop(tokens, h, n - 1);
      if before.Some? then Link(tokens, before.value) else None
  }

  ghost predicate Reaches(tokens: Tokens, from: Hash, h: Hash) {
    exists n: nat :: Hop(tokens, from, n) == Some(h)
  }

  /** An unrevoked row on the chain from `from`, or an access token whose refresh token is a row on it. */
  ghost predicate OnChain(tokens: Tokens, from: Hash, h: Hash) {
    && h in tokens && tokens[h].revokedAt.None?
    && (|| Reaches(tokens, from, h)
        || (&& tokens[h].kind == Access && tokens[h].parent.Some?
            && tokens[h].parent.value in tokens && Reaches(tokens, from, tokens[h].parent.value)))
  }

  ghost function ChainSet(tokens: Tokens, from: Hash): set<Hash> {
    set h | h in tokens && OnChain(tokens, from, h)
  }

  /** Some link of the chain points at a row that is gone. */
  ghost predicate Cut(tokens: Tokens, from: Hash) {
    exists h :: Reaches(tokens, from, h) && h !in tokens
  }

  lemma ReachesItself(tokens: Tokens, from: Hash)
    ensures Reaches(tokens, from, from)
  {
    assert Hop(tokens, from, 0) == Some(from);
  }

  lemma ReachesNext(tokens: Tokens, from: Hash, h: Hash)
    requires Reaches(tokens, from, h) && Link(tokens, h).Some?
    ensures Reaches(tokens, from, Link(tokens, h).value)
  {
    var n: nat :| Hop(tokens, from, n) == Some(h);
    assert Hop(tokens, from, n + 1) == Link(tokens, h);
  }

  /** A set that contains the start and is closed under links contains all that is reachable. */
  lemma {:induction false} ClosedContainsHop(tokens: Tokens, from: Hash, hs: set<Hash>, n: nat)
    requires from in hs
    requires forall h :: h in hs && Link(tokens, h).Some? ==> Link(tokens, h).value in hs
    ensures Hop(tokens, from, n).Some? ==> Hop(tokens, from, n).value in hs
  {
    if n == 0 {
    } else {
      ClosedContainsHop(tokens, from, hs, n - 1);
    }
  }

  lemma ClosedContainsReach(tokens: Tokens, from: Hash, hs: set<Hash>)
    requires from in hs
    requires forall h :: h in hs && Link(tokens, h).Some? ==> Link(tokens, h).value in hs
    ensures forall h :: Reaches(tokens, from, h) ==> h in hs
  {
    forall h | Reaches(tokens, from, h) ensures h in hs {
      var n: nat :| Hop(tokens, from, n) == Some(h);
      ClosedContainsHop(tokens, from, hs, n);
    }
  }

  /** Access tokens that came with refresh token `h`. */
  function ChildrenOf(tokens: Tokens, h: Hash): set<Hash> {
    set c | c in tokens && tokens[c].kind == Access && tokens[c].parent == Some(h)
  }

  function Unrevoked(tokens: Tokens, hs: set<Hash>): set<Hash> {
    set h | h in tokens && h in hs && tokens[h].revokedAt.None?
  }

  function OfClient(tokens: Tokens, client: ClientId): set<Hash> {
    set h | h in tokens && tokens[h].client == client
  }

  lemma RevokeTwice(tokens: Tokens, a: set<Hash>, b: set<Hash>, now: Time)
    ensures RevokeAll(RevokeAll(tokens, a, now), b, now) == RevokeAll(tokens, a + b, now)
    ensures Unrevoked(RevokeAll(tokens, a, now), b) == Unrevoked(tokens, b) - Unrevoked(tokens, a)
  {
  }

  /** Revoking part of a table leaves its links and parents as they are. */
  lemma LinkOfRevoked(tokens: Tokens, hit: set<Hash>, at: Hash, now: Time)
    ensures Link(RevokeAll(tokens, hit, now), at) == Link(tokens, at)
    ensures RevokeAll(tokens, hit, now).Keys == tokens.Keys
    ensures ChildrenOf(RevokeAll(tokens, hit, now), at) == ChildrenOf(tokens, at)
  {
  }

  /** Revoking further tokens after `hit`: the new table, and how many rows that changes. */
  lemma RevokeMore(tokens: Tokens, hit: set<Hash>, more: set<Hash>, now: Time)
    requires Unrevoked(tokens, hit) == hit
    ensures RevokeAll(RevokeAll(tokens, hit, now), more, now) == RevokeAll(tokens, hit + Unrevoked(tokens, more), now)
    ensures |hit + Unrevoked(tokens, more)| == |hit| + |Unrevoked(RevokeAll(tokens, hit, now), more)|
    ensures Unrevoked(tokens, hit + Unrevoked(tokens, more)) == hit + Unrevoked(tokens, more)
  {
    RevokeTwice(tokens, hit, more, now);
    var fresh' := Unrevoked(RevokeAll(tokens, hit, now), more);
    assert hit + Unrevoked(tokens, more) == hit + fresh' && hit !! fresh';
  }

  /** A row, then its unrevoked children, is the row and its children. */
  lemma RevokeOne(tokens: Tokens, at: Hash, now: Time)
    requires at in tokens
    ensures var one := if tokens[at].revokedAt.None? then tokens[at := tokens[at].(revokedAt := Some(now))] else tokens;
            var children := Unrevoked(one, ChildrenOf(one, at));
            && RevokeAll(one, children, now) == RevokeAll(tokens, {at} + ChildrenOf(tokens, at), now)
            && |Unrevoked(tokens, {at} + ChildrenOf(tokens, at))|
               == (if tokens[at].revokedAt.None? then 1 else 0) + |children|
  {
    var one := if tokens[at].revokedAt.None? then tokens[at := tokens[at].(revokedAt := Some(now))] else tokens;
    var kids := ChildrenOf(tokens, at);
    assert one == RevokeAll(tokens, {at}, now);
    LinkOfRevoked(tokens, {at}, at, now);
    RevokeTwice(tokens, {at}, kids, now);
    UnrevokedOnly(one, kids, now);
    UnrevokedSplit(tokens, at, kids);
  }

  lemma UnrevokedSplit(tokens: Tokens, at: Hash, kids: set<Hash>)
    requires at in tokens
    ensures |Unrevoked(tokens, {at} + kids)|
         == (if tokens[at].revokedAt.None? then 1 else 0) + |Unrevoked(tokens, kids) - Unrevoked(tokens, {at})|
  {
    var self := Unrevoked(tokens, {at});
    assert self == if tokens[at].revokedAt.None? then {at} else {};
    assert Unrevoked(tokens, {at} + kids) == self + (Unrevoked(tokens, kids) - self);
  }

  lemma UnrevokedOnly(tokens: Tokens, hs: set<Hash>, now: Time)
    ensures RevokeAll(tokens, Unrevoked(tokens, hs), now) == RevokeAll(tokens, hs, now)
  {
  }

  lemma RevokeNone(tokens: Tokens, now: Time)
    ensures RevokeAll(tokens, {}, now) == tokens && Unrevoked(tokens, {}) == {}
  {
  }

  /** What the walk has revoked once it has passed the rows `seen`. */
  ghost predicate Visited(tokens: Tokens, seen: set<Hash>, h: Hash) {
    && h in tokens && tokens[h].revokedAt.None?
    && (h in seen || (tokens[h].kind == Access && tokens[h].parent.Some? && tokens[h].parent.value in seen))
  }

  lemma VisitNone(tokens: Tokens)
    ensures forall h :: !Visited(tokens, {}, h)
  {
  }

  lemma VisitMore(tokens: Tokens, seen: set<Hash>, hit: set<Hash>, at: Hash)
    requires forall h :: h in hit <==> Visited(tokens, seen, h)
    ensures forall h :: h in hit + Unrevoked(tokens, {at} + ChildrenOf(tokens, at)) <==> Visited(tokens, seen + {at}, h)
  {
  }

  /** When the walk stops it has passed every reachable row, and it met a missing one only if it says so. */
  lemma WalkDone(tokens: Tokens, from: Hash, seen: set<Hash>, hash: Option<Hash>, truncated: bool)
    requires seen <= tokens.Keys && forall h :: h in seen ==> Reaches(tokens, from, h)
    requires hash.Some? ==> Reaches(tokens, from, hash.value)
    requires if seen == {} then hash == Some(from) else from in seen
    requires forall h :: h in seen && Link(tokens, h).Some? ==> Link(tokens, h).value in seen || Link(tokens, h) == hash
    requires if truncated then hash.Some? && hash.value !in tokens else hash.None? || hash.value in seen
    ensures forall h :: Visited(tokens, seen, h) <==> OnChain(tokens, from, h)
    ensures truncated <==> Cut(tokens, from)
  {
    ClosedContainsReach(tokens, from, if truncated then seen + {hash.value} else seen);
  }

  lemma HitIsChain(tokens: Tokens, from: Hash, hit: set<Hash>)
    requires forall h :: h in hit <==> OnChain(tokens, from, h)
    ensures hit == ChainSet(tokens, from)
  {
  }

  class OAuthStore {
    var codes: Codes
    var tokens: Tokens

    constructor ()
      ensures codes == map[] && tokens == map[]
    {
      codes, tokens := map[], map[];
    }

    method IssueAuthorizationCode(h: Hash, code: Code)
      requires h !in codes && code.consumedAt.None?
      modifies this`codes
      ensures codes == old(codes)[h := code]
    {
      codes := codes[h := code];
    }

    /** At most one caller ever gets the code's content, and none after it expired. */
    method ConsumeAuthorizationCode(h: Hash, now: Time) returns (r: Option<Code>)
      modifies this`codes
      ensures Redeemable(old(codes), h, now) ==>
                r == Some(old(codes)[h]) && codes == old(codes)[h := old(codes)[h].(consumedAt := Some(now))]
      ensures !Redeemable(old(codes), h, now) ==> r.None? && codes == old(codes)
      ensures r.Some? ==> forall later: Time :: !Redeemable(codes, h, later)
    {
      if h !in codes {
        return None;
      }
      var row := codes[h];
      if row.consumedAt.Some? {
        return None;
      }
      if row.expiresAt <= now {
        return None;
      }
      codes := codes[h := row.(consumedAt := Some(now))];
      return Some(row);
    }

    method IssueToken(h: Hash, kind: Kind, parent: Option<Hash>, client: ClientId, audience: string, scope: string,
                      ttl: int, now: Time)
      requires h !in tokens
      modifies this`tokens
      ensures tokens == old(tokens)[h := NewToken(kind, parent, client, audience, scope, now + ttl)]
    {
      tokens := tokens[h := NewToken(kind, parent, client, audience, scope, now + ttl)];
    }

    method LookupToken(h: Hash, kind: Kind, now: Time) returns (r: Option<Token>)
      ensures r == if Usable(tokens, h, kind, now) then Some(tokens[h]) else None
    {
      if h !in tokens {
        return None;
      }
      var row := tokens[h];
      if row.kind != kind || row.revokedAt.Some? || row.expiresAt <= now {
        return None;
      }
      return Some(row);
    }

    /** A usable token is replaced by exactly one successor; any other is refused and nothing changes. */
    method RotateRefreshToken(h: Hash, next: Hash, ttl: int, now: Time) returns (r: Option<Token>)
      requires next !in tokens
      modifies this`tokens
      ensures Usable(old(tokens), h, Refresh, now) ==>
                r == Some(old(tokens)[h]) && tokens == Rotate(old(tokens), h, next, now + ttl, now)
      ensures !Usable(old(tokens), h, Refresh, now) ==> r.None? && tokens == old(tokens)
    {
      r := LookupToken(h, Refresh, now);
      if r.None? {
        return;
      }
      var record := r.value;
      IssueToken(next, Refresh, None, record.client, record.audience, record.scope, ttl, now);
      tokens := tokens[h := tokens[h].(revokedAt := Some(now), rotatedTo := Some(next))];
    }

    /** A refused refresh: only a theft changes anything. */
    method ClassifyRefreshReplay(h: Hash, grace: int, now: Time)
      returns (verdict: Verdict, revoked: nat, truncated: bool)
      modifies this`tokens
      ensures verdict == Classify(old(tokens), h, grace, now)
      ensures verdict.Unrelated? <==>
                h !in old(tokens) || old(tokens)[h].kind == Access
                || old(tokens)[h].revokedAt.None? || old(tokens)[h].rotatedTo.None?
      ensures verdict.Retry? ==> grace > 0 && now - old(tokens)[h].revokedAt.value <= grace
      ensures verdict.Theft? ==> grace <= 0 || now - old(tokens)[h].revokedAt.value > grace
      ensures verdict == Theft ==>
                && tokens == RevokeAll(old(tokens), ChainSet(old(tokens), h), now)
                && revoked == |ChainSet(old(tokens), h)|
                && (truncated <==> Cut(old(tokens), h))
      ensures verdict != Theft ==> tokens == old(tokens) && revoked == 0 && !truncated
    {
      revoked, truncated := 0, false;
      if h !in tokens || tokens[h].kind != Refresh {
        return Unrelated, 0, false;
      }
      if tokens[h].revokedAt.None? || tokens[h].rotatedTo.None? {
        return Unrelated, 0, false;
      }
      if grace > 0 && now - tokens[h].revokedAt.value <= grace {
        return Retry, 0, false;
      }
      verdict := Theft;
      revoked, truncated := RevokeRotationChain(h, now);
    }

    /** One link of the walk: its row and the access tokens that came with it. */
    method RevokeLink(at: Hash, now: Time) returns (revoked: nat)
      requires at in tokens
      modifies this`tokens
      ensures tokens == RevokeAll(old(tokens), {at} + ChildrenOf(old(tokens), at), now)
      ensures revoked == |Unrevoked(old(tokens), {at} + ChildrenOf(old(tokens), at))|
    {
      ghost var before := tokens;
      revoked := 0;
      if tokens[at].revokedAt.None? {
        tokens := tokens[at := tokens[at].(revokedAt := Some(now))];
        revoked := 1;
      }
      RevokeOne(before, at, now);
      var children := Unrevoked(tokens, ChildrenOf(tokens, at));
      tokens := RevokeAll(tokens, children, now);
      revoked := revoked + |children|;
    }

    /**
     * The theft walk. On any table, with cycles or without, it ends; it revokes exactly the unrevoked
     * rows reachable by `rotatedTo` and the unrevoked access tokens of the rows it passes; it counts
     * the rows it changed; and it reports a cut exactly when a link on the way points at a missing row.
     */
    method RevokeRotationChain(from: Hash, now: Time) returns (revoked: nat, truncated: bool)
      modifies this`tokens
      ensures tokens == RevokeAll(old(tokens), ChainSet(old(tokens), from), now)
      ensures revoked == |ChainSet(old(tokens), from)|
      ensures truncated <==> Cut(old(tokens), from)
    {
      hide RevokeAll, Unrevoked, ChildrenOf, Visited, Reaches, OnChain, Cut;
      ghost var before := tokens;
      RevokeNone(before, now);
      VisitNone(before);
      ghost var hit: set<Hash> := {};
      var hash := Some(from);
      var seen: set<Hash> := {};
      revoked, truncated := 0, false;
      ReachesItself(before, from);
      while hash.Some? && hash.value !in seen
        invariant seen <= before.Keys
        invariant hash.Some? ==> Reaches(before, from, hash.value)
        invariant forall h :: h in seen ==> Reaches(before, from, h)
        invariant seen == {} ==> hash == Some(from)
        invariant seen != {} ==> from in seen
        invariant forall h :: h in seen && Link(before, h).Some? ==>
                    Link(before, h).value in seen || Link(before, h) == hash
        invariant forall h :: h in hit <==> Visited(before, seen, h)
        invariant tokens == RevokeAll(before, hit, now) && tokens.Keys == before.Keys
        invariant Unrevoked(before, hit) == hit
        invariant revoked == |hit| && !truncated
        decreases before.Keys - seen
      {
        var at := hash.value;
        if at !in tokens {
          truncated := true;
          break;
        }
        ghost var link := {at} + ChildrenOf(before, at);
        LinkOfRevoked(before, hit, at, now);
        RevokeMore(before, hit, link, now);
        VisitMore(before, seen, hit, at);
        var n := RevokeLink(at, now);
        revoked := revoked + n;
        seen := seen + {at};
        hit := hit + Unrevoked(before, link);
        LinkOfRevoked(before, hit, at, now);
        hash := tokens[at].rotatedTo;
        if hash.Some? {
          ReachesNext(before, from, at);
        }
      }
      WalkDone(before, from, seen, hash, truncated);
      HitIsChain(before, from, hit);
    }

    /** Revoke one token, of either kind; an unknown or revoked one is left alone. */
    method RevokeToken(h: Hash, now: Time)
      modifies this`tokens
      ensures tokens == RevokeAll(old(tokens), {h}, now)
    {
      if h in tokens && tokens[h].revokedAt.None? {
        tokens := tokens[h := tokens[h].(revokedAt := Some(now))];
      }
    }

    /** Revoke everything issued to a client and say how many rows that changed. */
    method RevokeClientTokens(client: ClientId, now: Time) returns (revoked: nat)
      modifies this`tokens
      ensures tokens == RevokeAll(old(tokens), OfClient(old(tokens), client), now)
      ensures revoked == |Unrevoked(old(tokens), OfClient(old(tokens), client))|
    {
      revoked := |Unrevoked(tokens, OfClient(tokens, client))|;
      tokens := RevokeAll(tokens, OfClient(tokens, client), now);
    }

    method PruneExpired(now: Time)
      modifies this
      ensures codes == UnexpiredCodes(old(codes), now) && tokens == Unexpired(old(tokens), now)
    {
      codes := UnexpiredCodes(codes, now);
      tokens := Unexpired(tokens, now);
    }
  }
}
