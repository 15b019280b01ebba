/**
 * What each endpoint does to the stored rows, said in terms of the rows themselves: when a code or a
 * pair of tokens appears, what they carry, and what a refused refresh leaves behind.
 */
module OAuthOutcomes {
  import opened Options
  import opened OAuthRows
  import opened OAuthProtocol
  import opened OAuthSafety
  import opened OAuthTheorems

  // ---------------------------------------------------------------- requests and consents

  /** What RFC 6749, RFC 7636 and the registration ask of an authorization request. */
  lemma AuthorizeExactly(cfg: Config, st: State, id: RequestId, q: AuthRequest)
    requires id !in st.log.consents && id !in st.core.pending
    ensures var after := Next(cfg, st, Authorize(id, q));
            && (id in after.core.pending <==>
                  && q.client in cfg.clients && q.redirect in cfg.clients[q.client]
                  && q.responseType == "code" && q.challengeMethod == "S256" && q.challenge != ""
                  && (q.resource.Some? ==> cfg.canonical(q.resource.value) == Some(cfg.resource))
                  && (forall w :: w in q.scope ==> w in cfg.grantable)
                  && ("board" in cfg.grantable || ("mcp" in cfg.grantable && (q.scope == [] || "mcp" in q.scope))))
            && (id in after.core.pending ==>
                  && after.core.pending[id].request == q
                  && after.core.pending[id].expiresAt == st.now + 600_000)
            && (forall other :: other != id ==>
                  (other in after.core.pending
                   <==> other in st.core.pending && st.core.pending[other].expiresAt > st.now))
            && after.core.codes == st.core.codes && after.core.tokens == st.core.tokens
  {
    var options := ScopeOptions(cfg.grantable, q.scope);
    OptionsExactly(cfg.grantable, q.scope, "mcp");
    OptionsExactly(cfg.grantable, q.scope, "board");
    OnlyTwoScopes(cfg.grantable, q.scope);
    hide ScopeOptions;
    if options != [] {
      assert options[0] in options;
    }
  }

  lemma OnlyTwoScopes(grantable: set<string>, words: seq<string>)
    ensures forall s :: s in ScopeOptions(grantable, words) ==> s == "mcp" || s == "board"
    ensures ScopeOptions(grantable, words) != [] ==>
              var options := ScopeOptions(grantable, words);
              options[0] == if "mcp" in options then "mcp" else "board"
  {
    assert SCOPE_FULL[0] != SCOPE_BOARD[0];
  }

  /**
   * A consent form yields a code exactly when the consent is open, the form is not throttled, approves,
   * carries the password and names no scope or an offered one.
   */
  lemma ApproveExactly(cfg: Config, now: Time, ttl: nat, steps: seq<Step>, id: RequestId, code: Hash, form: Form)
    requires CanonicalConfig(cfg) && code !in Reached(cfg, now, ttl, steps).log.minted
    ensures var st := Reached(cfg, now, ttl, steps);
            var after := Next(cfg, st, Approve(id, code, form));
            && (code in after.core.codes <==>
                  && id in st.core.pending && st.core.pending[id].expiresAt > st.now
                  && !form.throttled && form.approve && form.passwordOk
                  && (form.scope.Some? ==> form.scope.value in st.core.pending[id].options))
            && (code !in after.core.codes ==> after.core.codes == st.core.codes)
            && after.core.tokens == st.core.tokens
  {
    ReachedInv(cfg, now, ttl, steps);
    var st := Reached(cfg, now, ttl, steps);
    CodesAreMinted(cfg, st);
    CoreOfNext(cfg, st, Approve(id, code, form));
    hide Reached, Inv, Next, NextCore;
    ApprovedCore(cfg, st, id, code, form);
  }

  /**
   * The code carries what the request said, the named scope or else the widest offered, and its
   * lifetime; and the consent is used up.
   */
  lemma ApprovedCode(cfg: Config, now: Time, ttl: nat, steps: seq<Step>, id: RequestId, code: Hash, form: Form)
    requires CanonicalConfig(cfg) && code !in Reached(cfg, now, ttl, steps).log.minted
    requires code in Next(cfg, Reached(cfg, now, ttl, steps), Approve(id, code, form)).core.codes
    ensures var st := Reached(cfg, now, ttl, steps);
            var after := Next(cfg, st, Approve(id, code, form));
            && id in st.core.pending && id !in after.core.pending
            && var consent, q := st.core.pending[id], st.core.pending[id].request;
               && consent.options == ScopeOptions(cfg.grantable, q.scope)
               && after.core.codes
                  == st.core.codes[code :=
                       Code(q.client, q.redirect, q.challenge, "S256", q.resource,
                            if form.scope.Some? then form.scope.value
                            else if "mcp" in consent.options then "mcp" else "board",
                            st.now + cfg.codeTtl, None)]
  {
    ReachedInv(cfg, now, ttl, steps);
    var st := Reached(cfg, now, ttl, steps);
    CodesAreMinted(cfg, st);
    CoreOfNext(cfg, st, Approve(id, code, form));
    if id in st.core.pending {
      ConsentFacts(cfg, st, id);
    }
    hide Reached, Inv, ScopeOptions, Next, NextCore;
    ApprovedCore(cfg, st, id, code, form);
  }

  /**
   * A consent outlives its form exactly when the form is throttled, or approves an offered scope with a
   * wrong password; a denial or a scope that was not offered ends it. Every form drops the expired ones.
   */
  lemma ConsentsExactly(cfg: Config, st: State, id: RequestId, code: Hash, form: Form, other: RequestId)
    requires code !in st.log.minted
    ensures var before, after := st.core.pending, Next(cfg, st, Approve(id, code, form)).core.pending;
            && (other in after <==>
                  && other in before && before[other].expiresAt > st.now
                  && (other == id ==>
                        || form.throttled
                        || (form.approve && !form.passwordOk
                            && (form.scope.Some? ==> form.scope.value in before[id].options))))
            && (other in after ==> after[other] == before[other])
  {
    CoreOfNext(cfg, st, Approve(id, code, form));
    hide Next;
  }

  lemma CoreOfNext(cfg: Config, st: State, step: Step)
    ensures Next(cfg, st, step).core == NextCore(cfg, st, step)
  {
    hide NextCore, NextLog;
  }

  lemma ApprovedCore(cfg: Config, st: State, id: RequestId, code: Hash, form: Form)
    requires code !in st.log.minted && code !in st.core.codes
    ensures var after := NextCore(cfg, st, Approve(id, code, form));
            && (code in after.codes <==>
                  && id in st.core.pending && st.core.pending[id].expiresAt > st.now
                  && !form.throttled && form.approve && form.passwordOk
                  && (form.scope.Some? ==> form.scope.value in st.core.pending[id].options))
            && (code in after.codes ==>
                  var consent, q := st.core.pending[id], st.core.pending[id].request;
                  && after.codes
                     == st.core.codes[code :=
                          Code(q.client, q.redirect, q.challenge, q.challengeMethod, q.resource,
                               if form.scope.Some? then form.scope.value else consent.preselected,
                               st.now + cfg.codeTtl, None)]
                  && id !in after.pending)
            && (code !in after.codes ==> after.codes == st.core.codes)
            && after.tokens == st.core.tokens
  {
  }

  lemma CodesAreMinted(cfg: Config, st: State)
    requires Inv(cfg, st)
    ensures forall c :: c in st.core.codes ==> c in st.log.minted
  {
    hide FamiliesOk, LinksOk;
  }

  lemma ConsentFacts(cfg: Config, st: State, id: RequestId)
    requires Inv(cfg, st) && id in st.core.pending
    ensures var consent := st.core.pending[id];
            && consent.options == ScopeOptions(cfg.grantable, consent.request.scope)
            && consent.preselected == (if "mcp" in consent.options then "mcp" else "board")
            && consent.request.challengeMethod == "S256"
  {
    hide FamiliesOk, LinksOk, CodesOk;
    OnlyTwoScopes(cfg.grantable, st.core.pending[id].request.scope);
  }

  /** In every reachable state a code is bound to a registered redirect address and an S256 challenge. */
  lemma CodesAreBound(cfg: Config, now: Time, ttl: nat, steps: seq<Step>, c: Hash)
    requires CanonicalConfig(cfg) && c in Reached(cfg, now, ttl, steps).core.codes
    ensures var code := Reached(cfg, now, ttl, steps).core.codes[c];
            && code.client in cfg.clients && code.redirect in cfg.clients[code.client]
            && code.challengeMethod == "S256" && code.challenge != "" && code.scope in cfg.grantable
            && (code.resource.Some? ==> cfg.canonical(code.resource.value) == Some(cfg.resource))
  {
    ReachedInv(cfg, now, ttl, steps);
    var st := Reached(cfg, now, ttl, steps);
    CodeFacts(cfg, st, c);
    hide Inv, Reached;
    OptionsExactly(cfg.grantable, st.log.consents[st.log.grants[c]].request.scope, st.core.codes[c].scope);
  }

  lemma CodeFacts(cfg: Config, st: State, c: Hash)
    requires Inv(cfg, st) && c in st.core.codes
    ensures c in st.log.grants && st.log.grants[c] in st.log.consents
    ensures var code, q := st.core.codes[c], st.log.consents[st.log.grants[c]].request;
            && RequestOk(cfg, q) && code.scope in ScopeOptions(cfg.grantable, q.scope)
            && code.client == q.client && code.redirect == q.redirect && code.challenge == q.challenge
            && code.challengeMethod == q.challengeMethod && code.resource == q.resource
  {
    hide FamiliesOk, LinksOk;
  }

  // ---------------------------------------------------------------- redeeming a code

  /** A code row that may still be exchanged. */
  predicate Unspent(codes: Codes, c: Hash, now: Time) {
    c in codes && codes[c].consumedAt == None && now < codes[c].expiresAt
  }

  /**
   * An exchange issues tokens exactly for an unspent, unexpired code presented with the client, the
   * redirect address and a verifier of legal length whose digest is the challenge of the request that
   * led to it.
   */
  lemma RedeemExactly(cfg: Config, now: Time, ttl: nat, steps: seq<Step>, c: Hash, client: ClientId, redirect: string,
                      verifier: string, r: Hash, a: Hash)
    requires CanonicalConfig(cfg) && r != a
    requires var log := Reached(cfg, now, ttl, steps).log; r !in log.minted && a !in log.minted
    ensures var st := Reached(cfg, now, ttl, steps);
            r in Next(cfg, st, Redeem(c, client, redirect, verifier, r, a)).core.tokens
            <==> && Unspent(st.core.codes, c, st.now)
                 && c in st.log.grants && st.log.grants[c] in st.log.consents
                 && var q := st.log.consents[st.log.grants[c]].request;
                    && q.client == client && q.redirect == redirect
                    && q.challengeMethod == "S256" && 43 <= |verifier| <= 128 && cfg.digest(verifier) == q.challenge
  {
    RedeemReady(cfg, now, ttl, steps, c, client, redirect, verifier, r, a);
    var st := Reached(cfg, now, ttl, steps);
    if Unspent(st.core.codes, c, st.now) {
      ReachedInv(cfg, now, ttl, steps);
      CodeFacts(cfg, st, c);
    }
    hide Reached, Inv, Next, NextCore, Audience, RequestOk, ScopeOptions;
    RedeemedCore(cfg, st, c, client, redirect, verifier, r, a);
  }

  /**
   * What an exchange leaves: every attempt on an unspent code spends it; the pair carries the client,
   * this server as audience, the code's scope and the two lifetimes, and the access token points at
   * the refresh token.
   */
  lemma RedeemLeaves(cfg: Config, now: Time, ttl: nat, steps: seq<Step>, c: Hash, client: ClientId, redirect: string,
                     verifier: string, r: Hash, a: Hash)
    requires CanonicalConfig(cfg) && r != a
    requires var log := Reached(cfg, now, ttl, steps).log; r !in log.minted && a !in log.minted
    ensures var st := Reached(cfg, now, ttl, steps);
            var after := Next(cfg, st, Redeem(c, client, redirect, verifier, r, a));
            && (r !in after.core.tokens ==> after.core.tokens == st.core.tokens)
            && (r in after.core.tokens ==>
                  && c in st.core.codes
                  && var scope := st.core.codes[c].scope;
                     after.core.tokens == st.core.tokens
                       [r := Token(Refresh, client, cfg.resource, scope, st.now + st.ttl, None, None, None)]
                       [a := Token(Access, client, cfg.resource, scope, st.now + cfg.accessTtl, None, None, Some(r))])
            && after.core.codes
               == (if Unspent(st.core.codes, c, st.now)
                   then st.core.codes[c := st.core.codes[c].(consumedAt := Some(st.now))] else st.core.codes)
  {
    RedeemReady(cfg, now, ttl, steps, c, client, redirect, verifier, r, a);
    hide Reached, Next, NextCore, Audience;
    RedeemedCore(cfg, Reached(cfg, now, ttl, steps), c, client, redirect, verifier, r, a);
  }

  /** What the two statements above need of a reachable state. */
  lemma RedeemReady(cfg: Config, now: Time, ttl: nat, steps: seq<Step>, c: Hash, client: ClientId, redirect: string,
                    verifier: string, r: Hash, a: Hash)
    requires CanonicalConfig(cfg) && r !in Reached(cfg, now, ttl, steps).log.minted
    ensures var st := Reached(cfg, now, ttl, steps);
            && r !in st.core.tokens
            && (Redeemable(st.core.codes, c, st.now) ==> Audience(cfg, st.core.codes[c]) == Some(cfg.resource))
            && Next(cfg, st, Redeem(c, client, redirect, verifier, r, a)).core
               == NextCore(cfg, st, Redeem(c, client, redirect, verifier, r, a))
  {
    ReachedInv(cfg, now, ttl, steps);
    var st := Reached(cfg, now, ttl, steps);
    TokensMinted(cfg, st);
    CoreOfNext(cfg, st, Redeem(c, client, redirect, verifier, r, a));
    if Redeemable(st.core.codes, c, st.now) {
      RedeemFacts(cfg, st, c);
    }
    hide Reached, Inv, Next, NextCore, Audience;
  }

  lemma RedeemedCore(cfg: Config, st: State, c: Hash, client: ClientId, redirect: string, verifier: string,
                     r: Hash, a: Hash)
    requires r != a && r !in st.log.minted && a !in st.log.minted && r !in st.core.tokens
    requires Redeemable(st.core.codes, c, st.now) ==> Audience(cfg, st.core.codes[c]) == Some(cfg.resource)
    ensures var after := NextCore(cfg, st, Redeem(c, client, redirect, verifier, r, a));
            && (r in after.tokens <==>
                  && Unspent(st.core.codes, c, st.now)
                  && var code := st.core.codes[c];
                     && code.client == client && code.redirect == redirect
                     && code.challengeMethod == "S256" && 43 <= |verifier| <= 128
                     && cfg.digest(verifier) == code.challenge)
            && (r !in after.tokens ==> after.tokens == st.core.tokens)
            && (r in after.tokens ==>
                  var scope := st.core.codes[c].scope;
                  after.tokens == st.core.tokens
                    [r := Token(Refresh, client, cfg.resource, scope, st.now + st.ttl, None, None, None)]
                    [a := Token(Access, client, cfg.resource, scope, st.now + cfg.accessTtl, None, None, Some(r))])
            && after.codes
               == (if Unspent(st.core.codes, c, st.now)
                   then st.core.codes[c := st.core.codes[c].(consumedAt := Some(st.now))] else st.core.codes)
  {
    hide Audience;
  }

  // ---------------------------------------------------------------- refreshing

  /**
   * Refreshing with a stored, unrevoked, unexpired refresh token: it is revoked and points at its
   * successor, which carries the same grant for a new lifetime, with an access token of its own.
   */
  lemma RenewIssues(cfg: Config, st: State, h: Hash, r: Hash, a: Hash)
    requires r != a && r !in st.log.minted && a !in st.log.minted
    requires h in st.core.tokens && st.core.tokens[h].kind == Refresh
    requires st.core.tokens[h].revokedAt == None && st.now < st.core.tokens[h].expiresAt
    requires h != r && h != a
    ensures var row := st.core.tokens[h];
            Next(cfg, st, Renew(h, r, a)).core
            == st.core.(tokens :=
                 st.core.tokens
                   [h := row.(revokedAt := Some(st.now), rotatedTo := Some(r))]
                   [r := Token(Refresh, row.client, row.audience, row.scope, st.now + st.ttl, None, None, None)]
                   [a := Token(Access, row.client, row.audience, row.scope, st.now + cfg.accessTtl, None, None,
                       Some(r))])
  {
    hide NextLog, Classify;
  }

  /** A refresh token that can no longer be used: replaced, revoked or expired. */
  predicate Unusable(tokens: Tokens, h: Hash, now: Time) {
    h !in tokens || tokens[h].kind == Access || tokens[h].revokedAt.Some? || tokens[h].expiresAt <= now
  }

  /** The token was replaced by a rotation at time `t`. */
  predicate ReplacedAt(tokens: Tokens, h: Hash, t: Time) {
    h in tokens && tokens[h].kind == Refresh && tokens[h].rotatedTo.Some? && tokens[h].revokedAt == Some(t)
  }

  /**
   * A refused refresh changes nothing unless the token was replaced by a rotation longer ago than the
   * grace; then exactly the rows the chain from it reaches, and the access tokens of these, are revoked.
   */
  lemma RefusedRefreshExactly(cfg: Config, st: State, h: Hash, r: Hash, a: Hash)
    requires r != a && r !in st.log.minted && a !in st.log.minted && Unusable(st.core.tokens, h, st.now)
    ensures var before := st.core.tokens;
            var after := Next(cfg, st, Renew(h, r, a)).core.tokens;
            if exists t :: ReplacedAt(before, h, t) && (cfg.grace <= 0 || st.now - t > cfg.grace) then
              && after.Keys == before.Keys
              && forall g :: g in before ==>
                   after[g] == if before[g].revokedAt == None && (Reaches(before, h, g) || CameWithLink(before, h, g))
                               then before[g].(revokedAt := Some(st.now)) else before[g]
            else after == before
    ensures Next(cfg, st, Renew(h, r, a)).core.codes == st.core.codes
  {
    hide Reaches, NextLog;
    if h in st.core.tokens && st.core.tokens[h].revokedAt.Some? && st.core.tokens[h].rotatedTo.Some?
       && st.core.tokens[h].kind == Refresh {
      assert ReplacedAt(st.core.tokens, h, st.core.tokens[h].revokedAt.value);
    }
  }

  /**
   * A replay after the grace ends the family: from a token replaced longer ago than that, whose chain is
   * not cut, no refresh token of its family is live afterwards and no other family is touched.
   */
  lemma LateReplayEndsTheFamily(cfg: Config, now: Time, ttl: nat, steps: seq<Step>, h: Hash, r: Hash, a: Hash, t: Time)
    requires CanonicalConfig(cfg) && r != a
    requires var st := Reached(cfg, now, ttl, steps);
             && r !in st.log.minted && a !in st.log.minted
             && ReplacedAt(st.core.tokens, h, t) && (cfg.grace <= 0 || st.now - t > cfg.grace)
             && !Cut(st.core.tokens, h)
    ensures var st := Reached(cfg, now, ttl, steps);
            var after := Next(cfg, st, Renew(h, r, a)).core.tokens;
            && h in st.log.families && after.Keys == st.core.tokens.Keys
            && forall g :: g in after ==>
                 && g in st.log.families
                 && (st.log.families[g] == st.log.families[h] && after[g].kind == Refresh ==> after[g].revokedAt.Some?)
                 && (st.log.families[g] != st.log.families[h] ==> after[g] == st.core.tokens[g])
  {
    var st := Reached(cfg, now, ttl, steps);
    var after := Next(cfg, st, Renew(h, r, a)).core.tokens;
    LateIsTheft(st.core.tokens, h, cfg.grace, st.now, t);
    TheftStep(cfg, st, h, r, a);
    hide Reached, Next, Cut, Classify;
    assert h in st.core.tokens;
    TheftEndsTheFamily(cfg, now, ttl, steps, h, r, a, h);
    forall g | g in after
      ensures && g in st.log.families
              && (st.log.families[g] == st.log.families[h] && after[g].kind == Refresh ==> after[g].revokedAt.Some?)
              && (st.log.families[g] != st.log.families[h] ==> after[g] == st.core.tokens[g])
    {
      TheftEndsTheFamily(cfg, now, ttl, steps, h, r, a, g);
    }
  }

  lemma LateIsTheft(tokens: Tokens, h: Hash, grace: int, now: Time, t: Time)
    requires ReplacedAt(tokens, h, t) && (grace <= 0 || now - t > grace)
    ensures Classify(tokens, h, grace, now) == Theft
  {
  }

  /** A replay within the grace changes nothing: a client that asks twice loses nothing by it. */
  lemma EarlyReplayChangesNothing(cfg: Config, st: State, h: Hash, r: Hash, a: Hash, t: Time)
    requires r != a && r !in st.log.minted && a !in st.log.minted
    requires ReplacedAt(st.core.tokens, h, t) && cfg.grace > 0 && st.now - t <= cfg.grace
    ensures Next(cfg, st, Renew(h, r, a)).core == st.core
  {
    hide NextLog;
  }

  /** Nor does a token that no rotation replaced: one revoked otherwise, or merely expired. */
  lemma UnreplacedRefusalChangesNothing(cfg: Config, st: State, h: Hash, r: Hash, a: Hash)
    requires r != a && r !in st.log.minted && a !in st.log.minted
    requires h in st.core.tokens && st.core.tokens[h].kind == Refresh
    requires (st.core.tokens[h].revokedAt.Some? && st.core.tokens[h].rotatedTo.None?)
             || (st.core.tokens[h].revokedAt.None? && st.core.tokens[h].expiresAt <= st.now)
    ensures Next(cfg, st, Renew(h, r, a)).core == st.core
  {
    hide NextLog;
  }

  // ---------------------------------------------------------------- revoking and pruning

  /** Revoking one token, or all of a client's, marks exactly those that were not marked yet. */
  lemma RevokeExactly(cfg: Config, st: State, h: Hash, client: ClientId, g: Hash)
    requires g in st.core.tokens
    ensures var row := st.core.tokens[g];
            var one, all := Next(cfg, st, Revoke(h)).core, Next(cfg, st, RevokeClient(client)).core;
            && g in one.tokens && g in all.tokens && one.tokens.Keys == all.tokens.Keys == st.core.tokens.Keys
            && one.tokens[g] == (if g == h && row.revokedAt == None then row.(revokedAt := Some(st.now)) else row)
            && all.tokens[g]
               == (if row.client == client && row.revokedAt == None then row.(revokedAt := Some(st.now)) else row)
            && one.codes == all.codes == st.core.codes
  {
  }

  /** Pruning removes exactly the rows whose time has come and leaves the others as they are. */
  lemma PruneExactly(cfg: Config, st: State, h: Hash)
    ensures var after := Next(cfg, st, Prune).core;
            && (h in after.tokens <==> h in st.core.tokens && st.now < st.core.tokens[h].expiresAt)
            && (h in after.tokens ==> after.tokens[h] == st.core.tokens[h])
            && (h in after.codes <==> h in st.core.codes && st.now < st.core.codes[h].expiresAt)
            && (h in after.codes ==> after.codes[h] == st.core.codes[h])
            && after.pending == st.core.pending
  {
  }
}
