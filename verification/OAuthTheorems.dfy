/** The promises of the authorization server, over every run from an empty store. */
module OAuthTheorems {
  import opened Options
  import opened OAuthRows
  import opened OAuthProtocol
  import opened OAuthSafety

  ghost function Reached(cfg: Config, now: Time, ttl: nat, steps: seq<Step>): State {
    Run(cfg, Initial(now, ttl), steps)
  }

  lemma ReachedInv(cfg: Config, now: Time, ttl: nat, steps: seq<Step>)
    requires CanonicalConfig(cfg)
    ensures Inv(cfg, Reached(cfg, now, ttl, steps))
  {
    InitialInv(cfg, now, ttl);
    RunInv(cfg, Initial(now, ttl), steps);
  }

  // ---------------------------------------------------------------- one live refresh token

  predicate LiveRefresh(tokens: Tokens, h: Hash) {
    h in tokens && tokens[h].kind == Refresh && tokens[h].revokedAt.None?
  }

  /** A family has at most one refresh token that is not revoked, and it is the family's newest. */
  lemma OneLiveRefreshPerFamily(cfg: Config, now: Time, ttl: nat, steps: seq<Step>, g: Hash, h: Hash)
    requires CanonicalConfig(cfg)
    requires var st := Reached(cfg, now, ttl, steps);
             LiveRefresh(st.core.tokens, g) && LiveRefresh(st.core.tokens, h)
    ensures var log := Reached(cfg, now, ttl, steps).log;
            && g in log.families && h in log.families && log.families[h] in log.heads
            && log.heads[log.families[h]] == h
            && (log.families[g] == log.families[h] ==> g == h)
  {
    ReachedInv(cfg, now, ttl, steps);
  }

  lemma {:induction false} BirthsGrow(tokens: Tokens, log: Log, h: Hash, n: nat)
    requires ForwardOk(tokens, log) && n > 0 && Hop(tokens, h, n).Some?
    ensures var x := Hop(tokens, h, n).value;
            && h in log.births && x in log.births && log.births[h] < log.births[x]
            && h in log.families && x in log.families && log.families[x] == log.families[h]
  {
    if n > 1 {
      BirthsGrow(tokens, log, h, n - 1);
    }
    var before := Hop(tokens, h, n - 1).value;
    assert LinkOk(tokens, log, before, tokens[before].rotatedTo.value);
  }

  /**
   * Rotation links form disjoint acyclic paths inside one family: no token has two predecessors, no
   * token reaches itself, and a rotated token is always revoked.
   */
  lemma ChainsAreDisjointPaths(cfg: Config, now: Time, ttl: nat, steps: seq<Step>, g: Hash, h: Hash, n: nat)
    requires CanonicalConfig(cfg)
    ensures var tokens := Reached(cfg, now, ttl, steps).core.tokens;
            && (n > 0 ==> Hop(tokens, h, n) != Some(h))
            && (Link(tokens, g).Some? && Link(tokens, g) == Link(tokens, h) ==> g == h)
            && (Link(tokens, h).Some? ==> tokens[h].kind == Refresh && tokens[h].revokedAt.Some?)
  {
    ReachedInv(cfg, now, ttl, steps);
    var st := Reached(cfg, now, ttl, steps);
    if n > 0 && Hop(st.core.tokens, h, n) == Some(h) {
      BirthsGrow(st.core.tokens, st.log, h, n);
    }
  }

  // ---------------------------------------------------------------- write-once columns

  /** A row that is still there is the same row, up to a first revocation and a first rotation. */
  ghost predicate TokensKeep(a: Tokens, b: Tokens, minted: set<Hash>) {
    forall h :: h in b && h in minted ==>
      && h in a
      && b[h] == a[h].(revokedAt := b[h].revokedAt, rotatedTo := b[h].rotatedTo)
      && (a[h].revokedAt.Some? ==> b[h] == a[h])
      && (a[h].rotatedTo.Some? ==> b[h].rotatedTo == a[h].rotatedTo)
  }

  /** The log only grows: what a token or code once was, it stays. */
  ghost predicate LogKeeps(a: Log, b: Log) {
    && a.minted <= b.minted && a.roots <= b.roots
    && (forall h :: h in a.families ==> h in b.families && b.families[h] == a.families[h] && h in a.minted)
    && (forall h :: h in a.families && h in a.scopes ==> h in b.scopes && b.scopes[h] == a.scopes[h])
    && (forall c :: c in a.grants ==> c in b.grants && b.grants[c] == a.grants[c])
    && (forall id :: id in a.consents ==> id in b.consents && b.consents[id] == a.consents[id])
  }

  ghost predicate CodesKeep(a: Codes, b: Codes, minted: set<Hash>) {
    forall c :: c in b && c in minted ==> c in a && (a[c].consumedAt.Some? ==> b[c].consumedAt.Some?)
  }

  ghost predicate Keeps(a: State, b: State) {
    && TokensKeep(a.core.tokens, b.core.tokens, a.log.minted)
    && CodesKeep(a.core.codes, b.core.codes, a.log.minted)
    && LogKeeps(a.log, b.log)
    && a.now <= b.now
  }

  lemma KeepsTrans(a: State, b: State, c: State)
    requires Keeps(a, b) && Keeps(b, c)
    ensures Keeps(a, c)
  {
  }

  /** What the next lemmas need to know about the old state. */
  lemma MintedFacts(cfg: Config, st: State)
    requires Inv(cfg, st)
    ensures forall h :: h in st.log.families ==> h in st.log.minted
    ensures forall h :: h in st.core.tokens ==> h in st.log.minted
    ensures forall h :: h in st.core.tokens && st.core.tokens[h].revokedAt.None? ==> st.core.tokens[h].rotatedTo.None?
    ensures forall c :: c in st.log.grants ==> c in st.log.minted
  {
  }

  lemma FewerKeeps(a: Tokens, b: Tokens, minted: set<Hash>)
    requires Fewer(a, b)
    ensures TokensKeep(a, b, minted)
  {
  }

  lemma AddedKeeps(a: Tokens, b: Tokens, h: Hash, token: Token, minted: set<Hash>)
    requires TokensKeep(a, b, minted) && h !in minted
    ensures TokensKeep(a, b[h := token], minted)
  {
  }

  lemma RotateKeeps(a: Tokens, h: Hash, r: Hash, ru: Time, now: Time, minted: set<Hash>)
    requires h in a && a[h].revokedAt.None? && a[h].rotatedTo.None? && r !in minted
    ensures TokensKeep(a, Rotate(a, h, r, ru, now), minted)
  {
  }

  lemma RedeemKeeps(cfg: Config, core: Core, ttl: nat, c: Hash, client: ClientId, redirect: string, verifier: string,
                    r: Hash, f: Hash, now: Time, minted: set<Hash>)
    requires r !in minted && f !in minted
    ensures TokensKeep(core.tokens, RedeemCore(cfg, core, ttl, c, client, redirect, verifier, r, f, now).tokens, minted)
  {
  }

  lemma RenewKeeps(cfg: Config, core: Core, ttl: nat, h: Hash, r: Hash, f: Hash, now: Time, minted: set<Hash>)
    requires r !in minted && f !in minted && r != f
    requires forall g :: g in core.tokens && core.tokens[g].revokedAt.None? ==> core.tokens[g].rotatedTo.None?
    ensures TokensKeep(core.tokens, RenewCore(cfg, core, ttl, h, r, f, now).tokens, minted)
  {
    var a := core.tokens;
    if Usable(a, h, Refresh, now) {
      RotateKeeps(a, h, r, now + ttl, now, minted);
      AddedKeeps(a, Rotate(a, h, r, now + ttl, now), f,
                 NewToken(Access, Some(r), a[h].client, a[h].audience, a[h].scope, now + cfg.accessTtl), minted);
    } else {
      SameTokens(a);
      FewerKeeps(a, a, minted);
      RevokeIsFewer(a, ChainSet(a, h), now);
      FewerKeeps(a, RevokeAll(a, ChainSet(a, h), now), minted);
    }
  }

  lemma TokensUntouched(cfg: Config, st: State, step: Step)
    ensures step.Authorize? || step.Approve? ==> NextCore(cfg, st, step).tokens == st.core.tokens
  {
    hide RequestOk, ConsentFor, LivePending, Chosen, CodeFor;
  }

  lemma TokensStep(cfg: Config, st: State, step: Step)
    requires Inv(cfg, st)
    ensures TokensKeep(st.core.tokens, NextCore(cfg, st, step).tokens, st.log.minted)
  {
    MintedFacts(cfg, st);
    hide Inv, TokensKeep, Fewer, RevokeAll, Unexpired, RedeemCore, RenewCore, AuthorizeCore, ApproveCore;
    TokensUntouched(cfg, st, step);
    var a, now := st.core.tokens, st.now;
    SameTokens(a);
    FewerKeeps(a, a, st.log.minted);
    match step
    case Redeem(c, client, redirect, verifier, r, f) =>
      if FreshPair(st.log, r, f) {
        RedeemKeeps(cfg, st.core, st.ttl, c, client, redirect, verifier, r, f, now, st.log.minted);
      }
    case Renew(h, r, f) =>
      if FreshPair(st.log, r, f) {
        RenewKeeps(cfg, st.core, st.ttl, h, r, f, now, st.log.minted);
      }
    case Revoke(h) =>
      RevokeIsFewer(a, {h}, now);
      FewerKeeps(a, RevokeAll(a, {h}, now), st.log.minted);
    case RevokeClient(client) =>
      RevokeIsFewer(a, OfClient(a, client), now);
      FewerKeeps(a, RevokeAll(a, OfClient(a, client), now), st.log.minted);
    case Prune =>
      UnexpiredIsFewer(a, now);
      FewerKeeps(a, Unexpired(a, now), st.log.minted);
    case _ =>
  }

  lemma SameTokens(a: Tokens)
    ensures Fewer(a, a)
  {
  }

  lemma CodesStep(cfg: Config, st: State, step: Step)
    ensures CodesKeep(st.core.codes, NextCore(cfg, st, step).codes, st.log.minted)
  {
  }

  lemma JoinKeeps(a: Log, b: Log, h: Hash, c: Hash, scope: string)
    requires LogKeeps(a, b) && h !in a.minted && forall g :: g in a.families ==> g in a.minted
    ensures LogKeeps(a, Joined(b, h, c, scope)) && LogKeeps(a, Headed(b, h, c, scope))
  {
  }

  lemma LogStep(cfg: Config, st: State, step: Step)
    requires Inv(cfg, st)
    ensures LogKeeps(st.log, NextLog(cfg, st, step))
  {
    MintedFacts(cfg, st);
    hide Inv, LogKeeps, NextLog;
    if step.Redeem? {
      RedeemLog(cfg, st, step);
    } else if step.Renew? {
      RenewLog(cfg, st, step);
    } else {
      ConsentLog(cfg, st, step);
    }
  }

  lemma ConsentLog(cfg: Config, st: State, step: Step)
    requires !step.Redeem? && !step.Renew? && forall g :: g in st.log.families ==> g in st.log.minted
    requires forall c :: c in st.log.grants ==> c in st.log.minted
    ensures LogKeeps(st.log, NextLog(cfg, st, step))
  {
    hide RequestOk, Granted, ConsentFor;
    SameLog(st.log);
  }

  lemma RedeemLog(cfg: Config, st: State, step: Step)
    requires step.Redeem? && forall g :: g in st.log.families ==> g in st.log.minted
    ensures LogKeeps(st.log, NextLog(cfg, st, step))
  {
    hide RedeemOk;
    SameLog(st.log);
    if FreshPair(st.log, step.refresh, step.access)
       && RedeemOk(cfg, st.core.codes, step.code, step.client, step.redirect, step.verifier, st.now) {
      RootKeeps(st.log, step.code, step.refresh, step.access, RedeemedScope(cfg, st, step));
    }
  }

  function RedeemedScope(cfg: Config, st: State, step: Step): string
    requires step.Redeem? && RedeemOk(cfg, st.core.codes, step.code, step.client, step.redirect, step.verifier, st.now)
  {
    st.core.codes[step.code].scope
  }

  lemma RootKeeps(log: Log, c: Hash, r: Hash, a: Hash, scope: string)
    requires FreshPair(log, r, a) && forall g :: g in log.families ==> g in log.minted
    ensures LogKeeps(log, LogRoot(log, c, r, a, scope))
  {
    SameLog(log);
    JoinKeeps(log, log, r, c, scope);
    JoinKeeps(log, Headed(log, r, c, scope).(roots := log.roots + {r}), a, c, scope);
  }

  lemma RenewLog(cfg: Config, st: State, step: Step)
    requires step.Renew? && forall g :: g in st.log.families ==> g in st.log.minted
    ensures LogKeeps(st.log, NextLog(cfg, st, step))
  {
    SameLog(st.log);
    if FreshPair(st.log, step.refresh, step.access) && Usable(st.core.tokens, step.token, Refresh, st.now) {
      HeirKeeps(st.log, step.token, step.refresh, step.access, st.core.tokens[step.token].scope);
    }
  }

  lemma HeirKeeps(log: Log, h: Hash, r: Hash, a: Hash, scope: string)
    requires FreshPair(log, r, a) && forall g :: g in log.families ==> g in log.minted
    ensures LogKeeps(log, LogHeir(log, h, r, a, scope))
  {
    SameLog(log);
    if h in log.families {
      JoinKeeps(log, log, r, log.families[h], scope);
      JoinKeeps(log, Headed(log, r, log.families[h], scope), a, log.families[h], scope);
    }
  }

  lemma SameLog(log: Log)
    requires forall g :: g in log.families ==> g in log.minted
    ensures LogKeeps(log, log)
  {
  }

  lemma StepKeeps(cfg: Config, st: State, step: Step)
    requires Inv(cfg, st)
    ensures Keeps(st, Next(cfg, st, step))
  {
    TokensStep(cfg, st, step);
    CodesStep(cfg, st, step);
    LogStep(cfg, st, step);
    hide Inv, TokensKeep, CodesKeep, LogKeeps, NextCore, NextLog;
  }

  lemma {:induction false} RunKeeps(cfg: Config, st: State, more: seq<Step>)
    requires Inv(cfg, st) && CanonicalConfig(cfg)
    ensures Keeps(st, Run(cfg, st, more))
  {
    if more == [] {
      MintedFacts(cfg, st);
      SameState(st);
    } else {
      var before := Run(cfg, st, more[..|more| - 1]);
      RunInv(cfg, st, more[..|more| - 1]);
      RunKeeps(cfg, st, more[..|more| - 1]);
      StepKeeps(cfg, before, more[|more| - 1]);
      KeepsTrans(st, before, Run(cfg, st, more));
    }
  }

  lemma SameState(st: State)
    requires forall h :: h in st.log.families ==> h in st.log.minted
    ensures Keeps(st, st)
  {
  }

  /**
   * Over any continuation a revocation time and a successor, once written, stay; the other columns
   * never change; a spent code stays spent; and a secret that was minted and is gone never returns.
   */
  lemma ColumnsAreWriteOnce(cfg: Config, now: Time, ttl: nat, steps: seq<Step>, more: seq<Step>, h: Hash)
    requires CanonicalConfig(cfg) && h in Reached(cfg, now, ttl, steps).log.minted
    ensures var a := Reached(cfg, now, ttl, steps).core;
            var b := Run(cfg, Reached(cfg, now, ttl, steps), more).core;
            && (h in b.tokens ==>
                  && h in a.tokens
                  && b.tokens[h] == a.tokens[h].(revokedAt := b.tokens[h].revokedAt, rotatedTo := b.tokens[h].rotatedTo)
                  && (a.tokens[h].revokedAt.Some? ==> b.tokens[h].revokedAt == a.tokens[h].revokedAt)
                  && (a.tokens[h].rotatedTo.Some? ==> b.tokens[h].rotatedTo == a.tokens[h].rotatedTo))
            && (h in b.codes ==> h in a.codes && (a.codes[h].consumedAt.Some? ==> b.codes[h].consumedAt.Some?))
  {
    ReachedInv(cfg, now, ttl, steps);
    RunKeeps(cfg, Reached(cfg, now, ttl, steps), more);
  }

  // ---------------------------------------------------------------- no cut chains

  /** The configured refresh lifetime is changed only upwards along the run; never changing it is a special case. */
  ghost predicate OnlyRaises(cfg: Config, st: State, steps: seq<Step>) {
    forall k :: 0 <= k < |steps| && steps[k].Reconfigure? ==> Run(cfg, st, steps[..k]).ttl <= steps[k].ttl
  }

  lemma StepUncut(cfg: Config, st: State, step: Step)
    requires Inv(cfg, st) && Uncut(st.core.tokens, st.now, st.ttl)
    requires step.Reconfigure? ==> st.ttl <= step.ttl
    ensures var after := Next(cfg, st, step); Uncut(after.core.tokens, after.now, after.ttl)
  {
    CoreUncut(cfg, st, step);
    hide Inv, NextCore, NextLog;
  }

  lemma CoreUncut(cfg: Config, st: State, step: Step)
    requires Inv(cfg, st) && Uncut(st.core.tokens, st.now, st.ttl)
    ensures Uncut(NextCore(cfg, st, step).tokens, st.now, st.ttl)
  {
    MintedFacts(cfg, st);
    hide Inv, Uncut, RevokeAll, Unexpired, RedeemCore, RenewCore, AuthorizeCore, ApproveCore;
    TokensUntouched(cfg, st, step);
    var a, now := st.core.tokens, st.now;
    match step
    case Redeem(c, client, redirect, verifier, r, f) =>
      if FreshPair(st.log, r, f) {
        RedeemUncut(cfg, st.core, st.ttl, c, client, redirect, verifier, r, f, now);
      }
    case Renew(h, r, f) =>
      if FreshPair(st.log, r, f) {
        RenewUncut(cfg, st.core, st.ttl, h, r, f, now);
      }
    case Revoke(h) => RevokeUncut(a, {h}, now, now, st.ttl);
    case RevokeClient(client) => RevokeUncut(a, OfClient(a, client), now, now, st.ttl);
    case Prune => PruneUncut(a, now, st.ttl);
    case _ =>
  }

  lemma RedeemUncut(cfg: Config, core: Core, ttl: nat, c: Hash, client: ClientId, redirect: string, verifier: string,
                    r: Hash, f: Hash, now: Time)
    requires Uncut(core.tokens, now, ttl) && r !in core.tokens && f !in core.tokens
    ensures Uncut(RedeemCore(cfg, core, ttl, c, client, redirect, verifier, r, f, now).tokens, now, ttl)
  {
    hide RedeemOk, Uncut, IssuePair;
    if Redeemable(core.codes, c, now) && RedeemOk(cfg, core.codes, c, client, redirect, verifier, now) {
      var code := core.codes[c];
      IssueUncut(core.tokens, ttl, r, f, client, AudienceOf(cfg, core.codes, c, client, redirect, verifier, now),
                 code.scope, now, now + cfg.accessTtl);
    }
  }

  function AudienceOf(cfg: Config, codes: Codes, c: Hash, client: ClientId, redirect: string, verifier: string,
      now: Time): string
    requires RedeemOk(cfg, codes, c, client, redirect, verifier, now)
  {
    Audience(cfg, codes[c]).value
  }

  lemma IssueUncut(tokens: Tokens, ttl: nat, r: Hash, f: Hash, client: ClientId, audience: string, scope: string,
                   now: Time, accessUntil: Time)
    requires Uncut(tokens, now, ttl) && r !in tokens && f !in tokens
    ensures Uncut(IssuePair(tokens, r, f, client, audience, scope, now + ttl, accessUntil), now, ttl)
  {
  }

  lemma RenewUncut(cfg: Config, core: Core, ttl: nat, h: Hash, r: Hash, f: Hash, now: Time)
    requires Uncut(core.tokens, now, ttl) && r !in core.tokens && f !in core.tokens && r != f
    ensures Uncut(RenewCore(cfg, core, ttl, h, r, f, now).tokens, now, ttl)
  {
    hide Uncut, RenewTokens, RevokeAll, ChainSet, Classify;
    RevokeUncut(core.tokens, ChainSet(core.tokens, h), now, now, ttl);
    if Usable(core.tokens, h, Refresh, now) {
      RotatedUncut(cfg, core.tokens, ttl, h, r, f, now);
    }
  }

  lemma RotatedUncut(cfg: Config, tokens: Tokens, ttl: nat, h: Hash, r: Hash, f: Hash, now: Time)
    requires Uncut(tokens, now, ttl) && Usable(tokens, h, Refresh, now)
    requires r !in tokens && f !in tokens && r != f
    ensures Uncut(RenewTokens(cfg, tokens, ttl, h, r, f, now), now, ttl)
  {
    RotateUncut(tokens, ttl, h, r, now);
    hide Uncut, Rotate;
    var row := tokens[h];
    AccessUncut(Rotate(tokens, h, r, now + ttl, now), now, ttl, f,
                NewToken(Access, Some(r), row.client, row.audience, row.scope, now + cfg.accessTtl));
  }

  lemma RotateUncut(tokens: Tokens, ttl: nat, h: Hash, r: Hash, now: Time)
    requires Uncut(tokens, now, ttl) && h in tokens && tokens[h].kind == Refresh && r !in tokens
    ensures Uncut(Rotate(tokens, h, r, now + ttl, now), now, ttl)
    ensures Rotate(tokens, h, r, now + ttl, now).Keys == tokens.Keys + {r}
  {
  }

  lemma AccessUncut(tokens: Tokens, now: Time, ttl: nat, f: Hash, token: Token)
    requires Uncut(tokens, now, ttl) && f !in tokens && token.kind == Access && token.rotatedTo.None?
    ensures Uncut(tokens[f := token], now, ttl)
  {
  }

  lemma {:induction false} RunUncut(cfg: Config, st: State, steps: seq<Step>)
    requires Inv(cfg, st) && CanonicalConfig(cfg) && Uncut(st.core.tokens, st.now, st.ttl)
    requires OnlyRaises(cfg, st, steps)
    ensures var after := Run(cfg, st, steps); Uncut(after.core.tokens, after.now, after.ttl)
  {
    if steps == [] {
    } else {
      var init := steps[..|steps| - 1];
      assert forall k :: 0 <= k < |init| ==> init[..k] == steps[..k];
      hide Inv, Uncut, Next;
      RunUncut(cfg, st, init);
      RunInv(cfg, st, init);
      StepUncut(cfg, Run(cfg, st, init), steps[|steps| - 1]);
    }
  }

  lemma UncutHop(tokens: Tokens, now: Time, ttl: nat, h: Hash, n: nat)
    requires Uncut(tokens, now, ttl) && h in tokens && Hop(tokens, h, n).Some?
    ensures var x := Hop(tokens, h, n).value; x in tokens && tokens[x].expiresAt >= tokens[h].expiresAt
  {
    if n > 0 {
      UncutHop(tokens, now, ttl, h, n - 1);
    }
  }

  /**
   * While the refresh lifetime is never lowered, every row a stored row leads to is stored and expires
   * no earlier, whenever pruning ran: what pruning has removed are prefixes of chains, and a theft
   * walk never reports a cut.
   */
  lemma NoCutChains(cfg: Config, now: Time, ttl: nat, steps: seq<Step>, h: Hash)
    requires CanonicalConfig(cfg) && OnlyRaises(cfg, Initial(now, ttl), steps)
    requires h in Reached(cfg, now, ttl, steps).core.tokens
    ensures var tokens := Reached(cfg, now, ttl, steps).core.tokens;
            && !Cut(tokens, h)
            && (forall x :: Reaches(tokens, h, x) ==> x in tokens && tokens[x].expiresAt >= tokens[h].expiresAt)
  {
    InitialInv(cfg, now, ttl);
    RunUncut(cfg, Initial(now, ttl), steps);
    var st := Reached(cfg, now, ttl, steps);
    forall x | Reaches(st.core.tokens, h, x)
      ensures x in st.core.tokens && st.core.tokens[x].expiresAt >= st.core.tokens[h].expiresAt
    {
      var n: nat :| Hop(st.core.tokens, h, n) == Some(x);
      UncutHop(st.core.tokens, st.now, st.ttl, h, n);
    }
  }

  /** The state after token `h` is renewed, `ms` pass and expired rows are pruned. */
  ghost function RenewWaitPrune(cfg: Config, st: State, h: Hash, r: Hash, a: Hash, ms: nat): State {
    Next(cfg, Next(cfg, Next(cfg, st, Renew(h, r, a)), Tick(ms)), Prune)
  }

  /**
   * What lowering the lifetime does, exactly: a rotation can come to be cut by pruning, with the old
   * row still there, if and only if the successor expires before the token it replaces.
   */
  lemma RotationCanBeCut(cfg: Config, st: State, h: Hash, r: Hash, a: Hash)
    requires FreshPair(st.log, r, a) && Usable(st.core.tokens, h, Refresh, st.now)
    requires forall x :: x in st.core.tokens ==> x in st.log.minted
    ensures (exists ms: nat ::
               var tokens := RenewWaitPrune(cfg, st, h, r, a, ms).core.tokens; h in tokens && Cut(tokens, h))
        <==> st.now + st.ttl < st.core.tokens[h].expiresAt
  {
    if st.now + st.ttl < st.core.tokens[h].expiresAt {
      var tokens := RenewWaitPrune(cfg, st, h, r, a, st.ttl).core.tokens;
      assert Hop(tokens, h, 0) == Some(h);
      assert Hop(tokens, h, 1) == Some(r);
      assert Reaches(tokens, h, r) && r !in tokens;
      assert h in tokens && Cut(tokens, h);
    } else {
      forall ms: nat | h in RenewWaitPrune(cfg, st, h, r, a, ms).core.tokens
        ensures !Cut(RenewWaitPrune(cfg, st, h, r, a, ms).core.tokens, h)
      {
        var tokens := RenewWaitPrune(cfg, st, h, r, a, ms).core.tokens;
        assert r in tokens && Link(tokens, h) == Some(r) && Link(tokens, r) == None;
        ClosedContainsReach(tokens, h, {h, r});
      }
    }
  }

  lemma OneMoreStep(cfg: Config, now: Time, ttl: nat, steps: seq<Step>, step: Step)
    ensures Reached(cfg, now, ttl, steps + [step]) == Next(cfg, Reached(cfg, now, ttl, steps), step)
  {
    assert (steps + [step])[..|steps|] == steps;
  }

  const GRANT_ALL := Form(true, None, false, true)

  /** The state after one request, its approval and the exchange of its code for tokens 1 and 2. */
  function GrantSteps(q: AuthRequest, verifier: string): seq<Step> {
    [Authorize(0, q)] + [Approve(0, 0, GRANT_ALL)] + [Redeem(0, q.client, q.redirect, verifier, 1, 2)]
  }

  lemma Authorized(cfg: Config, now: Time, ttl: nat, q: AuthRequest)
    requires RequestOk(cfg, q)
    ensures var st := Next(cfg, Initial(now, ttl), Authorize(0, q));
            && st.now == now && st.ttl == ttl && st.log.minted == {}
            && st.core == Core(map[0 := ConsentFor(cfg, q, now)], map[], map[])
  {
    hide RequestOk, ConsentFor;
    assert LivePending(map[], now) == map[];
  }

  lemma Approved(cfg: Config, st: State, consent: Consent)
    requires st.log.minted == {} && st.core == Core(map[0 := consent], map[], map[]) && consent.expiresAt > st.now
    ensures var after := Next(cfg, st, Approve(0, 0, GRANT_ALL));
            && after.now == st.now && after.ttl == st.ttl && after.log.minted == {0} && after.core.tokens == map[]
            && after.core.codes == map[0 := CodeFor(cfg, consent, consent.preselected, st.now)]
  {
    assert LivePending(st.core.pending, st.now) == st.core.pending;
  }

  lemma Redeemed(cfg: Config, st: State, code: Code, verifier: string)
    requires CanonicalConfig(cfg) && st.log.minted == {0} && st.core.tokens == map[]
    requires st.core.codes == map[0 := code] && code.consumedAt.None? && code.expiresAt > st.now
    requires PkceOk(cfg, verifier, code.challenge, code.challengeMethod) && Audience(cfg, code).Some?
    ensures var after := Next(cfg, st, Redeem(0, code.client, code.redirect, verifier, 1, 2));
            && after.now == st.now && after.log.minted == {0, 1, 2}
            && 1 in after.core.tokens && Usable(after.core.tokens, 1, Refresh, st.now) == (st.ttl > 0)
            && after.core.tokens[1].expiresAt == st.now + st.ttl
  {
  }

  /**
   * Lowering the lifetime does lead to cut chains: wherever a grant can be made at all, some run that
   * makes one, lowers the lifetime, rotates and prunes reaches a stored token whose chain is cut.
   */
  lemma LoweredLifetimeCuts(cfg: Config, now: Time, ttl: nat, low: nat, q: AuthRequest, verifier: string)
    requires CanonicalConfig(cfg) && RequestOk(cfg, q) && PkceOk(cfg, verifier, q.challenge, q.challengeMethod)
    requires cfg.codeTtl > 0 && low < ttl
    ensures exists steps, h :: var tokens := Reached(cfg, now, ttl, steps).core.tokens; h in tokens && Cut(tokens, h)
  {
    hide Inv, Reached, Next, Cut, RequestOk, PkceOk, GrantSteps, Usable;
    var granted := GrantSteps(q, verifier);
    var lowered := granted + [Reconfigure(low)];
    var st := Granting(cfg, now, ttl, q, verifier);
    OneMoreStep(cfg, now, ttl, granted, Reconfigure(low));
    Lowered(cfg, st, low);
    ReachedInv(cfg, now, ttl, lowered);
    RotateAndPrune(cfg, now, ttl, lowered, 1, 3, 4);
  }

  lemma Lowered(cfg: Config, st: State, low: nat)
    ensures Next(cfg, st, Reconfigure(low)) == st.(ttl := low)
  {
  }

  /** From a state whose lifetime would give token `h` a shorter-lived successor, a cut is three steps away. */
  lemma RotateAndPrune(cfg: Config, now: Time, ttl: nat, steps: seq<Step>, h: Hash, r: Hash, a: Hash)
    requires var st := Reached(cfg, now, ttl, steps);
             && Inv(cfg, st) && FreshPair(st.log, r, a)
             && Usable(st.core.tokens, h, Refresh, st.now) && st.now + st.ttl < st.core.tokens[h].expiresAt
    ensures exists more, x :: var tokens := Reached(cfg, now, ttl, more).core.tokens; x in tokens && Cut(tokens, x)
  {
    hide Inv, Reached, Cut, RenewWaitPrune, Usable, FreshPair;
    var st := Reached(cfg, now, ttl, steps);
    TokensMinted(cfg, st);
    RotationCanBeCut(cfg, st, h, r, a);
    var ms: nat :| var tokens := RenewWaitPrune(cfg, st, h, r, a, ms).core.tokens; h in tokens && Cut(tokens, h);
    ThreeMoreSteps(cfg, now, ttl, steps, h, r, a, ms);
  }

  lemma TokensMinted(cfg: Config, st: State)
    requires Inv(cfg, st)
    ensures forall x :: x in st.core.tokens ==> x in st.log.minted
  {
    MintedFacts(cfg, st);
    hide Inv;
  }

  lemma ThreeMoreSteps(cfg: Config, now: Time, ttl: nat, steps: seq<Step>, h: Hash, r: Hash, a: Hash, ms: nat)
    ensures Reached(cfg, now, ttl, steps + [Renew(h, r, a)] + [Tick(ms)] + [Prune])
         == RenewWaitPrune(cfg, Reached(cfg, now, ttl, steps), h, r, a, ms)
  {
    hide Reached, Next;
    OneMoreStep(cfg, now, ttl, steps, Renew(h, r, a));
    OneMoreStep(cfg, now, ttl, steps + [Renew(h, r, a)], Tick(ms));
    OneMoreStep(cfg, now, ttl, steps + [Renew(h, r, a)] + [Tick(ms)], Prune);
  }

  lemma Granting(cfg: Config, now: Time, ttl: nat, q: AuthRequest, verifier: string) returns (st: State)
    requires CanonicalConfig(cfg) && RequestOk(cfg, q) && PkceOk(cfg, verifier, q.challenge, q.challengeMethod)
    requires cfg.codeTtl > 0 && ttl > 0
    ensures st == Reached(cfg, now, ttl, GrantSteps(q, verifier))
    ensures st.now == now && st.log.minted == {0, 1, 2} && Usable(st.core.tokens, 1, Refresh, now)
    ensures 1 in st.core.tokens && st.core.tokens[1].expiresAt == now + ttl
  {
    var one: seq<Step> := [Authorize(0, q)];
    var two := one + [Approve(0, 0, GRANT_ALL)];
    assert [] + one == one && Reached(cfg, now, ttl, []) == Initial(now, ttl);
    OneMoreStep(cfg, now, ttl, [], Authorize(0, q));
    OneMoreStep(cfg, now, ttl, one, Approve(0, 0, GRANT_ALL));
    OneMoreStep(cfg, now, ttl, two, Redeem(0, q.client, q.redirect, verifier, 1, 2));
    st := Reached(cfg, now, ttl, GrantSteps(q, verifier));
    hide Reached, Next, Usable;
    var consent := ConsentFor(cfg, q, now);
    Authorized(cfg, now, ttl, q);
    Approved(cfg, Reached(cfg, now, ttl, one), consent);
    Redeemed(cfg, Reached(cfg, now, ttl, two), CodeFor(cfg, consent, consent.preselected, now), verifier);
  }

  // ---------------------------------------------------------------- theft

  /** A chain that is not cut leads on to the newest refresh token of its family. */
  lemma {:induction false} LeadsToHead(tokens: Tokens, log: Log, from: Hash, h: Hash)
    requires LinksOk(tokens, log) && !Cut(tokens, from) && Reaches(tokens, from, h)
    requires h in tokens && tokens[h].kind == Refresh
    ensures h in log.families && log.families[h] in log.heads
    ensures log.heads[log.families[h]] in tokens && Reaches(tokens, from, log.heads[log.families[h]])
    decreases log.count - log.births[h]
  {
    if tokens[h].rotatedTo.None? {
    } else {
      var n := tokens[h].rotatedTo.value;
      assert LinkOk(tokens, log, h, n);
      ReachesNext(tokens, from, h);
      LeadsToHead(tokens, log, from, n);
    }
  }

  lemma ReachesFamily(tokens: Tokens, log: Log, h: Hash, x: Hash)
    requires LinksOk(tokens, log) && Reaches(tokens, h, x) && h in log.families
    ensures x in log.families && log.families[x] == log.families[h]
  {
    var n: nat :| Hop(tokens, h, n) == Some(x);
    if n > 0 {
      BirthsGrow(tokens, log, h, n);
    }
  }

  /**
   * A replay judged a theft, whose walk reports no cut, ends the whole family: afterwards none of its
   * refresh tokens is live, no access token that came with the replayed link or a later one is live,
   * and every token of every other family is untouched.
   */
  lemma TheftEndsTheFamily(cfg: Config, now: Time, ttl: nat, steps: seq<Step>, h: Hash, r: Hash, a: Hash, g: Hash)
    requires CanonicalConfig(cfg)
    requires var st := Reached(cfg, now, ttl, steps);
             && FreshPair(st.log, r, a) && Classify(st.core.tokens, h, cfg.grace, st.now) == Theft
             && g in st.core.tokens && !Cut(st.core.tokens, h)
    ensures var st := Reached(cfg, now, ttl, steps);
            var before := st.core.tokens;
            var after := Next(cfg, st, Renew(h, r, a)).core.tokens;
            && h in st.log.families && g in st.log.families && after.Keys == before.Keys
            && (st.log.families[g] == st.log.families[h] && before[g].kind == Refresh ==> after[g].revokedAt.Some?)
            && (CameWithLink(before, h, g) ==> after[g].revokedAt.Some?)
            && (st.log.families[g] != st.log.families[h] ==> after[g] == before[g])
  {
    ReachedInv(cfg, now, ttl, steps);
    hide Reached, Next;
    var st := Reached(cfg, now, ttl, steps);
    TheftStep(cfg, st, h, r, a);
    TheftOnTable(cfg, st.core.tokens, st.log, st.now, h, g);
  }

  /** While the refresh lifetime is never lowered the walk reports no cut, so every theft ends its family. */
  lemma TheftEndsTheFamilyUnlessLowered(cfg: Config, now: Time, ttl: nat, steps: seq<Step>,
                                        h: Hash, r: Hash, a: Hash, g: Hash)
    requires CanonicalConfig(cfg) && OnlyRaises(cfg, Initial(now, ttl), steps)
    requires var st := Reached(cfg, now, ttl, steps);
             && FreshPair(st.log, r, a) && Classify(st.core.tokens, h, cfg.grace, st.now) == Theft
             && g in st.core.tokens
    ensures var st := Reached(cfg, now, ttl, steps);
            var after := Next(cfg, st, Renew(h, r, a)).core.tokens;
            && h in st.log.families && g in st.log.families && g in after
            && (st.log.families[g] == st.log.families[h] && after[g].kind == Refresh ==> after[g].revokedAt.Some?)
            && (st.log.families[g] != st.log.families[h] ==> after[g] == st.core.tokens[g])
  {
    hide Reached, Next, OnlyRaises, Cut, Inv;
    var st := Reached(cfg, now, ttl, steps);
    NoCutChains(cfg, now, ttl, steps, h);
    TheftEndsTheFamily(cfg, now, ttl, steps, h, r, a, g);
    TheftStep(cfg, st, h, r, a);
  }

  /** An access token that came with a stored link of the chain from `h`. */
  ghost predicate CameWithLink(tokens: Tokens, h: Hash, g: Hash) {
    && g in tokens && tokens[g].kind == Access && tokens[g].parent.Some?
    && tokens[g].parent.value in tokens && Reaches(tokens, h, tokens[g].parent.value)
  }

  lemma TheftStep(cfg: Config, st: State, h: Hash, r: Hash, a: Hash)
    requires FreshPair(st.log, r, a) && Classify(st.core.tokens, h, cfg.grace, st.now) == Theft
    ensures Next(cfg, st, Renew(h, r, a)).core.tokens == RevokeAll(st.core.tokens, ChainSet(st.core.tokens, h), st.now)
  {
  }

  lemma TheftOnTable(cfg: Config, tokens: Tokens, log: Log, now: Time, h: Hash, g: Hash)
    requires FamiliesOk(cfg, tokens, log) && LinksOk(tokens, log) && !Cut(tokens, h)
    requires h in tokens && tokens[h].kind == Refresh && g in tokens
    ensures var after := RevokeAll(tokens, ChainSet(tokens, h), now);
            && h in log.families && g in log.families && after.Keys == tokens.Keys
            && (log.families[g] == log.families[h] && tokens[g].kind == Refresh ==> after[g].revokedAt.Some?)
            && (CameWithLink(tokens, h, g) ==> after[g].revokedAt.Some?)
            && (log.families[g] != log.families[h] ==> after[g] == tokens[g])
  {
    ReachesItself(tokens, h);
    LeadsToHead(tokens, log, h, h);
    FamilyGrant(cfg, tokens, log, g);
    if log.families[g] != log.families[h] {
      OtherFamilyOffChain(tokens, log, h, g);
    } else if tokens[g].kind == Refresh {
      if tokens[g].rotatedTo.None? {
        assert g == log.heads[log.families[h]];
      } else {
        assert LinkOk(tokens, log, g, tokens[g].rotatedTo.value);
      }
    }
  }

  lemma OtherFamilyOffChain(tokens: Tokens, log: Log, h: Hash, g: Hash)
    requires LinksOk(tokens, log) && h in log.families && g in log.families && log.families[g] != log.families[h]
    ensures !OnChain(tokens, h, g)
  {
    if OnChain(tokens, h, g) {
      if Reaches(tokens, h, g) {
        ReachesFamily(tokens, log, h, g);
      } else {
        ReachesFamily(tokens, log, h, tokens[g].parent.value);
      }
    }
  }

  // ---------------------------------------------------------------- provenance

  /**
   * Every token ever issued, still stored or not, belongs to a family; the family comes from one code,
   * the code from one consent, and the consent's options, computed from its request alone, contained
   * the token's scope. A stored token carries that scope and this server as its audience.
   */
  lemma GrantProvenance(cfg: Config, now: Time, ttl: nat, steps: seq<Step>, h: Hash)
    requires CanonicalConfig(cfg)
    ensures var st := Reached(cfg, now, ttl, steps);
            && (h in st.core.tokens ==>
                  && h in st.log.families && h in st.log.scopes && st.core.tokens[h].scope == st.log.scopes[h]
                  && st.core.tokens[h].audience == cfg.resource)
            && (h in st.log.families ==>
                  && h in st.log.scopes && st.log.families[h] in st.log.heads && st.log.families[h] in st.log.grants
                  && var id := st.log.grants[st.log.families[h]];
                     && id in st.log.consents && RequestOk(cfg, st.log.consents[id].request)
                     && st.log.scopes[h] in ScopeOptions(cfg.grantable, st.log.consents[id].request.scope))
  {
    ReachedInv(cfg, now, ttl, steps);
  }

  /** A consent yields at most one code, and a code at most one family: one first refresh token. */
  lemma OneCodeOneFamily(cfg: Config, now: Time, ttl: nat, steps: seq<Step>, c: Hash, d: Hash, g: Hash, h: Hash)
    requires CanonicalConfig(cfg)
    ensures var log := Reached(cfg, now, ttl, steps).log;
            && (c in log.grants && d in log.grants && log.grants[c] == log.grants[d] ==> c == d)
            && (g in log.roots && h in log.roots ==>
                  g in log.families && h in log.families && (log.families[g] == log.families[h] ==> g == h))
  {
    ReachedInv(cfg, now, ttl, steps);
  }

  /** Exactly which scopes an approver may choose from. */
  lemma OptionsExactly(grantable: set<string>, words: seq<string>, scope: string)
    ensures scope in ScopeOptions(grantable, words) <==>
              && (forall w :: w in words ==> w in grantable)
              && scope in grantable
              && (scope == SCOPE_BOARD || (scope == SCOPE_FULL && (words == [] || SCOPE_FULL in words)))
  {
    if exists i :: 0 <= i < |words| && words[i] !in grantable {
      var i :| 0 <= i < |words| && words[i] !in grantable;
      assert words[i] in words;
    }
    assert SCOPE_FULL[0] != SCOPE_BOARD[0];
  }

  /** A request that names scopes but not the full one never leads to a full-access token, in any run. */
  lemma BoardStaysBoard(cfg: Config, now: Time, ttl: nat, steps: seq<Step>, h: Hash)
    requires CanonicalConfig(cfg)
    requires var log := Reached(cfg, now, ttl, steps).log;
             && h in log.families && log.families[h] in log.grants && log.grants[log.families[h]] in log.consents
             && var words := log.consents[log.grants[log.families[h]]].request.scope;
                words != [] && SCOPE_FULL !in words
    ensures var st := Reached(cfg, now, ttl, steps);
            && h in st.log.scopes && st.log.scopes[h] == SCOPE_BOARD
            && (h in st.core.tokens ==> st.core.tokens[h].scope == SCOPE_BOARD)
  {
    ReachedInv(cfg, now, ttl, steps);
    var log := Reached(cfg, now, ttl, steps).log;
    OptionsExactly(cfg.grantable, log.consents[log.grants[log.families[h]]].request.scope, log.scopes[h]);
  }

  /**
   * Redeeming: tokens appear only for an unspent, unexpired code presented by the client, redirect and
   * PKCE verifier it was bound to at consent, and every attempt on a redeemable code spends it.
   */
  lemma RedeemIsBound(cfg: Config, now: Time, ttl: nat, steps: seq<Step>, c: Hash, client: ClientId, redirect: string,
                      verifier: string, r: Hash, a: Hash)
    requires CanonicalConfig(cfg) && FreshPair(Reached(cfg, now, ttl, steps).log, r, a)
    ensures var st := Reached(cfg, now, ttl, steps);
            var after := Next(cfg, st, Redeem(c, client, redirect, verifier, r, a));
            && (r in after.core.tokens <==>
                  && Redeemable(st.core.codes, c, st.now)
                  && c in st.log.grants && st.log.grants[c] in st.log.consents
                  && var q := st.log.consents[st.log.grants[c]].request;
                     && q.client == client && q.redirect == redirect
                     && q.challengeMethod == "S256" && 43 <= |verifier| <= 128
                     && cfg.digest(verifier) == q.challenge)
            && !Redeemable(after.core.codes, c, after.now)
  {
    ReachedInv(cfg, now, ttl, steps);
    var st := Reached(cfg, now, ttl, steps);
    if Redeemable(st.core.codes, c, st.now) {
      RedeemFacts(cfg, st, c);
    }
  }
}
