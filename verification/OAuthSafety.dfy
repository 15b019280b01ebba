/** What every reachable state of the grant flow keeps. */
module OAuthSafety {
  import opened Options
  import opened OAuthRows
  import opened OAuthProtocol

  /** Every consent offers what its request allows, and has led to one code at most. */
  ghost predicate ConsentsOk(cfg: Config, pending: map<RequestId, Consent>, log: Log) {
    && (forall id :: id in log.consents ==>
          && RequestOk(cfg, log.consents[id].request)
          && log.consents[id].options == ScopeOptions(cfg.grantable, log.consents[id].request.scope)
          && log.consents[id].options != [] && log.consents[id].preselected == log.consents[id].options[0])
    && (forall id :: id in pending ==>
          id in log.consents && pending[id] == log.consents[id] && id !in log.grants.Values)
    && (forall c :: c in log.grants ==> log.grants[c] in log.consents && c in log.minted)
    && (forall c, d :: c in log.grants && d in log.grants && log.grants[c] == log.grants[d] ==> c == d)
  }

  /** A code row carries what its consent says. */
  ghost predicate CodeFits(code: Code, consent: Consent) {
    && code.scope in consent.options
    && code.client == consent.request.client && code.redirect == consent.request.redirect
    && code.challenge == consent.request.challenge && code.challengeMethod == consent.request.challengeMethod
    && code.resource == consent.request.resource
  }

  /** Every code comes from a consent; a family's code is spent. */
  ghost predicate CodesOk(cfg: Config, codes: Codes, log: Log) {
    && (forall c :: c in codes ==>
          c in log.grants && log.grants[c] in log.consents && CodeFits(codes[c], log.consents[log.grants[c]]))
    && (forall c :: c in log.heads ==> c in log.grants && (c in codes ==> codes[c].consumedAt.Some?))
  }

  /** Every token ever issued belongs to a family whose consent offered its scope. */
  ghost predicate MembersOk(log: Log) {
    forall h :: h in log.families ==>
      && h in log.minted && h in log.scopes && log.families[h] in log.heads
      && log.families[h] in log.grants && log.grants[log.families[h]] in log.consents
      && log.scopes[h] in log.consents[log.grants[log.families[h]]].options
  }

  ghost predicate StoredOk(cfg: Config, tokens: Tokens, log: Log) {
    forall h :: h in tokens ==>
      h in log.families && h in log.scopes && tokens[h].scope == log.scopes[h] && tokens[h].audience == cfg.resource
  }

  /** A family has one first token. */
  ghost predicate RootsOk(log: Log) {
    && (forall h :: h in log.roots ==> h in log.families)
    && (forall g, h :: g in log.roots && h in log.roots && log.families[g] == log.families[h] ==> g == h)
  }

  ghost predicate FamiliesOk(cfg: Config, tokens: Tokens, log: Log) {
    MembersOk(log) && StoredOk(cfg, tokens, log) && RootsOk(log)
  }

  /** A link leads from a revoked refresh token to a later refresh token of the same family. */
  ghost predicate LinkOk(tokens: Tokens, log: Log, h: Hash, n: Hash)
    requires h in tokens
  {
    && tokens[h].kind == Refresh && tokens[h].revokedAt.Some?
    && h in log.families && n in log.families && log.families[n] == log.families[h]
    && h in log.births && n in log.births && log.births[h] < log.births[n]
    && n in log.minted && (n in tokens ==> tokens[n].kind == Refresh)
  }

  ghost predicate ForwardOk(tokens: Tokens, log: Log) {
    forall h :: h in tokens && tokens[h].rotatedTo.Some? ==> LinkOk(tokens, log, h, tokens[h].rotatedTo.value)
  }

  /** No two links lead to the same token. */
  ghost predicate DisjointOk(tokens: Tokens) {
    forall g, h :: g in tokens && h in tokens && tokens[g].rotatedTo.Some? && tokens[g].rotatedTo == tokens[h].rotatedTo
      ==> g == h
  }

  /** A refresh token that was never rotated is the newest of its family. */
  ghost predicate HeadsOk(tokens: Tokens, log: Log) {
    forall h :: h in tokens && tokens[h].kind == Refresh ==>
      && h in log.births && h in log.families && log.families[h] in log.heads
      && (tokens[h].rotatedTo.None? ==> h == log.heads[log.families[h]])
  }

  ghost predicate BirthsOk(tokens: Tokens, log: Log) {
    && (forall h :: h in log.births ==> h in log.minted && log.births[h] < log.count)
    && (forall h :: h in tokens ==> h in log.minted)
  }

  /** An access token belongs to the family of the refresh token it came with. */
  ghost predicate ParentsOk(tokens: Tokens, log: Log) {
    forall h :: h in tokens && tokens[h].parent.Some? ==>
      && h in log.families && tokens[h].parent.value in log.families
      && log.families[tokens[h].parent.value] == log.families[h]
  }

  ghost predicate LinksOk(tokens: Tokens, log: Log) {
    && ForwardOk(tokens, log) && DisjointOk(tokens) && HeadsOk(tokens, log) && BirthsOk(tokens, log)
    && ParentsOk(tokens, log)
  }

  /** No link points at a missing row, and what it points at lives at least as long. */
  ghost predicate Uncut(tokens: Tokens, now: Time, ttl: nat) {
    && (forall h :: h in tokens && tokens[h].rotatedTo.Some? ==>
          tokens[h].rotatedTo.value in tokens && tokens[tokens[h].rotatedTo.value].expiresAt >= tokens[h].expiresAt)
    && (forall h :: h in tokens && tokens[h].kind == Refresh ==> tokens[h].expiresAt <= now + ttl)
  }

  ghost predicate Inv(cfg: Config, st: State) {
    && ConsentsOk(cfg, st.core.pending, st.log)
    && CodesOk(cfg, st.core.codes, st.log)
    && FamiliesOk(cfg, st.core.tokens, st.log)
    && LinksOk(st.core.tokens, st.log)
  }

  lemma InitialInv(cfg: Config, now: Time, ttl: nat)
    ensures Inv(cfg, Initial(now, ttl))
    ensures Uncut(Initial(now, ttl).core.tokens, now, ttl)
  {
  }

  // ---------------------------------------------------------------- tokens only lose

  /** `b` has some of the rows of `a`, each at most newly revoked. */
  ghost predicate Fewer(a: Tokens, b: Tokens) {
    forall h :: h in b ==>
      && h in a && b[h] == a[h].(revokedAt := b[h].revokedAt)
      && (a[h].revokedAt.Some? ==> b[h] == a[h])
  }

  lemma RevokeIsFewer(a: Tokens, hs: set<Hash>, now: Time)
    ensures Fewer(a, RevokeAll(a, hs, now))
  {
  }

  lemma UnexpiredIsFewer(a: Tokens, now: Time)
    ensures Fewer(a, Unexpired(a, now))
  {
  }

  lemma FewerInv(cfg: Config, a: Tokens, b: Tokens, log: Log)
    requires Fewer(a, b) && FamiliesOk(cfg, a, log) && LinksOk(a, log)
    ensures FamiliesOk(cfg, b, log) && LinksOk(b, log)
  {
  }

  lemma RevokeUncut(tokens: Tokens, hs: set<Hash>, now: Time, clock: Time, ttl: nat)
    requires Uncut(tokens, clock, ttl)
    ensures Uncut(RevokeAll(tokens, hs, now), clock, ttl)
  {
  }

  /** Pruning takes a prefix of every chain: what a surviving row points at survives. */
  lemma PruneUncut(tokens: Tokens, now: Time, ttl: nat)
    requires Uncut(tokens, now, ttl)
    ensures Uncut(Unexpired(tokens, now), now, ttl)
  {
  }

  // ---------------------------------------------------------------- tokens are added

  lemma JoinFamilies(cfg: Config, tokens: Tokens, log: Log, h: Hash, c: Hash, token: Token)
    requires FamiliesOk(cfg, tokens, log) && h !in log.minted && token.audience == cfg.resource
    requires c in log.heads && c in log.grants && log.grants[c] in log.consents
    requires token.scope in log.consents[log.grants[c]].options
    ensures FamiliesOk(cfg, tokens[h := token], Joined(log, h, c, token.scope))
  {
    JoinMembers(log, h, c, token.scope);
    NewIsNoMember(log, h);
    JoinStored(cfg, tokens, log, h, c, token);
    JoinRoots(log, h, c, token.scope);
    hide MembersOk, StoredOk, RootsOk;
  }

  lemma NewIsNoMember(log: Log, h: Hash)
    requires MembersOk(log) && h !in log.minted
    ensures h !in log.families
  {
  }

  lemma JoinMembers(log: Log, h: Hash, c: Hash, scope: string)
    requires MembersOk(log) && c in log.heads && c in log.grants && log.grants[c] in log.consents
    requires scope in log.consents[log.grants[c]].options
    ensures MembersOk(Joined(log, h, c, scope))
  {
  }

  lemma JoinStored(cfg: Config, tokens: Tokens, log: Log, h: Hash, c: Hash, token: Token)
    requires StoredOk(cfg, tokens, log) && token.audience == cfg.resource && h !in log.families
    ensures StoredOk(cfg, tokens[h := token], Joined(log, h, c, token.scope))
  {
  }

  lemma JoinRoots(log: Log, h: Hash, c: Hash, scope: string)
    requires RootsOk(log) && h !in log.families
    ensures RootsOk(Joined(log, h, c, scope))
  {
  }

  lemma JoinAccessLinks(tokens: Tokens, log: Log, h: Hash, c: Hash, token: Token)
    requires LinksOk(tokens, log) && h !in log.minted && token.kind == Access && token.rotatedTo.None?
    requires token.parent.Some? ==> token.parent.value in log.families && log.families[token.parent.value] == c
    requires forall g :: g in log.families ==> g in log.minted
    ensures LinksOk(tokens[h := token], Joined(log, h, c, token.scope))
  {
    hide ForwardOk, HeadsOk, DisjointOk, ParentsOk, BirthsOk;
    AccessForward(tokens, log, h, c, token);
    AccessHeads(tokens, log, h, c, token);
    AccessParents(tokens, log, h, c, token);
  }

  lemma AccessForward(tokens: Tokens, log: Log, h: Hash, c: Hash, token: Token)
    requires ForwardOk(tokens, log) && DisjointOk(tokens) && h !in log.minted && token.rotatedTo.None?
    requires forall g :: g in log.families ==> g in log.minted
    ensures ForwardOk(tokens[h := token], Joined(log, h, c, token.scope)) && DisjointOk(tokens[h := token])
  {
  }

  lemma AccessHeads(tokens: Tokens, log: Log, h: Hash, c: Hash, token: Token)
    requires HeadsOk(tokens, log) && BirthsOk(tokens, log) && h !in log.minted && token.kind == Access
    requires forall g :: g in log.families ==> g in log.minted
    ensures HeadsOk(tokens[h := token], Joined(log, h, c, token.scope))
    ensures BirthsOk(tokens[h := token], Joined(log, h, c, token.scope))
  {
  }

  lemma AccessParents(tokens: Tokens, log: Log, h: Hash, c: Hash, token: Token)
    requires ParentsOk(tokens, log) && h !in log.families
    requires token.parent.Some? ==> token.parent.value in log.families && log.families[token.parent.value] == c
    ensures ParentsOk(tokens[h := token], Joined(log, h, c, token.scope))
  {
  }

  lemma RootHeads(tokens: Tokens, log: Log, h: Hash, c: Hash, token: Token)
    requires HeadsOk(tokens, log) && BirthsOk(tokens, log) && h !in log.minted && token.rotatedTo.None?
        && c !in log.heads
    ensures HeadsOk(tokens[h := token], Headed(log, h, c, token.scope))
    ensures BirthsOk(tokens[h := token], Headed(log, h, c, token.scope))
  {
  }

  lemma RootForward(tokens: Tokens, log: Log, h: Hash, c: Hash, token: Token)
    requires ForwardOk(tokens, log) && DisjointOk(tokens) && BirthsOk(tokens, log)
    requires h !in log.minted && token.rotatedTo.None? && forall g :: g in log.families ==> g in log.minted
    ensures ForwardOk(tokens[h := token], Headed(log, h, c, token.scope)) && DisjointOk(tokens[h := token])
  {
  }

  lemma RootParents(tokens: Tokens, log: Log, h: Hash, c: Hash, token: Token)
    requires ParentsOk(tokens, log) && h !in log.families && token.parent.None?
    ensures ParentsOk(tokens[h := token], Headed(log, h, c, token.scope))
  {
  }

  lemma RootLinks(tokens: Tokens, log: Log, h: Hash, c: Hash, token: Token)
    requires LinksOk(tokens, log) && h !in log.minted && token.kind == Refresh && token.rotatedTo.None?
    requires c !in log.heads && token.parent.None? && forall g :: g in log.families ==> g in log.minted
    ensures LinksOk(tokens[h := token], Headed(log, h, c, token.scope))
  {
    hide ForwardOk, HeadsOk, DisjointOk, ParentsOk, BirthsOk;
    RootHeads(tokens, log, h, c, token);
    RootForward(tokens, log, h, c, token);
    RootParents(tokens, log, h, c, token);
  }

  lemma HeirLinks(tokens: Tokens, log: Log, h: Hash, r: Hash, ru: Time, now: Time)
    requires LinksOk(tokens, log) && r !in log.minted && h in tokens && tokens[h].kind == Refresh
    requires tokens[h].revokedAt.None?
    requires forall g :: g in log.families ==> g in log.minted
    ensures LinksOk(Rotate(tokens, h, r, ru, now), Headed(log, r, log.families[h], tokens[h].scope))
  {
    LiveIsHead(tokens, log, h);
    StoredIsMinted(tokens, log);
    hide ForwardOk, HeadsOk, DisjointOk, ParentsOk, BirthsOk, Rotate;
    HeirForward(tokens, log, h, r, ru, now);
    HeirHeads(tokens, log, h, r, ru, now);
    HeirParents(tokens, log, h, r, ru, now);
  }

  /** A live refresh token was never rotated, so it is its family's newest. */
  lemma LiveIsHead(tokens: Tokens, log: Log, h: Hash)
    requires LinksOk(tokens, log) && h in tokens && tokens[h].kind == Refresh && tokens[h].revokedAt.None?
    ensures tokens[h].rotatedTo.None? && h in log.births && h in log.families && log.families[h] in log.heads
    ensures h == log.heads[log.families[h]]
  {
  }

  lemma StoredIsMinted(tokens: Tokens, log: Log)
    requires LinksOk(tokens, log)
    ensures forall g :: g in tokens ==> g in log.minted
    ensures forall g :: g in tokens && tokens[g].rotatedTo.Some? ==> tokens[g].rotatedTo.value in log.minted
  {
    assert forall g :: g in tokens && tokens[g].rotatedTo.Some? ==> LinkOk(tokens, log, g, tokens[g].rotatedTo.value);
  }

  lemma HeirForward(tokens: Tokens, log: Log, h: Hash, r: Hash, ru: Time, now: Time)
    requires ForwardOk(tokens, log) && DisjointOk(tokens) && BirthsOk(tokens, log) && r !in log.minted
    requires h in tokens && tokens[h].kind == Refresh && h in log.births && h in log.families
    requires forall g :: g in tokens ==> g in log.minted
    requires forall g :: g in tokens && tokens[g].rotatedTo.Some? ==> tokens[g].rotatedTo.value in log.minted
    ensures ForwardOk(Rotate(tokens, h, r, ru, now), Headed(log, r, log.families[h], tokens[h].scope))
    ensures DisjointOk(Rotate(tokens, h, r, ru, now))
  {
    var after, headed := Rotate(tokens, h, r, ru, now), Headed(log, r, log.families[h], tokens[h].scope);
    forall g | g in after && after[g].rotatedTo.Some? ensures LinkOk(after, headed, g, after[g].rotatedTo.value) {
      assert g != h ==> LinkOk(tokens, log, g, tokens[g].rotatedTo.value);
    }
    hide ForwardOk, BirthsOk;
  }

  lemma HeirHeads(tokens: Tokens, log: Log, h: Hash, r: Hash, ru: Time, now: Time)
    requires HeadsOk(tokens, log) && BirthsOk(tokens, log) && r !in log.minted && h in tokens && h in log.families
    requires tokens[h].kind == Refresh && tokens[h].rotatedTo.None?
    requires log.families[h] in log.heads && h == log.heads[log.families[h]]
    requires forall g :: g in log.families ==> g in log.minted
    ensures HeadsOk(Rotate(tokens, h, r, ru, now), Headed(log, r, log.families[h], tokens[h].scope))
    ensures BirthsOk(Rotate(tokens, h, r, ru, now), Headed(log, r, log.families[h], tokens[h].scope))
  {
  }

  lemma HeirParents(tokens: Tokens, log: Log, h: Hash, r: Hash, ru: Time, now: Time)
    requires ParentsOk(tokens, log) && r !in log.minted && h in tokens && h in log.families
    requires forall g :: g in log.families ==> g in log.minted
    ensures ParentsOk(Rotate(tokens, h, r, ru, now), Headed(log, r, log.families[h], tokens[h].scope))
  {
  }

  lemma RotateFamilies(cfg: Config, tokens: Tokens, log: Log, h: Hash, r: Hash, ru: Time, now: Time)
    requires FamiliesOk(cfg, tokens, log) && r !in log.minted && h in tokens
    ensures h in log.families
    ensures FamiliesOk(cfg, Rotate(tokens, h, r, ru, now), Joined(log, r, log.families[h], tokens[h].scope))
  {
    FamilyGrant(cfg, tokens, log, h);
    NewIsNoMember(log, r);
    JoinMembers(log, r, log.families[h], tokens[h].scope);
    JoinRoots(log, r, log.families[h], tokens[h].scope);
    RotateStored(cfg, tokens, log, h, r, ru, now);
    hide MembersOk, RootsOk, StoredOk;
  }

  lemma RotateStored(cfg: Config, tokens: Tokens, log: Log, h: Hash, r: Hash, ru: Time, now: Time)
    requires StoredOk(cfg, tokens, log) && r !in log.families && h in tokens && h in log.families
    ensures StoredOk(cfg, Rotate(tokens, h, r, ru, now), Joined(log, r, log.families[h], tokens[h].scope))
  {
  }

  /** Becoming the head of its family changes nothing that the family's members promise. */
  lemma HeadedFamilies(cfg: Config, tokens: Tokens, log: Log, h: Hash, c: Hash, scope: string)
    requires FamiliesOk(cfg, tokens, Joined(log, h, c, scope))
    ensures FamiliesOk(cfg, tokens, Headed(log, h, c, scope))
  {
    hide RootsOk;
    assert RootsOk(Headed(log, h, c, scope)) by {
      SameRoots(Joined(log, h, c, scope), Headed(log, h, c, scope));
    }
  }

  lemma SameRoots(a: Log, b: Log)
    requires b.roots == a.roots && b.families == a.families
    ensures RootsOk(a) ==> RootsOk(b)
  {
  }

  lemma PairInv(cfg: Config, core: Core, log: Log, c: Hash, r: Hash, a: Hash, client: ClientId, ru: Time, au: Time)
    requires FamiliesOk(cfg, core.tokens, log) && LinksOk(core.tokens, log) && CodesOk(cfg, core.codes, log)
    requires FreshPair(log, r, a) && c in core.codes && c !in log.heads
    ensures var scope := core.codes[c].scope;
            var tokens := IssuePair(core.tokens, r, a, client, cfg.resource, scope, ru, au);
            FamiliesOk(cfg, tokens, LogRoot(log, c, r, a, scope)) && LinksOk(tokens, LogRoot(log, c, r, a, scope))
  {
    hide LinksOk, FamiliesOk;
    var scope := core.codes[c].scope;
    var first := NewToken(Refresh, None, client, cfg.resource, scope, ru);
    var second := NewToken(Access, Some(r), client, cfg.resource, scope, au);
    var mid := core.tokens[r := first];
    var headed := Headed(log, r, c, scope);
    FamiliesMinted(cfg, core.tokens, log);
    RootLinks(core.tokens, log, r, c, first);
    RootJoins(cfg, core, log, c, r, first);
    LinksIgnoreRoots(mid, headed, log.roots + {r});
    JoinFamilies(cfg, mid, headed.(roots := log.roots + {r}), a, c, second);
    FamiliesMinted(cfg, mid, headed.(roots := log.roots + {r}));
    JoinAccessLinks(mid, headed.(roots := log.roots + {r}), a, c, second);
  }

  lemma LinksIgnoreRoots(tokens: Tokens, log: Log, roots: set<Hash>)
    requires LinksOk(tokens, log)
    ensures LinksOk(tokens, log.(roots := roots))
  {
  }

  /** The first token of a family, whose code has led to no other family. */
  lemma RootJoins(cfg: Config, core: Core, log: Log, c: Hash, r: Hash, token: Token)
    requires FamiliesOk(cfg, core.tokens, log) && CodesOk(cfg, core.codes, log)
    requires r !in log.minted && c in core.codes && c !in log.heads
    requires token.audience == cfg.resource && token.scope == core.codes[c].scope
    ensures FamiliesOk(cfg, core.tokens[r := token], Headed(log, r, c, token.scope).(roots := log.roots + {r}))
  {
    RootFacts(cfg, core, log, c, r);
    hide CodesOk, MembersOk, StoredOk, RootsOk;
    RootMembers(log, c, r, token.scope);
    RootStored(cfg, core.tokens, log, c, r, token);
    RootRoots(log, c, r, token.scope);
  }

  lemma RootMembers(log: Log, c: Hash, r: Hash, scope: string)
    requires MembersOk(log) && c in log.grants && log.grants[c] in log.consents
    requires scope in log.consents[log.grants[c]].options
    ensures MembersOk(Headed(log, r, c, scope).(roots := log.roots + {r}))
  {
  }

  lemma RootStored(cfg: Config, tokens: Tokens, log: Log, c: Hash, r: Hash, token: Token)
    requires StoredOk(cfg, tokens, log) && token.audience == cfg.resource && r !in log.families
    ensures StoredOk(cfg, tokens[r := token], Headed(log, r, c, token.scope).(roots := log.roots + {r}))
  {
  }

  lemma RootRoots(log: Log, c: Hash, r: Hash, scope: string)
    requires RootsOk(log) && r !in log.families && forall g :: g in log.families ==> log.families[g] != c
    ensures RootsOk(Headed(log, r, c, scope).(roots := log.roots + {r}))
  {
  }

  /** What a code that has led to no family says of its first token. */
  lemma RootFacts(cfg: Config, core: Core, log: Log, c: Hash, r: Hash)
    requires FamiliesOk(cfg, core.tokens, log) && CodesOk(cfg, core.codes, log)
    requires r !in log.minted && c in core.codes && c !in log.heads
    ensures c in log.grants && log.grants[c] in log.consents
    ensures core.codes[c].scope in log.consents[log.grants[c]].options
    ensures r !in log.families && forall g :: g in log.families ==> log.families[g] != c
    ensures forall g :: g in log.roots ==> g in log.families
  {
    hide StoredOk;
  }

  lemma HeirInv(cfg: Config, tokens: Tokens, log: Log, h: Hash, r: Hash, a: Hash, ttl: nat, now: Time)
    requires FamiliesOk(cfg, tokens, log) && LinksOk(tokens, log)
    requires FreshPair(log, r, a) && Usable(tokens, h, Refresh, now)
    ensures var renewed := RenewTokens(cfg, tokens, ttl, h, r, a, now);
            var after := LogHeir(log, h, r, a, tokens[h].scope);
            FamiliesOk(cfg, renewed, after) && LinksOk(renewed, after)
  {
    hide LinksOk, FamiliesOk, Headed;
    var row := tokens[h];
    var mid := Rotate(tokens, h, r, now + ttl, now);
    HeirMid(cfg, tokens, log, h, r, now + ttl, now);
    HeadedShape(log, r, log.families[h], row.scope);
    HeirAccess(cfg, tokens, log, mid, Headed(log, r, log.families[h], row.scope), h, a,
               NewToken(Access, Some(r), row.client, row.audience, row.scope, now + cfg.accessTtl));
  }

  lemma HeadedShape(log: Log, h: Hash, c: Hash, scope: string)
    ensures var headed := Headed(log, h, c, scope);
            && c in headed.heads && headed.grants == log.grants && headed.consents == log.consents
            && headed.minted == log.minted + {h} && h in headed.families && headed.families[h] == c
  {
  }

  /** The rotated table, before the access token that comes with it. */
  lemma HeirMid(cfg: Config, tokens: Tokens, log: Log, h: Hash, r: Hash, ru: Time, now: Time)
    requires FamiliesOk(cfg, tokens, log) && LinksOk(tokens, log)
    requires r !in log.minted && Usable(tokens, h, Refresh, now)
    ensures h in log.families && log.families[h] in log.heads
    ensures FamiliesOk(cfg, Rotate(tokens, h, r, ru, now), Headed(log, r, log.families[h], tokens[h].scope))
    ensures LinksOk(Rotate(tokens, h, r, ru, now), Headed(log, r, log.families[h], tokens[h].scope))
  {
    HeirMidLinks(cfg, tokens, log, h, r, ru, now);
    hide LinksOk, FamiliesOk, Rotate, Headed, Joined;
    RotateFamilies(cfg, tokens, log, h, r, ru, now);
    HeadedFamilies(cfg, Rotate(tokens, h, r, ru, now), log, r, log.families[h], tokens[h].scope);
  }

  lemma HeirMidLinks(cfg: Config, tokens: Tokens, log: Log, h: Hash, r: Hash, ru: Time, now: Time)
    requires FamiliesOk(cfg, tokens, log) && LinksOk(tokens, log)
    requires r !in log.minted && Usable(tokens, h, Refresh, now)
    ensures h in log.families && log.families[h] in log.heads
    ensures LinksOk(Rotate(tokens, h, r, ru, now), Headed(log, r, log.families[h], tokens[h].scope))
  {
    FamiliesMinted(cfg, tokens, log);
    FamilyGrant(cfg, tokens, log, h);
    hide LinksOk, FamiliesOk, Rotate, Headed;
    HeirLinks(tokens, log, h, r, ru, now);
  }

  /** A stored token's family comes from a consent that offered the token's scope. */
  lemma FamilyGrant(cfg: Config, tokens: Tokens, log: Log, h: Hash)
    requires FamiliesOk(cfg, tokens, log) && h in tokens
    ensures h in log.families && tokens[h].audience == cfg.resource
    ensures var c := log.families[h];
            c in log.heads && c in log.grants && log.grants[c] in log.consents
            && tokens[h].scope in log.consents[log.grants[c]].options
  {
  }

  lemma HeirAccess(cfg: Config, tokens: Tokens, log: Log, mid: Tokens, headed: Log, h: Hash, a: Hash, second: Token)
    requires FamiliesOk(cfg, tokens, log) && h in tokens && h in log.families
    requires FamiliesOk(cfg, mid, headed) && LinksOk(mid, headed) && a !in headed.minted
    requires log.families[h] in headed.heads && headed.grants == log.grants && headed.consents == log.consents
    requires second.kind == Access && second.rotatedTo.None? && second.parent.Some?
    requires second.parent.value in headed.families && headed.families[second.parent.value] == log.families[h]
    requires second.scope == tokens[h].scope && second.audience == tokens[h].audience
    ensures FamiliesOk(cfg, mid[a := second], Joined(headed, a, log.families[h], second.scope))
    ensures LinksOk(mid[a := second], Joined(headed, a, log.families[h], second.scope))
  {
    FamilyGrant(cfg, tokens, log, h);
    FamiliesMinted(cfg, mid, headed);
    hide LinksOk, FamiliesOk;
    JoinFamilies(cfg, mid, headed, a, log.families[h], second);
    JoinAccessLinks(mid, headed, a, log.families[h], second);
  }

  // ---------------------------------------------------------------- consents and codes

  lemma NewConsent(cfg: Config, core: Core, log: Log, id: RequestId, consent: Consent)
    requires id !in log.consents
    requires CodesOk(cfg, core.codes, log) && FamiliesOk(cfg, core.tokens, log) && LinksOk(core.tokens, log)
    requires forall c :: c in log.grants ==> log.grants[c] in log.consents
    ensures var after := log.(consents := log.consents[id := consent]);
            CodesOk(cfg, core.codes, after) && FamiliesOk(cfg, core.tokens, after) && LinksOk(core.tokens, after)
  {
    hide CodesOk, FamiliesOk, LinksOk;
    LinksIgnoreConsents(core.tokens, log, log.consents[id := consent]);
    FamiliesKeepConsents(cfg, core.tokens, log, id, consent);
    CodesKeepConsents(cfg, core.codes, log, id, consent);
  }

  lemma LinksIgnoreConsents(tokens: Tokens, log: Log, consents: map<RequestId, Consent>)
    requires LinksOk(tokens, log)
    ensures LinksOk(tokens, log.(consents := consents))
  {
  }

  lemma FamiliesKeepConsents(cfg: Config, tokens: Tokens, log: Log, id: RequestId, consent: Consent)
    requires id !in log.consents && FamiliesOk(cfg, tokens, log)
    requires forall c :: c in log.grants ==> log.grants[c] in log.consents
    ensures FamiliesOk(cfg, tokens, log.(consents := log.consents[id := consent]))
  {
  }

  lemma CodesKeepConsents(cfg: Config, codes: Codes, log: Log, id: RequestId, consent: Consent)
    requires id !in log.consents && CodesOk(cfg, codes, log)
    requires forall c :: c in log.grants ==> log.grants[c] in log.consents
    ensures CodesOk(cfg, codes, log.(consents := log.consents[id := consent]))
  {
  }

  lemma AuthorizeInv(cfg: Config, st: State, id: RequestId, q: AuthRequest)
    requires Inv(cfg, st)
    ensures Inv(cfg, Next(cfg, st, Authorize(id, q)))
  {
    hide CodesOk, FamiliesOk, LinksOk, ConsentsOk;
    if id !in st.log.consents {
      var after := Next(cfg, st, Authorize(id, q));
      AuthorizeConsents(cfg, st.core, st.log, id, q, st.now);
      GrantFacts(cfg, st.core.pending, st.log);
      if RequestOk(cfg, q) {
        NewConsent(cfg, st.core, st.log, id, ConsentFor(cfg, q, st.now));
      }
    }
  }

  lemma GrantFacts(cfg: Config, pending: map<RequestId, Consent>, log: Log)
    requires ConsentsOk(cfg, pending, log)
    ensures forall c :: c in log.grants ==> log.grants[c] in log.consents && c in log.minted
  {
  }

  lemma AuthorizeConsents(cfg: Config, core: Core, log: Log, id: RequestId, q: AuthRequest, now: Time)
    requires ConsentsOk(cfg, core.pending, log) && id !in log.consents
    ensures ConsentsOk(cfg, AuthorizeCore(cfg, core, id, q, now).pending,
                       if RequestOk(cfg, q) then log.(consents := log.consents[id := ConsentFor(cfg, q, now)]) else log)
  {
  }

  /** A code is granted: its consent leaves the pending map for good. */
  lemma GrantInv(cfg: Config, core: Core, log: Log, id: RequestId, code: Hash, scope: string, now: Time)
    requires ConsentsOk(cfg, core.pending, log) && CodesOk(cfg, core.codes, log)
    requires FamiliesOk(cfg, core.tokens, log) && LinksOk(core.tokens, log)
    requires code !in log.minted && id in core.pending && scope in core.pending[id].options
    ensures var after := log.(grants := log.grants[code := id], minted := log.minted + {code});
            && ConsentsOk(cfg, core.pending - {id}, after)
            && CodesOk(cfg, core.codes[code := CodeFor(cfg, core.pending[id], scope, now)], after)
            && FamiliesOk(cfg, core.tokens, after) && LinksOk(core.tokens, after)
  {
    GrantFacts(cfg, core.pending, log);
    GrantCodes(cfg, core, log, id, code, scope, now);
    hide CodesOk, FamiliesOk, LinksOk, ConsentsOk;
    GrantFamilies(cfg, core.tokens, log, id, code);
    GrantConsents(cfg, core.pending, log, id, code);
  }

  lemma GrantCodes(cfg: Config, core: Core, log: Log, id: RequestId, code: Hash, scope: string, now: Time)
    requires ConsentsOk(cfg, core.pending, log) && CodesOk(cfg, core.codes, log)
    requires code !in log.minted && id in core.pending && scope in core.pending[id].options
    ensures CodesOk(cfg, core.codes[code := CodeFor(cfg, core.pending[id], scope, now)],
                    log.(grants := log.grants[code := id], minted := log.minted + {code}))
  {
    GrantedFits(cfg, core.pending[id], scope, now);
    PendingIsLogged(cfg, core.pending, log, id);
    GrantFacts(cfg, core.pending, log);
    hide ConsentsOk, CodeFits, CodeFor, CodesOk;
    GrantOneCode(cfg, core.codes, log, id, code, CodeFor(cfg, core.pending[id], scope, now));
  }

  lemma GrantOneCode(cfg: Config, codes: Codes, log: Log, id: RequestId, code: Hash, row: Code)
    requires CodesOk(cfg, codes, log) && code !in log.grants && id in log.consents && CodeFits(row, log.consents[id])
    ensures CodesOk(cfg, codes[code := row], log.(grants := log.grants[code := id], minted := log.minted + {code}))
  {
    hide CodeFits;
  }

  lemma GrantedFits(cfg: Config, consent: Consent, scope: string, now: Time)
    requires scope in consent.options
    ensures CodeFits(CodeFor(cfg, consent, scope, now), consent)
  {
  }

  lemma PendingIsLogged(cfg: Config, pending: map<RequestId, Consent>, log: Log, id: RequestId)
    requires ConsentsOk(cfg, pending, log) && id in pending
    ensures id in log.consents && log.consents[id] == pending[id]
  {
  }

  lemma GrantFamilies(cfg: Config, tokens: Tokens, log: Log, id: RequestId, code: Hash)
    requires FamiliesOk(cfg, tokens, log) && LinksOk(tokens, log) && code !in log.grants
    ensures var after := log.(grants := log.grants[code := id], minted := log.minted + {code});
            FamiliesOk(cfg, tokens, after) && LinksOk(tokens, after)
  {
    GrantMembers(log, id, code);
    GrantLinks(tokens, log, id, code);
    hide MembersOk, LinksOk;
  }

  lemma GrantMembers(log: Log, id: RequestId, code: Hash)
    requires MembersOk(log) && code !in log.grants
    ensures MembersOk(log.(grants := log.grants[code := id], minted := log.minted + {code}))
  {
  }

  lemma GrantLinks(tokens: Tokens, log: Log, id: RequestId, code: Hash)
    requires LinksOk(tokens, log)
    ensures LinksOk(tokens, log.(grants := log.grants[code := id], minted := log.minted + {code}))
  {
  }

  lemma GrantConsents(cfg: Config, pending: map<RequestId, Consent>, log: Log, id: RequestId, code: Hash)
    requires ConsentsOk(cfg, pending, log) && id in pending && code !in log.minted
    ensures ConsentsOk(cfg, pending - {id}, log.(grants := log.grants[code := id], minted := log.minted + {code}))
  {
  }

  lemma FewerPending(cfg: Config, a: map<RequestId, Consent>, b: map<RequestId, Consent>, log: Log)
    requires ConsentsOk(cfg, a, log) && forall id :: id in b ==> id in a && b[id] == a[id]
    ensures ConsentsOk(cfg, b, log)
  {
  }

  lemma ApproveInv(cfg: Config, st: State, id: RequestId, code: Hash, form: Form)
    requires Inv(cfg, st)
    ensures Inv(cfg, Next(cfg, st, Approve(id, code, form)))
  {
    hide CodesOk, FamiliesOk, LinksOk, ConsentsOk;
    if code !in st.log.minted {
      var pending: map<RequestId, Consent> := LivePending(st.core.pending, st.now);
      FewerPending(cfg, st.core.pending, pending, st.log);
      FewerPending(cfg, st.core.pending, pending - {id}, st.log);
      if Granted(st.core, id, form, st.now).Some? {
        ChosenIsOffered(cfg, pending, st.log, id, form.scope);
        GrantInv(cfg, st.core.(pending := pending), st.log, id, code, Chosen(pending[id], form.scope).value, st.now);
      }
    }
  }

  lemma ChosenIsOffered(cfg: Config, pending: map<RequestId, Consent>, log: Log, id: RequestId, scope: Option<string>)
    requires ConsentsOk(cfg, pending, log) && id in pending && Chosen(pending[id], scope).Some?
    ensures Chosen(pending[id], scope).value in pending[id].options
  {
  }

  // ---------------------------------------------------------------- redeeming and renewing

  /** Consuming a code that is not spent yet. */
  lemma BurnInv(cfg: Config, codes: Codes, log: Log, c: Hash, now: Time)
    requires CodesOk(cfg, codes, log) && c in codes
    ensures CodesOk(cfg, codes[c := codes[c].(consumedAt := Some(now))], log)
  {
  }

  /** A redeemable code has led to no family, and the audience it yields is this server. */
  lemma RedeemFacts(cfg: Config, st: State, c: Hash)
    requires Inv(cfg, st) && CanonicalConfig(cfg) && Redeemable(st.core.codes, c, st.now)
    ensures c !in st.log.heads && Audience(cfg, st.core.codes[c]) == Some(cfg.resource)
  {
  }

  lemma HeadedCodes(cfg: Config, codes: Codes, log: Log, c: Hash, r: Hash, a: Hash, scope: string)
    requires CodesOk(cfg, codes, log) && c in codes && codes[c].consumedAt.Some?
    ensures CodesOk(cfg, codes, LogRoot(log, c, r, a, scope))
  {
  }

  lemma MintedConsents(cfg: Config, pending: map<RequestId, Consent>, log: Log, after: Log)
    requires ConsentsOk(cfg, pending, log)
    requires after.consents == log.consents && after.grants == log.grants && log.minted <= after.minted
    ensures ConsentsOk(cfg, pending, after)
  {
  }

  lemma RedeemInv(cfg: Config, st: State, c: Hash, client: ClientId, redirect: string, verifier: string, r: Hash,
      a: Hash)
    requires Inv(cfg, st) && CanonicalConfig(cfg)
    ensures Inv(cfg, Next(cfg, st, Redeem(c, client, redirect, verifier, r, a)))
  {
    hide CodesOk, FamiliesOk, LinksOk, ConsentsOk, IssuePair, LogRoot, Redeemable, PkceOk, Audience;
    if FreshPair(st.log, r, a) && Redeemable(st.core.codes, c, st.now) {
      CodeIsStored(st.core.codes, c, st.now);
      BurnInv(cfg, st.core.codes, st.log, c, st.now);
      if RedeemOk(cfg, st.core.codes, c, client, redirect, verifier, st.now) {
        RedeemFacts(cfg, st, c);
        RedeemSpends(cfg, st, c, r, a);
        PairInv(cfg, st.core, st.log, c, r, a, client, st.now + st.ttl, st.now + cfg.accessTtl);
      }
    }
  }

  lemma CodeIsStored(codes: Codes, c: Hash, now: Time)
    requires Redeemable(codes, c, now)
    ensures c in codes
  {
  }

  /** What an exchange leaves of codes and consents: the code is spent. */
  lemma RedeemSpends(cfg: Config, st: State, c: Hash, r: Hash, a: Hash)
    requires Inv(cfg, st) && c in st.core.codes
    ensures var code := st.core.codes[c];
            var log := LogRoot(st.log, c, r, a, code.scope);
            && ConsentsOk(cfg, st.core.pending, log)
            && CodesOk(cfg, st.core.codes[c := code.(consumedAt := Some(st.now))], log)
  {
    hide CodesOk, FamiliesOk, LinksOk, ConsentsOk;
    var code := st.core.codes[c];
    BurnInv(cfg, st.core.codes, st.log, c, st.now);
    HeadedCodes(cfg, st.core.codes[c := code.(consumedAt := Some(st.now))], st.log, c, r, a, code.scope);
    MintedConsents(cfg, st.core.pending, st.log, LogRoot(st.log, c, r, a, code.scope));
  }

  lemma FamiliesMinted(cfg: Config, tokens: Tokens, log: Log)
    requires FamiliesOk(cfg, tokens, log)
    ensures forall g :: g in log.families ==> g in log.minted
  {
  }

  lemma FamilyFacts(cfg: Config, tokens: Tokens, log: Log, h: Hash)
    requires FamiliesOk(cfg, tokens, log)
    ensures h in log.families ==> log.families[h] in log.heads
    ensures h in tokens ==> h in log.families && tokens[h].scope == log.scopes[h]
  {
  }

  lemma HeirCodes(cfg: Config, codes: Codes, log: Log, h: Hash, r: Hash, a: Hash, scope: string)
    requires CodesOk(cfg, codes, log) && (h in log.families ==> log.families[h] in log.heads)
    ensures CodesOk(cfg, codes, LogHeir(log, h, r, a, scope))
  {
  }

  lemma RenewInv(cfg: Config, st: State, h: Hash, r: Hash, a: Hash)
    requires Inv(cfg, st)
    ensures Inv(cfg, Next(cfg, st, Renew(h, r, a)))
  {
    hide CodesOk, FamiliesOk, LinksOk, ConsentsOk;
    if FreshPair(st.log, r, a) {
      if Usable(st.core.tokens, h, Refresh, st.now) {
        FamilyFacts(cfg, st.core.tokens, st.log, h);
        HeirInv(cfg, st.core.tokens, st.log, h, r, a, st.ttl, st.now);
        HeirCodes(cfg, st.core.codes, st.log, h, r, a, st.core.tokens[h].scope);
        MintedConsents(cfg, st.core.pending, st.log, LogHeir(st.log, h, r, a, st.core.tokens[h].scope));
      } else {
        RevokeIsFewer(st.core.tokens, ChainSet(st.core.tokens, h), st.now);
        TokensFewer(cfg, st, RevokeAll(st.core.tokens, ChainSet(st.core.tokens, h), st.now));
      }
    }
  }

  lemma TokensFewer(cfg: Config, st: State, tokens: Tokens)
    requires Inv(cfg, st)
    ensures Fewer(st.core.tokens, tokens) ==> Inv(cfg, st.(core := st.core.(tokens := tokens)))
  {
    if Fewer(st.core.tokens, tokens) {
      FewerInv(cfg, st.core.tokens, tokens, st.log);
    }
  }

  lemma StepInv(cfg: Config, st: State, step: Step)
    requires Inv(cfg, st) && CanonicalConfig(cfg)
    ensures Inv(cfg, Next(cfg, st, step))
  {
    hide CodesOk, FamiliesOk, LinksOk, ConsentsOk;
    match step
    case Authorize(id, q) => AuthorizeInv(cfg, st, id, q);
    case Approve(id, code, form) => ApproveInv(cfg, st, id, code, form);
    case Redeem(c, client, redirect, verifier, r, a) => RedeemInv(cfg, st, c, client, redirect, verifier, r, a);
    case Renew(h, r, a) => RenewInv(cfg, st, h, r, a);
    case Revoke(h) =>
      RevokeIsFewer(st.core.tokens, {h}, st.now);
      TokensFewer(cfg, st, RevokeAll(st.core.tokens, {h}, st.now));
    case RevokeClient(client) =>
      RevokeIsFewer(st.core.tokens, OfClient(st.core.tokens, client), st.now);
      TokensFewer(cfg, st, RevokeAll(st.core.tokens, OfClient(st.core.tokens, client), st.now));
    case Prune =>
      UnexpiredIsFewer(st.core.tokens, st.now);
      TokensFewer(cfg, st, Unexpired(st.core.tokens, st.now));
      PruneCodes(cfg, st.core.codes, st.log, st.now);
    case Tick(_) =>
    case Reconfigure(_) =>
  }

  lemma PruneCodes(cfg: Config, codes: Codes, log: Log, now: Time)
    requires CodesOk(cfg, codes, log)
    ensures CodesOk(cfg, UnexpiredCodes(codes, now), log)
  {
  }

  lemma {:induction false} RunInv(cfg: Config, st: State, steps: seq<Step>)
    requires Inv(cfg, st) && CanonicalConfig(cfg)
    ensures Inv(cfg, Run(cfg, st, steps))
  {
    if steps == [] {
    } else {
      hide Inv;
      RunInv(cfg, st, steps[..|steps| - 1]);
      StepInv(cfg, Run(cfg, st, steps[..|steps| - 1]), steps[|steps| - 1]);
    }
  }
}
