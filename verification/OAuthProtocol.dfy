/**
 * The grant flow as a state machine: authorization requests, consents, codes, token pairs, rotation,
 * replay, revocation and pruning, at a clock that never goes back.
 *
 * `Core` is what the server holds. `Log` remembers what has happened and is read by no step.
 */
module OAuthProtocol {
  import opened Options
  import opened OAuthRows

  type RequestId = nat

  const SCOPE_FULL := "mcp"
  const SCOPE_BOARD := "board"
  const CONSENT_LIFE: Time := 600_000

  datatype Config = Config(
    clients: map<ClientId, set<string>>,
    grantable: set<string>,
    resource: string,
    canonical: string -> Option<string>,
    digest: string -> string,
    codeTtl: int,
    accessTtl: int,
    grace: int)

  /** The resource is stored in canonical form, and canonicalising it again leaves it alone. */
  predicate CanonicalConfig(cfg: Config) {
    cfg.canonical(cfg.resource) == Some(cfg.resource)
  }

  /** The words of `scope` are empty when the parameter is absent or blank. */
  datatype AuthRequest = AuthRequest(
    client: ClientId,
    redirect: string,
    responseType: string,
    challenge: string,
    challengeMethod: string,
    resource: Option<string>,
    scope: seq<string>)

  datatype Consent = Consent(request: AuthRequest, options: seq<string>, preselected: string, expiresAt: Time)

  datatype Form = Form(approve: bool, scope: Option<string>, throttled: bool, passwordOk: bool)

  datatype Core = Core(pending: map<RequestId, Consent>, codes: Codes, tokens: Tokens)

  datatype Log = Log(
    consents: map<RequestId, Consent>,
    grants: map<Hash, RequestId>,
    families: map<Hash, Hash>,
    scopes: map<Hash, string>,
    roots: set<Hash>,
    heads: map<Hash, Hash>,
    births: map<Hash, nat>,
    count: nat,
    minted: set<Hash>)

  datatype State = State(now: Time, ttl: nat, core: Core, log: Log)

  const EMPTY_LOG := Log(map[], map[], map[], map[], {}, map[], map[], 0, {})

  function Initial(now: Time, ttl: nat): State {
    State(now, ttl, Core(map[], map[], map[]), EMPTY_LOG)
  }

  datatype Step =
    | Authorize(id: RequestId, request: AuthRequest)
    | Approve(id: RequestId, code: Hash, form: Form)
    | Redeem(code: Hash, client: ClientId, redirect: string, verifier: string, refresh: Hash, access: Hash)
    | Renew(token: Hash, refresh: Hash, access: Hash)
    | Revoke(token: Hash)
    | RevokeClient(client: ClientId)
    | Prune
    | Tick(ms: nat)
    | Reconfigure(ttl: nat)

  // ---------------------------------------------------------------- authorization requests

  /** What the approver may choose from, widest first; nothing when the request is refused. */
  function ScopeOptions(grantable: set<string>, words: seq<string>): seq<string> {
    if exists i :: 0 <= i < |words| && words[i] !in grantable then []
    else
      var wantsFull := if words != [] then SCOPE_FULL in words else SCOPE_FULL in grantable;
      (if wantsFull && SCOPE_FULL in grantable then [SCOPE_FULL] else [])
      + (if SCOPE_BOARD in grantable then [SCOPE_BOARD] else [])
  }

  predicate RequestOk(cfg: Config, q: AuthRequest) {
    && q.client in cfg.clients && q.redirect in cfg.clients[q.client]
    && q.responseType == "code"
    && q.challenge != "" && q.challengeMethod == "S256"
    && (q.resource.Some? ==> cfg.canonical(q.resource.value) == Some(cfg.resource))
    && ScopeOptions(cfg.grantable, q.scope) != []
  }

  function LivePending(pending: map<RequestId, Consent>, now: Time): map<RequestId, Consent> {
    map id | id in pending && pending[id].expiresAt > now :: pending[id]
  }

  function ConsentFor(cfg: Config, q: AuthRequest, now: Time): Consent
    requires RequestOk(cfg, q)
  {
    var options := ScopeOptions(cfg.grantable, q.scope);
    Consent(q, options, options[0], now + CONSENT_LIFE)
  }

  function AuthorizeCore(cfg: Config, core: Core, id: RequestId, q: AuthRequest, now: Time): Core {
    var pending := LivePending(core.pending, now);
    core.(pending := if RequestOk(cfg, q) then pending[id := ConsentFor(cfg, q, now)] else pending)
  }

  // ---------------------------------------------------------------- consents

  /** The posted scope counts only if it was offered; an absent one means the preselected option. */
  function Chosen(consent: Consent, scope: Option<string>): Option<string> {
    if scope.None? then Some(consent.preselected)
    else if scope.value in consent.options then scope
    else None
  }

  function CodeFor(cfg: Config, consent: Consent, scope: string, now: Time): Code {
    Code(consent.request.client, consent.request.redirect, consent.request.challenge, consent.request.challengeMethod,
         consent.request.resource, scope, now + cfg.codeTtl, None)
  }

  /** The scope a posted form grants, if it grants anything. */
  function Granted(core: Core, id: RequestId, form: Form, now: Time): Option<string> {
    var pending := LivePending(core.pending, now);
    if id in pending && !form.throttled && form.approve && form.passwordOk
    then Chosen(pending[id], form.scope)
    else None
  }

  function ApproveCore(cfg: Config, core: Core, id: RequestId, code: Hash, form: Form, now: Time): Core {
    var pending := LivePending(core.pending, now);
    if id !in pending || form.throttled then core.(pending := pending)
    else if !form.approve || Chosen(pending[id], form.scope).None? then core.(pending := pending - {id})
    else if !form.passwordOk then core.(pending := pending)
    else
      core.(pending := pending - {id},
            codes := core.codes[code := CodeFor(cfg, pending[id], Chosen(pending[id], form.scope).value, now)])
  }

  // ---------------------------------------------------------------- tokens

  predicate PkceOk(cfg: Config, verifier: string, challenge: string, challengeMethod: string) {
    challengeMethod == "S256" && 43 <= |verifier| <= 128 && cfg.digest(verifier) == challenge
  }

  function Audience(cfg: Config, code: Code): Option<string> {
    cfg.canonical(if code.resource.Some? then code.resource.value else cfg.resource)
  }

  /** The code is good and everything it was bound to at consent is presented again. */
  predicate RedeemOk(cfg: Config, codes: Codes, h: Hash, client: ClientId, redirect: string, verifier: string,
                     now: Time)
  {
    && Redeemable(codes, h, now)
    && codes[h].client == client && codes[h].redirect == redirect
    && PkceOk(cfg, verifier, codes[h].challenge, codes[h].challengeMethod)
    && Audience(cfg, codes[h]).Some?
  }

  function IssuePair(tokens: Tokens, r: Hash, a: Hash, client: ClientId, audience: string, scope: string,
                     refreshUntil: Time, accessUntil: Time): Tokens
  {
    tokens[r := NewToken(Refresh, None, client, audience, scope, refreshUntil)]
          [a := NewToken(Access, Some(r), client, audience, scope, accessUntil)]
  }

  /** A redeemable code is burned by the attempt, whether or not the rest of the request is right. */
  function RedeemCore(cfg: Config, core: Core, ttl: nat, h: Hash, client: ClientId, redirect: string, verifier: string,
                      r: Hash, a: Hash, now: Time): Core
  {
    if !Redeemable(core.codes, h, now) then core
    else
      var code := core.codes[h];
      var burned := core.(codes := core.codes[h := code.(consumedAt := Some(now))]);
      if !RedeemOk(cfg, core.codes, h, client, redirect, verifier, now) then burned
      else burned.(tokens := IssuePair(core.tokens, r, a, client, Audience(cfg, code).value, code.scope,
                                       now + ttl, now + cfg.accessTtl))
  }

  function RenewTokens(cfg: Config, tokens: Tokens, ttl: nat, h: Hash, r: Hash, a: Hash, now: Time): Tokens
    requires h in tokens
  {
    var row := tokens[h];
    Rotate(tokens, h, r, now + ttl, now)
      [a := NewToken(Access, Some(r), row.client, row.audience, row.scope, now + cfg.accessTtl)]
  }

  ghost function RenewCore(cfg: Config, core: Core, ttl: nat, h: Hash, r: Hash, a: Hash, now: Time): Core {
    if Usable(core.tokens, h, Refresh, now)
    then core.(tokens := RenewTokens(cfg, core.tokens, ttl, h, r, a, now))
    else if Classify(core.tokens, h, cfg.grace, now) == Theft
    then core.(tokens := RevokeAll(core.tokens, ChainSet(core.tokens, h), now))
    else core
  }

  // ---------------------------------------------------------------- steps

  /** `log` with one more member of family `c`, newly minted. */
  function Joined(log: Log, h: Hash, c: Hash, scope: string): Log {
    log.(families := log.families[h := c], scopes := log.scopes[h := scope], minted := log.minted + {h})
  }

  /** The log after a new refresh token becomes the head of family `c`. */
  function Headed(log: Log, h: Hash, c: Hash, scope: string): Log {
    Joined(log, h, c, scope).(heads := log.heads[c := h], births := log.births[h := log.count], count := log.count + 1)
  }

  /** A code exchange starts family `c` with refresh token `r` and access token `a`. */
  function LogRoot(log: Log, c: Hash, r: Hash, a: Hash, scope: string): Log {
    var headed := Headed(log, r, c, scope).(roots := log.roots + {r});
    Joined(headed, a, c, scope)
  }

  /** Token `h` is rotated to `r`: both new tokens join the family of `h`. */
  function LogHeir(log: Log, h: Hash, r: Hash, a: Hash, scope: string): Log {
    if h !in log.families then log else Joined(Headed(log, r, log.families[h], scope), a, log.families[h], scope)
  }

  predicate FreshPair(log: Log, r: Hash, a: Hash) {
    r != a && r !in log.minted && a !in log.minted
  }

  ghost function NextCore(cfg: Config, st: State, step: Step): Core {
    match step
    case Authorize(id, q) => if id in st.log.consents then st.core else AuthorizeCore(cfg, st.core, id, q, st.now)
    case Approve(id, code, form) =>
      if code in st.log.minted then st.core else ApproveCore(cfg, st.core, id, code, form, st.now)
    case Redeem(c, client, redirect, verifier, r, a) =>
      if !FreshPair(st.log, r, a) then st.core
      else RedeemCore(cfg, st.core, st.ttl, c, client, redirect, verifier, r, a, st.now)
    case Renew(h, r, a) =>
      if !FreshPair(st.log, r, a) then st.core else RenewCore(cfg, st.core, st.ttl, h, r, a, st.now)
    case Revoke(h) => st.core.(tokens := RevokeAll(st.core.tokens, {h}, st.now))
    case RevokeClient(client) =>
      st.core.(tokens := RevokeAll(st.core.tokens, OfClient(st.core.tokens, client), st.now))
    case Prune =>
      st.core.(codes := UnexpiredCodes(st.core.codes, st.now), tokens := Unexpired(st.core.tokens, st.now))
    case Tick(_) => st.core
    case Reconfigure(_) => st.core
  }

  ghost function NextLog(cfg: Config, st: State, step: Step): Log {
    match step
    case Authorize(id, q) =>
      if id in st.log.consents || !RequestOk(cfg, q) then st.log
      else st.log.(consents := st.log.consents[id := ConsentFor(cfg, q, st.now)])
    case Approve(id, code, form) =>
      if code in st.log.minted || Granted(st.core, id, form, st.now).None? then st.log
      else st.log.(grants := st.log.grants[code := id], minted := st.log.minted + {code})
    case Redeem(c, client, redirect, verifier, r, a) =>
      if !FreshPair(st.log, r, a) || !RedeemOk(cfg, st.core.codes, c, client, redirect, verifier, st.now) then st.log
      else LogRoot(st.log, c, r, a, st.core.codes[c].scope)
    case Renew(h, r, a) =>
      if !FreshPair(st.log, r, a) || !Usable(st.core.tokens, h, Refresh, st.now) then st.log
      else LogHeir(st.log, h, r, a, st.core.tokens[h].scope)
    case _ => st.log
  }

  /** One atomic step; a step that would reuse a consent id or a secret changes nothing. */
  ghost function Next(cfg: Config, st: State, step: Step): State {
    State(if step.Tick? then st.now + step.ms else st.now,
          if step.Reconfigure? then step.ttl else st.ttl,
          NextCore(cfg, st, step),
          NextLog(cfg, st, step))
  }

  ghost function Run(cfg: Config, st: State, steps: seq<Step>): State {
    if steps == [] then st else Next(cfg, Run(cfg, st, steps[..|steps| - 1]), steps[|steps| - 1])
  }
}
