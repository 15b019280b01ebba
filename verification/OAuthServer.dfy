/**
 * The endpoints of the authorization server as an object. Each method changes the pending consents
 * and the store in place and is proved to do what the protocol step of that endpoint does.
 */
module OAuthServer {
  import opened Options
  import opened OAuthRows
  import opened OAuthProtocol

  datatype AuthorizeReply = ConsentPage(options: seq<string>) | RequestRefused
  datatype ApproveReply = CodeIssued | Expired | Throttled | Denied | NotOffered | WrongPassword
  datatype TokenReply = Pair(refresh: Hash, access: Hash, scope: string) | InvalidGrant

  class AuthorizationServer {
    const cfg: Config
    const store: OAuthStore
    var pending: map<RequestId, Consent>
    var refreshTtl: nat

    function View(): Core
      reads this, store
    {
      Core(pending, store.codes, store.tokens)
    }

    constructor (cfg: Config, refreshTtl: nat)
      ensures this.cfg == cfg && this.refreshTtl == refreshTtl && fresh(store)
      ensures View() == Core(map[], map[], map[])
    {
      this.cfg, this.refreshTtl := cfg, refreshTtl;
      store := new OAuthStore();
      pending := map[];
    }

    /** Consents that have expired go, one by one. */
    method PrunePending(now: Time)
      modifies this`pending
      ensures pending == LivePending(old(pending), now)
    {
      var before := pending;
      var remaining := pending.Keys;
      while remaining != {}
        invariant remaining <= before.Keys
        invariant pending == map id | id in before && (id in remaining || before[id].expiresAt > now) :: before[id]
        decreases remaining
      {
        var id :| id in remaining;
        remaining := remaining - {id};
        if before[id].expiresAt <= now {
          pending := pending - {id};
        }
      }
    }

    method GetAuthorize(id: RequestId, q: AuthRequest, now: Time) returns (r: AuthorizeReply)
      requires id !in pending
      modifies this`pending
      ensures View() == AuthorizeCore(cfg, old(View()), id, q, now)
      ensures r.ConsentPage? <==> RequestOk(cfg, q)
      ensures r.ConsentPage? ==> id in pending && r.options == pending[id].options
    {
      PrunePending(now);
      if q.client !in cfg.clients || q.redirect !in cfg.clients[q.client] {
        return RequestRefused;
      }
      if q.responseType != "code" || q.challenge == "" || q.challengeMethod != "S256" {
        return RequestRefused;
      }
      if q.resource.Some? && cfg.canonical(q.resource.value) != Some(cfg.resource) {
        return RequestRefused;
      }
      var options := ScopeOptions(cfg.grantable, q.scope);
      if options == [] {
        return RequestRefused;
      }
      pending := pending[id := Consent(q, options, options[0], now + CONSENT_LIFE)];
      return ConsentPage(options);
    }

    method PostAuthorize(id: RequestId, code: Hash, form: Form, now: Time) returns (r: ApproveReply)
      requires code !in store.codes
      modifies this`pending, store`codes
      ensures View() == ApproveCore(cfg, old(View()), id, code, form, now)
      ensures r.CodeIssued? <==> Granted(old(View()), id, form, now).Some?
      ensures var live := id in old(pending) && old(pending)[id].expiresAt > now;
              var offered := live && (form.scope.Some? ==> form.scope.value in old(pending)[id].options);
              && (r.Expired? <==> !live)
              && (r.Throttled? <==> live && form.throttled)
              && (r.Denied? <==> live && !form.throttled && !form.approve)
              && (r.NotOffered? <==> live && !form.throttled && form.approve && !offered)
              && (r.WrongPassword? <==> !form.throttled && form.approve && offered && !form.passwordOk)
      ensures r.CodeIssued?
          ==> code in store.codes && Some(store.codes[code].scope) == Granted(old(View()), id, form, now)
    {
      PrunePending(now);
      if id !in pending {
        return Expired;
      }
      var entry := pending[id];
      if form.throttled {
        return Throttled;
      }
      if !form.approve {
        pending := pending - {id};
        return Denied;
      }
      var chosen := Chosen(entry, form.scope);
      if chosen.None? {
        pending := pending - {id};
        return NotOffered;
      }
      if !form.passwordOk {
        return WrongPassword;
      }
      pending := pending - {id};
      store.IssueAuthorizationCode(code, CodeFor(cfg, entry, chosen.value, now));
      return CodeIssued;
    }

    method RedeemCode(c: Hash, client: ClientId, redirect: string, verifier: string, r: Hash, a: Hash, now: Time)
      returns (reply: TokenReply)
      requires r != a && r !in store.tokens && a !in store.tokens
      modifies store
      ensures View() == RedeemCore(cfg, old(View()), refreshTtl, c, client, redirect, verifier, r, a, now)
      ensures reply.Pair? <==>
                && c in old(store.codes) && old(store.codes)[c].consumedAt == None
                    && now < old(store.codes)[c].expiresAt
                && old(store.codes)[c].client == client && old(store.codes)[c].redirect == redirect
                && old(store.codes)[c].challengeMethod == "S256" && 43 <= |verifier| <= 128
                && cfg.digest(verifier) == old(store.codes)[c].challenge
                && Audience(cfg, old(store.codes)[c]).Some?
      ensures reply.Pair? ==> reply.refresh == r && reply.access == a && r in store.tokens && a in store.tokens
    {
      var record := store.ConsumeAuthorizationCode(c, now);
      if record.None? {
        return InvalidGrant;
      }
      if record.value.client != client || record.value.redirect != redirect {
        return InvalidGrant;
      }
      if !PkceOk(cfg, verifier, record.value.challenge, record.value.challengeMethod) {
        return InvalidGrant;
      }
      var audience := Audience(cfg, record.value);
      if audience.None? {
        return InvalidGrant;
      }
      var scope := record.value.scope;
      store.IssueToken(r, Refresh, None, client, audience.value, scope, refreshTtl, now);
      store.IssueToken(a, Access, Some(r), client, audience.value, scope, cfg.accessTtl, now);
      return Pair(r, a, scope);
    }

    method RefreshGrant(h: Hash, r: Hash, a: Hash, now: Time) returns (reply: TokenReply)
      requires r != a && r !in store.tokens && a !in store.tokens
      modifies store`tokens
      ensures View() == RenewCore(cfg, old(View()), refreshTtl, h, r, a, now)
      ensures reply.Pair? <==>
                && h in old(store.tokens) && old(store.tokens)[h].kind == Refresh
                && old(store.tokens)[h].revokedAt == None && now < old(store.tokens)[h].expiresAt
      ensures reply.Pair? ==> reply.refresh == r && reply.access == a && reply.scope == old(store.tokens)[h].scope
    {
      var record := store.RotateRefreshToken(h, r, refreshTtl, now);
      if record.None? {
        var verdict, revoked, truncated := store.ClassifyRefreshReplay(h, cfg.grace, now);
        return InvalidGrant;
      }
      var row := record.value;
      store.IssueToken(a, Access, Some(r), row.client, row.audience, row.scope, cfg.accessTtl, now);
      return Pair(r, a, row.scope);
    }
  }
}
