/** The protocol handlers' transactions (internal/oidc/authorize.go, interaction.go, token.go, refresh.go,
    oauth.go, logout.go, logout_delivery.go). */
module OidcService {
  import opened Records
  import opened Validity
  import opened Cascades
  import opened Outbox
  import opened Invariants
  import opened Evolution
  import opened Purges
  import opened Steps
  import opened Authorization
  import opened TokenEndpoint
  import opened IdentityService
  import opened Issuance
  import opened Responses
  import Store
  import Logouts
  import Deliveries

  class Protocol {
    const store: Store.FileState
    const cfg: Config

    constructor (store: Store.FileState, cfg: Config)
      ensures this.store == store && this.cfg == cfg
    {
      this.store := store;
      this.cfg := cfg;
    }

    // ---------- Authorization ----------

    /** `c` and `row` were read, and `t0` taken, before the transaction. A stored request is open, for a
        registered redirect URI and scopes asked for, and bound to an account only if no sign-in is needed. */
    method Authorize(
      id: Id, c: Client, q: Request, offline: bool, row: Option<Session>, binding: Id, txn: Id, t0: Time)
      returns (error: Option<Error>)
      modifies store
      ensures error.None? ==>
                && Askable(cfg, c, q, offline) && txn in store.Abs().txns
                && AsksFor(store.Abs().txns[txn], cfg, id, c, q, binding, t0)
                && BoundTo(store.Abs().txns[txn], q, row, t0)
      ensures Done(old(store.Abs()),
                   Authorization.Authorize(old(store.Abs()), cfg, id, c, q, offline, row, binding, txn, t0),
                   store.Abs(), error)
    {
      hide AsksFor, BoundTo, Askable, PruneGrants, RequestError, NewTxn, NeedsLogin, Store.FileState.Abs;
      AuthorizeStores(store.Abs(), cfg, id, c, q, offline, row, binding, txn, t0);
      error := RequestError(cfg, c, q, offline);
      if error.Some? {
        return;
      }
      if q.none {
        return Some(Invalid);
      }
      store.PruneOIDCState(t0);
      store.SaveAuthzTransaction(txn, NewTxn(cfg, id, c, q, row, binding, t0));
    }

    /** A code is stored, unused, for an active account, at the client's current revision, and bound to the
        live session it was asked for in. */
    method MintCode(c: Client, i: Issue, code: Id, now: Time) returns (error: Option<Error>)
      modifies store
      ensures error.None? ==>
                && UserHolds(old(store.Abs()), i.user) && code in store.Abs().codes
                && i.client in old(store.Abs()).clients && old(store.Abs()).clients[i.client].updatedAt == c.updatedAt
                && var record := store.Abs().codes[code];
                && !record.consumed && record.userId == i.user && record.scopes == i.scopes
                && record.redirectUri == i.redirectUri && record.codeChallenge == i.codeChallenge
                && record.expiresAt == now + cfg.codeTtl
                && (i.session != NONE ==>
                      HasSession(old(store.Abs()), i.session)
                      && record.opSessionId == old(store.Abs()).sessions[i.session].id)
      ensures Done(old(store.Abs()), Authorization.MintCode(old(store.Abs()), cfg, c, i, code, now), store.Abs(), error)
    {
      hide PruneGrants, SessionActive, UserHolds, Store.FileState.Abs;
      var s := store.Abs();
      if !UserHolds(s, i.user) {
        return Some(Unauthorized);
      }
      if i.client !in s.clients {
        return Some(NotFound);
      }
      if s.clients[i.client].updatedAt != c.updatedAt || !s.clients[i.client].metadata.compatible {
        return Some(PolicyChanged);
      }
      var op := NONE;
      if i.session != NONE {
        if !HasSession(s, i.session) || !SessionActive(s, s.sessions[i.session].id, now) {
          return Some(Unauthorized);
        }
        op := s.sessions[i.session].id;
      }
      store.PruneOIDCState(now);
      store.SaveAuthorizationCode(code, NewCode(cfg, op, i, c.updatedAt, now));
      error := None;
    }

    /** A code is stored for the account of a session that is live and fresh enough now, under a consent that
        covers it now. */
    method MintNone(
      id: Id, c: Client, q: Request, offline: bool, session: Id, row: Session, code: Id, t0: Time, now: Time)
      returns (error: Option<Error>)
      modifies store
      ensures error.None? ==>
                && HasSession(old(store.Abs()), session)
                && SessionFresh(old(store.Abs()).sessions[session], now, q.maxAge)
                && Consented(old(store.Abs()), row.userId, id, c, Filtered(cfg, q.scopes))
                && code in store.Abs().codes
                && store.Abs().codes[code].userId == old(store.Abs()).sessions[session].userId == row.userId
                && store.Abs().codes[code].scopes == Filtered(cfg, q.scopes)
                && store.Abs().codes[code].redirectUri == q.redirectUri
                && store.Abs().codes[code].codeChallenge == q.codeChallenge
      ensures Done(old(store.Abs()),
                   Authorization.MintNone(old(store.Abs()), cfg, id, c, q, offline, session, row, code, t0, now),
                   store.Abs(), error)
    {
      hide Authorization.MintCode, RequestError, Consented, Filtered, Store.FileState.Abs;
      error := RequestError(cfg, c, q, offline);
      if error.Some? {
        return;
      }
      if !q.none || NeedsLogin(q, Some(row), t0) {
        return Some(Invalid);
      }
      var s := store.Abs();
      var scopes := Filtered(cfg, q.scopes);
      if !(HasSession(s, session) && s.sessions[session].userId == row.userId
           && SessionFresh(s.sessions[session], now, q.maxAge)) {
        return Some(Unauthorized);
      }
      if !Consented(s, row.userId, id, c, scopes) {
        return Some(Unauthorized);
      }
      error :=
        MintCode(c,
                 Issue(id, row.userId, session, q.redirectUri, scopes, Unix(row.authTime.value), q.codeChallenge, NONE),
                 code, now);
    }

    /** `Status` without a decision, `Decide` with one. It is accepted exactly if the request may be answered by
        this session; an approval issues its code, a refusal uses the request up, and asking only binds it. */
    method Complete(
      txn: Id, binding: Id, session: Id, user: Id, approve: Option<bool>, approved: seq<Scope>, code: Id, now: Time)
      returns (error: Option<Error>)
      modifies store
      ensures session != NONE ==> (error.None? <==> Answerable(old(store.Abs()), txn, binding, session, user, now))
      ensures session != NONE && error.None? ==>
                && txn in old(store.Abs()).txns && session in old(store.Abs()).sessions
                && old(store.Abs()).sessions[session].authTime.Some?
                && Outcomes(old(store.Abs()), store.Abs(), cfg, txn, session, approve, approved, code, now)
      ensures Done(old(store.Abs()),
                   Authorization.Complete(old(store.Abs()), cfg, txn, binding, session, user, approve, approved, code,
                                          now),
                   store.Abs(), error)
    {
      hide Authorization.MintCode, SaveConsent, Consented, Approved, TxnOpen, SessionFresh, UserHolds,
           Store.FileState.Abs, Answerable, Outcomes;
      var s := store.Abs();
      AnswerIs(s, cfg, txn, binding, session, user, approve, approved, code, now);
      if !TxnOpen(s, txn, binding, now) {
        return Some(Unauthorized);
      }
      TxnStored(s, txn, binding, now);
      if !MayAnswer(s, s.txns[txn], session, user, now) {
        return Some(Unauthorized);
      }
      var t := s.txns[txn];
      var r := s.sessions[session];
      if t.clientId !in s.clients {
        return Some(NotFound);
      }
      var c := s.clients[t.clientId];
      if !c.metadata.compatible || c.updatedAt != t.clientUpdatedAt {
        return Some(PolicyChanged);
      }
      var bound := BoundTxn(t, r);
      if approve.None? && (!Consented(s, user, t.clientId, c, t.scopes) || t.promptConsent) {
        store.SaveAuthzTransaction(txn, bound);
        return None;
      }
      if approve.None? || approve.value {
        var granted := t.scopes;
        if approve.Some? {
          granted := Approved(t.scopes, approved);
          store.SaveConsent(ConsentKey(user, t.clientId), Consent(granted, c.updatedAt, now, false), now);
        }
        error :=
          MintCode(c,
                   Issue(t.clientId, user, session, t.redirectUri, granted, Unix(r.authTime.value), t.codeChallenge,
                         txn),
                   code, now);
        if error.Some? {
          store.Rollback(s);
          return;
        }
      }
      store.SaveAuthzTransaction(txn, bound.(consumed := true));
      error := None;
    }

    // ---------- Tokens ----------

    /** The loop over the sessions for a row to mark as seen. */
    method SeeSession(op: Id, now: Time)
      requires RowsUnique(store.Abs().sessions)
      modifies store
      ensures store.Abs() == old(store.Abs()).(sessions := SeenRows(old(store.Abs()).sessions, op, now))
    {
      hide SeenRows, Store.FileState.Abs;
      var rows := store.Abs().sessions;
      var todo := rows.Keys;
      while todo != {}
        invariant todo <= rows.Keys
        invariant forall h :: h in rows && h !in todo ==> rows[h].id != op
        invariant store.Abs() == old(store.Abs())
      {
        SomeElement(todo);
        var h :| h in todo;
        todo := todo - {h};
        if rows[h].id == op {
          OneSeen(rows, h, now);
          store.SaveSession(h, rows[h].(lastSeenAt := now));
          return;
        }
      }
      NoneSeen(rows, op, now);
    }

    method JoinSession(op: Id, client: Id, user: Id, drawnId: Id, now: Time) returns (app: Option<Id>)
      requires RowsUnique(store.Abs().sessions) && AppsUnique(store.Abs().apps)
      modifies store
      ensures var j := TokenEndpoint.JoinSession(old(store.Abs()), op, client, user, drawnId, now);
              if j.Joined? then app == Some(j.app) && store.Abs() == j.state
              else app.None? && store.Abs() == old(store.Abs())
    {
      hide LinkedApp, SeenRows, RowsUnique, AppsUnique, TokenEndpoint.JoinSession, Store.FileState.Abs;
      var s := store.Abs();
      app := FindApp(s.apps, op, client);
      JoinIs(s, op, client, user, drawnId, now);
      if app.Some? {
        store.SaveAppSession(app.value, s.apps[app.value].(lastSeenAt := now));
      } else {
        if |s.apps| >= APP_CAPACITY {
          return;
        }
        app := Some(drawnId);
        store.SaveAppSession(drawnId, App(op, client, user, now, now, None, NotEnded));
      }
      SeeSession(op, now);
    }

    method IssueFromCode(code: Id, c: Code, app: Id, d: Drawing, now: Time) returns (error: Option<Error>)
      modifies store
      ensures Done(old(store.Abs()), TokenEndpoint.IssueFromCode(old(store.Abs()), cfg, code, c, app, d, now),
                   store.Abs(), error)
    {
      hide PruneGrants, RefreshAllowed, Store.FileState.Abs;
      var s := store.Abs();
      var record := c.(consumed := true, retainUntil := Some(now + cfg.accessTokenTtl));
      var family := NONE;
      if OfflineAccess in c.scopes {
        var f := NewFamily(cfg, code, c, c.clientUpdatedAt, now);
        if !RefreshAllowed(s, cfg, f, now) {
          return Some(InvalidGrant);
        }
        family := d.family;
        store.SaveRefreshFamily(family, f);
        store.SaveRefreshToken(d.refresh, Refresh(family, c.scopes, now, false));
        record := record.(retainUntil := Some(f.retainUntil));
      }
      store.SaveAuthorizationCode(code, record);
      store.SaveAccessToken(d.access, CodeToken(cfg, code, c, app, family, now));
      store.PruneOIDCState(now);
      error := None;
    }

    /** The authorization_code grant of `TokenHandler`. A first presentation is honoured exactly if the code can
        be redeemed; then everything it grants is stored, and it is used up. */
    method Exchange(
      client: Id, c: Client, code: Id, redirectUri: Id, challenge: Id, d: Drawing, now: Time)
      returns (error: Option<Error>)
      requires RowsUnique(store.Abs().sessions) && AppsUnique(store.Abs().apps)
      modifies store
      ensures ValidConfig(cfg) && code in old(store.Abs()).codes && !old(store.Abs()).codes[code].consumed ==>
                && (error.None? <==> Redeemable(old(store.Abs()), cfg, client, c, old(store.Abs()).codes[code],
                                                redirectUri, challenge, now))
                && (error.None? && d.app !in old(store.Abs()).apps ==>
                      Exchanged(old(store.Abs()), store.Abs(), cfg, code, d, now))
      ensures Done(old(store.Abs()),
                   TokenEndpoint.Exchange(old(store.Abs()), cfg, client, c, code, redirectUri, challenge, d, now),
                   store.Abs(), error)
    {
      hide TokenEndpoint.IssueFromCode, TokenEndpoint.JoinSession, RevokeForCode, SessionActive, UserHolds, RowsUnique,
           AppsUnique, Store.FileState.Abs, Redeemable, Exchanged, ValidConfig;
      var s := store.Abs();
      if ValidConfig(cfg) && code in s.codes && !s.codes[code].consumed {
        FirstPresentation(s, cfg, client, c, code, redirectUri, challenge, d, now);
      }
      if !Presented(s, client, c, code, redirectUri, challenge) {
        return Some(InvalidGrant);
      }
      var record := s.codes[code];
      if record.consumed {
        store.RevokeAccessTokensForCode(code);
        return None;
      }
      if record.expiresAt <= now || !UserHolds(s, record.userId) {
        return Some(InvalidGrant);
      }
      var sid := NONE;
      if record.opSessionId != NONE {
        if !SessionActive(s, record.opSessionId, now) {
          return Some(InvalidGrant);
        }
        var app := JoinSession(record.opSessionId, client, record.userId, d.app, now);
        if app.None? {
          return Some(CapacityReached);
        }
        sid := app.value;
        record := record.(appSessionId := sid);
      }
      error := IssueFromCode(code, record, sid, d, now);
      if error.Some? {
        store.Rollback(s);
      }
    }

    /** An unused refresh token is honoured exactly if it can be renewed; then it is used up, the next one and an
        access token are stored for the scopes asked for, and the family's idle expiry moves. */
    method RefreshToken(
      client: Id, c: Client, hash: Id, q: RefreshRequest, access: Id, next: Id, now: Time)
      returns (error: Option<Error>)
      modifies store
      ensures (hash in old(store.Abs()).refreshes ==> !old(store.Abs()).refreshes[hash].consumed) ==>
                (error.None? <==> Renewable(old(store.Abs()), cfg, client, c, hash, q, now))
      ensures ValidConfig(cfg) && FamiliesShaped(old(store.Abs()).families, cfg) && hash in old(store.Abs()).refreshes
              && !old(store.Abs()).refreshes[hash].consumed && next != hash && error.None? ==>
                && old(store.Abs()).refreshes[hash].familyId in old(store.Abs()).families
                && Rotates(old(store.Abs()), store.Abs(), cfg, hash,
                           if q.scope.Some? then q.scope.value
                           else old(store.Abs()).refreshes[hash].scopes, access, next,
                           now)
      ensures Done(old(store.Abs()), RefreshStep(old(store.Abs()), cfg, client, c, hash, q, access, next, now),
                   store.Abs(), error)
    {
      hide PruneGrants, RevokeFamily, RefreshFamilyActive, Store.FileState.Abs, Renewable, Rotates, ValidConfig,
           FamiliesShaped;
      var s := store.Abs();
      RenewalIs(s, cfg, client, c, hash, q, access, next, now);
      if !cfg.refreshTokensEnabled {
        return Some(UnsupportedGrant);
      }
      if !RefreshPresented(s, client, c, hash) {
        return Some(RefreshRefusal(s, client, hash));
      }
      var usedUp := s.refreshes[hash];
      var f := s.families[usedUp.familyId];
      if usedUp.consumed {
        store.RevokeRefreshFamily(usedUp.familyId);
        return None;
      }
      if !RefreshFamilyActive(s, f, now) {
        return Some(InvalidGrant);
      }
      if q.resource.Some? && q.resource.value != f.audience {
        return Some(InvalidTarget);
      }
      var scopes := usedUp.scopes;
      if q.scope.Some? {
        scopes := q.scope.value;
        if scopes == [] || !ScopeSubset(scopes, usedUp.scopes) {
          return Some(InvalidScope);
        }
      }
      store.SaveRefreshToken(hash, usedUp.(consumed := true));
      store.SaveRefreshFamily(usedUp.familyId,
                              f.(idleExpiry := MinTime(now + cfg.refreshInactivityTtl, f.absoluteExpiry)));
      store.SaveRefreshToken(next, Refresh(usedUp.familyId, scopes, now, false));
      store.SaveAccessToken(access, RefreshedToken(cfg, client, usedUp.familyId, f, scopes, now));
      store.PruneOIDCState(now);
      error := None;
    }

    /** A token is stored for scopes the client's policy allows; a password token's also within the account's
        entitlements, and only if the password checked before is still the account's. */
    method IssueResourceToken(
      client: Id, c: Client, owner: Option<Owner>, q: ResourceRequest, access: Id, now: Time)
      returns (error: Option<Error>)
      modifies store
      ensures error.None? && 0 < cfg.accessTokenTtl ==>
                && access in store.Abs().tokens
                && var t, s := store.Abs().tokens[access], old(store.Abs());
                && Asked(PolicyOf(s, client), q, t.audience, t.scopes)
                && t.clientId == client && t.issuedAt == now < t.expiresAt && t.opSessionId == NONE && t.scopes != []
                && ScopeSubset(t.scopes, AllowedScopes(PolicyOf(s, client), t.audience))
                && (if owner.None? then t.userId == NONE
                    else t.userId == owner.value.id && OwnerCurrent(s, owner.value)
                         && ScopeSubset(t.scopes, EntitledScopes(AccessOf(s, t.userId), t.audience)))
      ensures Done(old(store.Abs()), IssueResource(old(store.Abs()), cfg, client, c, owner, q, access, now),
                   store.Abs(), error)
    {
      hide PruneGrants, ResourceGrant, OwnerCurrent, ScopeSubset, AllowedScopes, EntitledScopes, Store.FileState.Abs;
      hide Asked, Permitted, GrantOpen, OnlyNewKey;
      if 0 < cfg.accessTokenTtl {
        ResourceYields(store.Abs(), cfg, client, c, owner, q, access, now);
      }
      var grant := if owner.Some? then PasswordGrant else ClientCredentials;
      var user := if owner.Some? then owner.value.id else NONE;
      if owner.Some? && !cfg.passwordGrantEnabled {
        return Some(UnsupportedGrant);
      }
      if c.metadata.auth == NoAuth || grant !in c.metadata.grants {
        return Some(UnauthorizedClient);
      }
      var s := store.Abs();
      if client !in s.clients {
        return Some(NotFound);
      }
      if s.clients[client].updatedAt != c.updatedAt {
        return Some(InvalidGrant);
      }
      if owner.Some? && !OwnerCurrent(s, owner.value) {
        return Some(InvalidGrant);
      }
      var g := ResourceGrant(s, cfg, client, grant, q, user);
      if g.Refused? {
        return Some(g.error);
      }
      AllowedScopesOnly(s, cfg, client, grant, q, user);
      store.SaveAccessToken(access, ResourceToken(cfg, client, grant, user, g.audience, g.scopes, now));
      PruneKeeps(store.Abs(), access, now);
      store.PruneOIDCState(now);
      error := None;
    }

    /** Afterwards the client's own token, or the family of its own refresh token, is revoked; a credential of
        another client or an unknown one changes nothing, and the caller cannot tell. */
    method Revoke(client: Id, c: Client, hash: Id) returns (error: Option<Error>)
      modifies store
      ensures error.None? <==>
                client in old(store.Abs()).clients && old(store.Abs()).clients[client].updatedAt == c.updatedAt
      ensures error.None? && hash in old(store.Abs()).tokens ==>
                if old(store.Abs()).tokens[hash].clientId == client then
                  hash in store.Abs().tokens && store.Abs().tokens[hash].revoked
                else store.Abs() == old(store.Abs())
      ensures error.None? && hash !in old(store.Abs()).tokens && hash in old(store.Abs()).refreshes ==>
                var f := old(store.Abs()).refreshes[hash].familyId;
                if f in old(store.Abs()).families && old(store.Abs()).families[f].clientId == client
                then f in store.Abs().families && store.Abs().families[f].revoked
                else store.Abs() == old(store.Abs())
      ensures Done(old(store.Abs()), TokenEndpoint.Revoke(old(store.Abs()), client, c, hash), store.Abs(), error)
    {
      hide TokensRevoked, FamiliesRevoked, Store.FileState.Abs;
      var s := store.Abs();
      if client !in s.clients {
        return Some(NotFound);
      }
      if s.clients[client].updatedAt != c.updatedAt {
        return Some(InvalidClient);
      }
      if hash in s.tokens {
        if s.tokens[hash].clientId == client {
          store.RevokeAccessToken(hash);
          TokenFlagStored(s.tokens, hash);
        }
      } else if hash in s.refreshes {
        var family := s.refreshes[hash].familyId;
        if family in s.families && s.families[family].clientId == client {
          store.RevokeRefreshFamily(family);
          FamilyFlagStored(s.families, family);
        }
      }
      error := None;
    }

    // ---------- Logout in the browser ----------

    /** The interaction is stored, and there are never more than 10000. */
    method PrepareLogout(id: Id, v: Interaction, now: Time) returns (error: Option<Error>)
      modifies store
      ensures error.None? ==> id in store.Abs().interactions && store.Abs().interactions[id] == v
      ensures error.None? ==> |store.Abs().interactions| <= Logouts.INTERACTION_CAPACITY
      ensures Done(old(store.Abs()), Logouts.PrepareLogout(old(store.Abs()), id, v, now), store.Abs(), error)
    {
      hide PruneLogoutState, Store.FileState.Abs;
      var s := store.Abs();
      store.PruneLogoutState(now);
      if |store.Abs().interactions| >= Logouts.INTERACTION_CAPACITY {
        store.Rollback(s);
        return Some(CapacityReached);
      }
      store.SaveLogoutInteraction(id, v);
      error := None;
    }

    /** Binds the copy the handler read to the session now signed in; nothing else of it changes. */
    method BindLogout(id: Id, copy: Interaction, session: Id, user: Id) returns (error: Option<Error>)
      modifies store
      ensures error.None? ==> store.Abs() == old(store.Abs()).(interactions := store.Abs().interactions)
      ensures error.None? ==>
                && copy.opSessionId == NONE && !copy.completed && id in store.Abs().interactions
                && var v := store.Abs().interactions[id];
                && v.opSessionId == session && v.userId == user && v == copy.(opSessionId := session, userId := user)
                && store.Abs().interactions - {id} == old(store.Abs()).interactions - {id}
      ensures error.None? <==> copy.opSessionId == NONE && !copy.completed
      ensures Done(old(store.Abs()), Logouts.BindLogout(old(store.Abs()), id, copy, session, user), store.Abs(), error)
    {
      hide Store.FileState.Abs;
      if copy.opSessionId != NONE || copy.completed {
        return Some(Invalid);
      }
      store.SaveLogoutInteraction(id, copy.(opSessionId := session, userId := user));
      error := None;
    }

    /** The interaction cannot be confirmed any more. */
    method CancelLogout(id: Id, copy: Interaction, now: Time) returns (error: Option<Error>)
      modifies store
      ensures forall v, at :: now <= at ==> Logouts.ConfirmLogout(store.Abs(), id, v, at) == Denied(Unauthorized)
      ensures Done(old(store.Abs()), Logouts.CancelLogout(old(store.Abs()), id, copy, now), store.Abs(), error)
    {
      hide Store.FileState.Abs, EndSessions;
      store.SaveLogoutInteraction(id, copy.(expiresAt := now));
      error := None;
    }

    /** `v` is the copy the handler read before this transaction. The session it is bound to is over, and the
        interaction cannot be confirmed again. */
    method ConfirmLogout(id: Id, v: Interaction, now: Time) returns (error: Option<Error>)
      modifies store
      ensures error.None? ==> id in store.Abs().interactions && store.Abs().interactions[id].completed
      ensures error.None? && v.opSessionId != NONE ==> SessionOver(store.Abs().sessions, v.opSessionId)
      ensures error.None? ==>
                if v.opSessionId == NONE then store.Abs().sessions == old(store.Abs()).sessions
                else OnlyEnded(old(store.Abs()).sessions, store.Abs().sessions, {v.opSessionId}, BrowserLogout, now)
      ensures Done(old(store.Abs()), Logouts.ConfirmLogout(old(store.Abs()), id, v, now), store.Abs(), error)
    {
      hide EndSessions, SessionOver, OnlyEnded, Store.FileState.Abs;
      var s := store.Abs();
      EndSessionsOnly(s, {v.opSessionId}, BrowserLogout, now);
      if id !in s.interactions || s.interactions[id].completed || s.interactions[id].expiresAt <= now {
        return Some(Unauthorized);
      }
      if v.opSessionId != NONE {
        store.EndSession(v.opSessionId, BrowserLogout, now);
        Logouts.EndKeepsInteractions(s, {v.opSessionId}, BrowserLogout, now);
        EndedOver(s, v.opSessionId, BrowserLogout, now);
      }
      store.SaveLogoutInteraction(id, s.interactions[id].(completed := true));
      error := None;
    }

    /** The loop that hands front-channel notices to the page being rendered; a page rendered again gets none. */
    method RenderLogout(v: Interaction, framable: set<Id>, now: Time) returns (error: Option<Error>)
      modifies store
      ensures error.None? && store.Abs() == old(store.Abs()).(deliveries := store.Abs().deliveries)
      ensures Logouts.Paged(old(store.Abs()), store.Abs(), v, framable, now)
      ensures forall later :: Logouts.RenderLogout(store.Abs(), v, framable, later) == Committed(store.Abs())
      ensures Done(old(store.Abs()), Logouts.RenderLogout(old(store.Abs()), v, framable, now), store.Abs(), error)
    {
      hide Store.FileState.Abs, Logouts.Framed, Logouts.RenderLogout, Logouts.Paged;
      var s := store.Abs();
      Logouts.FramesExactly(s, v, framable, now);
      Logouts.RenderIs(s, v, framable, now);
      var todo := s.deliveries.Keys;
      while todo != {}
        invariant todo <= s.deliveries.Keys
        invariant store.Abs() == s.(deliveries := store.Abs().deliveries)
                  && store.Abs().deliveries.Keys == s.deliveries.Keys
        invariant forall id <- s.deliveries ::
                    store.Abs().deliveries[id] == if id in todo then s.deliveries[id]
                                                  else Logouts.Framed(s.clients, v, framable, id, s.deliveries[id], now)
      {
        var id :| id in todo;
        todo := todo - {id};
        var d := Logouts.Framed(s.clients, v, framable, id, s.deliveries[id], now);
        store.SaveLogoutDelivery(id, d);
      }
      assert store.Abs().deliveries == Logouts.Frontchannels(s, v, framable, now);
      assert store.Abs() == Logouts.RenderLogout(s, v, framable, now).state;
      error := None;
    }

    // ---------- The outbox worker ----------

    /** The transaction that takes a lease; `order` is the sorted list of deliveries after the sweep. */
    method AcquireLease(
      order: seq<DeliveryId>, op: Id, client: Id, lease: Id, now: Time)
      returns (job: Option<DeliveryId>)
      requires Sorted(PruneLogoutState(store.Abs(), now).deliveries, order)
      modifies store
      ensures Done(old(store.Abs()), Deliveries.AcquireStep(old(store.Abs()), order, op, client, lease, now),
                   store.Abs(), None)
      ensures var m := PruneLogoutState(old(store.Abs()), now);
              job == Acquire(m.deliveries, m.clients, order, op, client, lease, now).job
    {
      hide PruneLogoutState, Store.FileState.Abs, Judge, Judged, Acquire;
      store.PruneLogoutState(now);
      var m := store.Abs();
      var ds := m.deliveries;
      ghost var pass := Acquire(ds, m.clients, order, op, client, lease, now);
      var i := 0;
      job := None;
      assert order[0..] == order;
      while i < |order| && job.None?
        invariant 0 <= i <= |order|
        invariant store.Abs() == m.(deliveries := ds) && forall id <- order :: id in ds
        invariant pass == if job.None? then Acquire(ds, m.clients, order[i..], op, client, lease, now)
                          else Pass(ds, job)
      {
        var id := order[i];
        var v := Judge(m.clients, id, ds[id], op, client, now);
        AcquireFirst(ds, m.clients, order, i, op, client, lease, now);
        ds := ds[id := Judged(ds[id], v, lease, now)];
        store.SaveLogoutDelivery(id, ds[id]);
        if v == Grant {
          job := Some(id);
        }
        i := i + 1;
      }
      AcquireLast(ds, m.clients, op, client, lease, now);
      assert job.None? ==> order[i..] == [];
    }

    /** The transaction that records an answer, if the lease still holds the delivery. Afterwards it does not,
        and no other delivery changed. */
    method RecordResult(id: DeliveryId, lease: Id, a: Answer, now: Time) returns (error: Option<Error>)
      modifies store
      ensures lease != NONE ==> !Holds(store.Abs().deliveries, id, lease)
      ensures forall k :: k != id ==> (k in store.Abs().deliveries <==> k in old(store.Abs()).deliveries)
      ensures forall k <- old(store.Abs()).deliveries :: k != id && k in store.Abs().deliveries ==>
                store.Abs().deliveries[k] == old(store.Abs()).deliveries[k]
      ensures Done(old(store.Abs()), Deliveries.RecordStep(old(store.Abs()), id, lease, a, now), store.Abs(), error)
    {
      hide Store.FileState.Abs, RetryDelay, LastOf;
      var ds := store.Abs().deliveries;
      if id in ds && ds[id].leaseId == lease {
        store.SaveLogoutDelivery(id, Recorded(ds[id], a, now));
      }
      error := None;
    }
  }

  lemma PruneKeeps(s: State, h: Id, now: Time)
    requires h in s.tokens
    ensures now < s.tokens[h].expiresAt ==>
              h in PruneGrants(s, now).tokens && PruneGrants(s, now).tokens[h] == s.tokens[h]
  {
  }

  lemma TokenFlagStored(tokens: map<Id, Token>, h: Id)
    requires h in tokens
    ensures forall families ::
              h in TokensRevoked(tokens, families, {h}) && TokensRevoked(tokens, families, {h})[h].revoked
  {
  }

  lemma FamilyFlagStored(families: map<Id, Family>, f: Id)
    requires f in families
    ensures f in FamiliesRevoked(families, {f}) && FamiliesRevoked(families, {f})[f].revoked
  {
  }

  lemma TxnStored(s: State, txn: Id, binding: Id, now: Time)
    requires TxnOpen(s, txn, binding, now)
    ensures txn in s.txns
  {
  }

  /** The loop over the app sessions for the live one of this session and client, if there is one. */
  method FindApp(apps: map<Id, App>, op: Id, client: Id) returns (app: Option<Id>)
    requires AppsUnique(apps)
    ensures app == LinkedApp(apps, op, client) && (app.Some? ==> app.value in apps)
  {
    hide LinkedApp, AppsUnique;
    var todo := apps.Keys;
    while todo != {}
      invariant todo <= apps.Keys
      invariant forall a :: a in apps && a !in todo ==> !IsLinked(apps, a, op, client)
    {
      SomeElement(todo);
      var a :| a in todo;
      todo := todo - {a};
      if apps[a].opSessionId == op && apps[a].clientId == client && apps[a].endedAt.None? {
        OneLinked(apps, a, op, client);
        return Some(a);
      }
    }
    NoneLinked(apps, op, client);
    app := None;
  }

  lemma OneLinked(apps: map<Id, App>, a: Id, op: Id, client: Id)
    requires AppsUnique(apps) && IsLinked(apps, a, op, client)
    ensures LinkedApp(apps, op, client) == Some(a)
  {
  }

  lemma NoneLinked(apps: map<Id, App>, op: Id, client: Id)
    requires forall a <- apps :: !IsLinked(apps, a, op, client)
    ensures LinkedApp(apps, op, client) == None
  {
  }

  lemma JoinIs(s: State, op: Id, client: Id, user: Id, drawnId: Id, now: Time)
    ensures var linked := LinkedApp(s.apps, op, client);
            linked.None? || linked.value in s.apps
    ensures var linked := LinkedApp(s.apps, op, client);
            TokenEndpoint.JoinSession(s, op, client, user, drawnId, now) ==
              if linked.Some? then
                Joined(s.(apps := s.apps[linked.value := s.apps[linked.value].(lastSeenAt := now)],
                          sessions := SeenRows(s.sessions, op, now)),
                       linked.value)
              else if |s.apps| >= APP_CAPACITY then Full
              else Joined(s.(apps := s.apps[drawnId := App(op, client, user, now, now, None, NotEnded)],
                             sessions := SeenRows(s.sessions, op, now)),
                          drawnId)
  {
  }

  lemma OneSeen(rows: map<Id, Session>, h: Id, now: Time)
    requires RowsUnique(rows) && h in rows
    ensures SeenRows(rows, rows[h].id, now) == rows[h := rows[h].(lastSeenAt := now)]
  {
    var seen := rows[h := rows[h].(lastSeenAt := now)];
    forall k | k in rows ensures SeenRows(rows, rows[h].id, now)[k] == seen[k] {
      assert rows[k].id == rows[h].id ==> k == h;
    }
  }

  lemma NoneSeen(rows: map<Id, Session>, op: Id, now: Time)
    requires forall h <- rows :: rows[h].id != op
    ensures SeenRows(rows, op, now) == rows
  {
    forall k | k in rows ensures SeenRows(rows, op, now)[k] == rows[k] {}
  }

  lemma AcquireFirst(
    ds: map<DeliveryId, Delivery>, clients: map<Id, Client>, order: seq<DeliveryId>, i: nat, op: Id, client: Id,
    lease: Id, now: Time)
    requires i < |order| && forall id <- order :: id in ds
    ensures var v := Judge(clients, order[i], ds[order[i]], op, client, now);
            var ds1 := ds[order[i] := Judged(ds[order[i]], v, lease, now)];
            Acquire(ds, clients, order[i..], op, client, lease, now) ==
              if v == Grant then Pass(ds1, Some(order[i]))
              else Acquire(ds1, clients, order[i + 1..], op, client, lease, now)
  {
  }

  lemma AcquireLast(ds: map<DeliveryId, Delivery>, clients: map<Id, Client>, op: Id, client: Id, lease: Id, now: Time)
    ensures Acquire(ds, clients, [], op, client, lease, now) == Pass(ds, None)
  {
  }
}
