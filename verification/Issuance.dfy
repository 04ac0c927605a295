/** What the token endpoint issues: when each grant commits, what it stores, and what it leaves alone. */
module Issuance {
  import opened Records
  import opened Validity
  import opened Cascades
  import opened Invariants
  import opened Steps
  import opened TokenEndpoint

  // ---------- The authorization code grant ----------

  /** Configuration, policy, metadata and consent allow the code's client a refresh family for its scopes. */
  predicate OfflineAllowed(s: State, cfg: Config, c: Code) {
    var k := ConsentKey(c.userId, c.clientId);
    && cfg.refreshTokensEnabled && c.clientId in s.clients
    && PolicyOf(s, c.clientId).refreshEnabled && RefreshGrant in PolicyOf(s, c.clientId).grants
    && RefreshGrant in s.clients[c.clientId].metadata.grants
    && k in s.consents && !s.consents[k].revoked && s.consents[k].policyRevision == c.clientUpdatedAt
    && ScopeSubset(c.scopes, s.consents[k].scopes)
  }

  /** The session has room for this client's app session, or has one. */
  ghost predicate CanJoin(s: State, op: Id, client: Id) {
    || |s.apps| < APP_CAPACITY
    || exists a :: a in s.apps && s.apps[a].opSessionId == op && s.apps[a].clientId == client && s.apps[a].endedAt.None?
  }

  lemma AllowedIs(s: State, cfg: Config, code: Id, c: Code, now: Time)
    requires ValidConfig(cfg) && c.clientId in s.clients && s.clients[c.clientId].updatedAt == c.clientUpdatedAt
    requires UserHolds(s, c.userId) && OfflineAccess in c.scopes
    ensures RefreshAllowed(s, cfg, NewFamily(cfg, code, c, c.clientUpdatedAt, now), now) <==> OfflineAllowed(s, cfg, c)
  {
  }

  lemma JoinOutcome(s: State, op: Id, client: Id, user: Id, drawnId: Id, now: Time)
    ensures JoinSession(s, op, client, user, drawnId, now).Joined? <==> CanJoin(s, op, client)
    ensures var j := JoinSession(s, op, client, user, drawnId, now);
            j.Joined? ==> j.state == s.(apps := j.state.apps, sessions := j.state.sessions)
  {
    assert forall a :: IsLinked(s.apps, a, op, client) <==>
                         a in s.apps && s.apps[a].opSessionId == op && s.apps[a].clientId == client
                         && s.apps[a].endedAt.None?;
    hide SeenRows;
  }

  /** The code is this client's, unrevoked, unexpired and bound to this redirect URI and verifier; the client's
      record is the one it was issued under; its account is active; its session, if any, is active and has room;
      and, for offline access, a refresh family is allowed. */
  ghost predicate Redeemable(
    s: State, cfg: Config, client: Id, c: Client, record: Code, redirectUri: Id, challenge: Id, now: Time)
  {
    && !record.revoked && now < record.expiresAt
    && record.clientId == client && record.redirectUri == redirectUri && record.codeChallenge == challenge
    && client in s.clients && s.clients[client].metadata.compatible
    && s.clients[client].updatedAt == c.updatedAt == record.clientUpdatedAt
    && record.userId in s.users && s.users[record.userId].active
    && (record.opSessionId != NONE ==>
          SessionActive(s, record.opSessionId, now) && CanJoin(s, record.opSessionId, client))
    && (OfflineAccess in record.scopes ==> OfflineAllowed(s, cfg, record))
  }

  /** The first presentation of a code is honoured exactly if it can be redeemed. */
  lemma ExchangeCommits(
    s: State, cfg: Config, client: Id, c: Client, code: Id, redirectUri: Id, challenge: Id, d: Drawing, now: Time)
    requires ValidConfig(cfg) && code in s.codes && !s.codes[code].consumed
    ensures Exchange(s, cfg, client, c, code, redirectUri, challenge, d, now).Committed? <==>
              Redeemable(s, cfg, client, c, s.codes[code], redirectUri, challenge, now)
  {
    hide JoinSession, CanJoin, SessionActive, RefreshAllowed, OfflineAllowed, NewFamily, CodeToken, PruneGrants;
    var record := s.codes[code];
    if record.opSessionId != NONE {
      JoinOutcome(s, record.opSessionId, client, record.userId, d.app, now);
      var j := JoinSession(s, record.opSessionId, client, record.userId, d.app, now);
      if j.Joined? {
        AllowedFrame(s, j.state, cfg, record);
        if AllowedTo(s, record) && OfflineAccess in record.scopes {
          AllowedIs(j.state, cfg, code, record.(appSessionId := j.app), now);
        }
      }
    } else if AllowedTo(s, record) && OfflineAccess in record.scopes {
      AllowedIs(s, cfg, code, record, now);
    }
  }

  predicate AllowedTo(s: State, c: Code) {
    c.clientId in s.clients && s.clients[c.clientId].updatedAt == c.clientUpdatedAt && UserHolds(s, c.userId)
  }

  lemma AllowedFrame(s: State, r: State, cfg: Config, c: Code)
    requires r == s.(apps := r.apps, sessions := r.sessions)
    ensures forall app :: OfflineAllowed(r, cfg, c.(appSessionId := app)) == OfflineAllowed(s, cfg, c)
    ensures UserHolds(r, c.userId) == UserHolds(s, c.userId)
  {
  }

  /** The access token of a code: its client, account, scopes and session, for the provider's own audience, for
      the configured lifetime, and backed by the family if there is one. */
  predicate AccessTokenOf(t: Token, cfg: Config, code: Id, c: Code, app: Id, family: Id, now: Time) {
    && t.clientId == c.clientId && t.userId == c.userId && t.scopes == c.scopes && t.codeHash == code
    && t.opSessionId == c.opSessionId && t.appSessionId == app && t.familyId == family
    && t.grantType == AuthorizationCode && t.subjectKind == UserSubject && t.audience == UserInfo
    && t.issuedAt == now && t.expiresAt == now + cfg.accessTokenTtl && !t.revoked
  }

  /** The family of a code: its client, account, scopes and authentication time, at the revision it was issued
      under, idle after the inactivity limit and over after the absolute one. */
  predicate FamilyOf(f: Family, cfg: Config, code: Id, c: Code, now: Time) {
    && f.clientId == c.clientId && f.userId == c.userId && f.scopes == c.scopes && f.authTime == c.authTime
    && f.codeHash == code && f.opSessionId == c.opSessionId && f.appSessionId == c.appSessionId
    && f.audience == UserInfo
    && f.clientRevision == c.clientUpdatedAt && f.createdAt == now && !f.revoked
    && f.absoluteExpiry == now + cfg.refreshMaxTtl && f.idleExpiry == now + cfg.refreshInactivityTtl
    && f.retainUntil == now + cfg.refreshMaxTtl + cfg.accessTokenTtl
  }

  /** The records filed under other keys are old ones. */
  ghost predicate OnlyNewKey<V>(before: map<Id, V>, after: map<Id, V>, id: Id) {
    forall k :: k in after && k != id ==> k in before && after[k] == before[k]
  }

  /** What a code yields: an access token; with offline access also a family and its first refresh token, which
      otherwise do not appear; and the code is used up and kept as long as what came from it. */
  ghost predicate Yields(s: State, r: State, cfg: Config, code: Id, c: Code, app: Id, d: Drawing, now: Time) {
    var offline := OfflineAccess in c.scopes;
    && d.access in r.tokens
    && AccessTokenOf(r.tokens[d.access], cfg, code, c, app, if offline then d.family else NONE, now)
    && OnlyNewKey(s.tokens, r.tokens, d.access)
    && (if offline then
          && d.family in r.families && FamilyOf(r.families[d.family], cfg, code, c, now)
          && d.refresh in r.refreshes && r.refreshes[d.refresh] == Refresh(d.family, c.scopes, now, false)
          && OnlyNewKey(s.families, r.families, d.family) && OnlyNewKey(s.refreshes, r.refreshes, d.refresh)
        else
          && (forall f :: f in r.families ==> f in s.families && r.families[f] == s.families[f])
          && (forall h :: h in r.refreshes ==> h in s.refreshes && r.refreshes[h] == s.refreshes[h]))
    && code in r.codes
    && r.codes[code] == c.(consumed := true,
                           retainUntil := Some(now + cfg.accessTokenTtl + if offline then cfg.refreshMaxTtl else 0))
    && OnlyNewKey(s.codes, r.codes, code)
    && r == s.(tokens := r.tokens, families := r.families, refreshes := r.refreshes, codes := r.codes, txns := r.txns)
  }

  /** The store before it is pruned. */
  ghost function CodeUsed(s: State, cfg: Config, code: Id, c: Code, app: Id, d: Drawing, now: Time): State {
    var offline := OfflineAccess in c.scopes;
    var f := NewFamily(cfg, code, c, c.clientUpdatedAt, now);
    var until := Some(if offline then f.retainUntil else now + cfg.accessTokenTtl);
    s.(codes := s.codes[code := c.(consumed := true, retainUntil := until)],
       families := if offline then s.families[d.family := f] else s.families,
       refreshes := if offline then s.refreshes[d.refresh := Refresh(d.family, c.scopes, now, false)] else s.refreshes,
       tokens := s.tokens[d.access := CodeToken(cfg, code, c, app, if offline then d.family else NONE, now)])
  }

  lemma IssueUses(s: State, r: State, cfg: Config, code: Id, c: Code, app: Id, d: Drawing, now: Time)
    requires IssueFromCode(s, cfg, code, c, app, d, now) == Committed(r)
    ensures r == PruneGrants(CodeUsed(s, cfg, code, c, app, d, now), now)
  {
    hide PruneGrants;
  }

  lemma UsedYields(s: State, cfg: Config, code: Id, c: Code, app: Id, d: Drawing, now: Time)
    ensures Yields(s, CodeUsed(s, cfg, code, c, app, d, now), cfg, code, c, app, d, now)
  {
  }

  /** Pruning takes nothing that was just issued. */
  lemma PruneYields(s: State, m: State, cfg: Config, code: Id, c: Code, app: Id, d: Drawing, now: Time)
    requires ValidConfig(cfg) && now < c.expiresAt && Yields(s, m, cfg, code, c, app, d, now)
    ensures Yields(s, PruneGrants(m, now), cfg, code, c, app, d, now)
  {
  }

  lemma CodeYields(s: State, r: State, cfg: Config, code: Id, c: Code, app: Id, d: Drawing, now: Time)
    requires ValidConfig(cfg) && now < c.expiresAt
    requires IssueFromCode(s, cfg, code, c, app, d, now) == Committed(r)
    ensures Yields(s, r, cfg, code, c, app, d, now)
  {
    hide IssueFromCode, CodeUsed, Yields, PruneGrants;
    IssueUses(s, r, cfg, code, c, app, d, now);
    UsedYields(s, cfg, code, c, app, d, now);
    PruneYields(s, CodeUsed(s, cfg, code, c, app, d, now), cfg, code, c, app, d, now);
  }

  /** The session is marked seen and its one live app session with the client is used, or a new one started;
      no other changes. */
  ghost predicate Joins(s: State, m: State, c: Code, app: Id, drawnId: Id, now: Time) {
    && (if app in s.apps then
          && s.apps[app].opSessionId == c.opSessionId && s.apps[app].clientId == c.clientId
          && s.apps[app].endedAt.None? && m.apps == s.apps[app := s.apps[app].(lastSeenAt := now)]
        else
          app == drawnId && m.apps == s.apps[app := App(c.opSessionId, c.clientId, c.userId, now, now, None, NotEnded)])
    && m.sessions.Keys == s.sessions.Keys
    && forall h <- s.sessions ::
         m.sessions[h] == if s.sessions[h].id == c.opSessionId then s.sessions[h].(lastSeenAt := now) else s.sessions[h]
  }

  lemma JoinJoins(s: State, c: Code, drawnId: Id, now: Time)
    requires JoinSession(s, c.opSessionId, c.clientId, c.userId, drawnId, now).Joined? && drawnId !in s.apps
    ensures var j := JoinSession(s, c.opSessionId, c.clientId, c.userId, drawnId, now);
            Joins(s, j.state, c, j.app, drawnId, now)
  {
  }

  lemma YieldsFrame(s: State, r: State, cfg: Config, code: Id, c: Code, app: Id, d: Drawing, now: Time)
    requires Yields(s, r, cfg, code, c, app, d, now)
    ensures r.apps == s.apps && r.sessions == s.sessions
    ensures d.access in r.tokens && r.tokens[d.access].appSessionId == app
  {
  }

  lemma ExchangeIs(
    s: State, cfg: Config, client: Id, c: Client, code: Id, redirectUri: Id, challenge: Id, d: Drawing, now: Time)
    requires code in s.codes && !s.codes[code].consumed
    requires Exchange(s, cfg, client, c, code, redirectUri, challenge, d, now).Committed?
    ensures var record := s.codes[code];
            var o := Exchange(s, cfg, client, c, code, redirectUri, challenge, d, now);
            && record.clientId == client && now < record.expiresAt
            && if record.opSessionId == NONE then o == IssueFromCode(s, cfg, code, record, NONE, d, now)
               else
                 var j := JoinSession(s, record.opSessionId, client, record.userId, d.app, now);
                 j.Joined? && o == IssueFromCode(j.state, cfg, code, record.(appSessionId := j.app), j.app, d, now)
  {
    hide IssueFromCode, JoinSession, SessionActive, UserHolds;
  }

  /** Everything the code grants is stored, under the app session it joined. */
  ghost predicate Exchanged(s: State, r: State, cfg: Config, code: Id, d: Drawing, now: Time)
    requires code in s.codes
  {
    var record := s.codes[code];
    var m := s.(apps := r.apps, sessions := r.sessions);
    && d.access in r.tokens
    && var app := r.tokens[d.access].appSessionId;
    if record.opSessionId == NONE then
      app == NONE && m == s && Yields(m, r, cfg, code, record, app, d, now)
    else
      Joins(s, m, record, app, d.app, now) && Yields(m, r, cfg, code, record.(appSessionId := app), app, d, now)
  }

  /** A first presentation that is honoured yields everything the code grants. */
  lemma ExchangeYields(
    s: State, cfg: Config, client: Id, c: Client, code: Id, redirectUri: Id, challenge: Id, d: Drawing, now: Time)
    requires ValidConfig(cfg) && code in s.codes && !s.codes[code].consumed && d.app !in s.apps
    requires Exchange(s, cfg, client, c, code, redirectUri, challenge, d, now).Committed?
    ensures Exchanged(s, Exchange(s, cfg, client, c, code, redirectUri, challenge, d, now).state, cfg, code, d, now)
  {
    hide Exchange, IssueFromCode, JoinSession, Joins, Yields;
    ExchangeIs(s, cfg, client, c, code, redirectUri, challenge, d, now);
    var r := Exchange(s, cfg, client, c, code, redirectUri, challenge, d, now).state;
    var record := s.codes[code];
    if record.opSessionId == NONE {
      CodeYields(s, r, cfg, code, record, NONE, d, now);
      YieldsFrame(s, r, cfg, code, record, NONE, d, now);
    } else {
      var j := JoinSession(s, record.opSessionId, client, record.userId, d.app, now);
      JoinOutcome(s, record.opSessionId, client, record.userId, d.app, now);
      assert record.(appSessionId := j.app).expiresAt == record.expiresAt;
      JoinJoins(s, record, d.app, now);
      CodeYields(j.state, r, cfg, code, record.(appSessionId := j.app), j.app, d, now);
      YieldsFrame(j.state, r, cfg, code, record.(appSessionId := j.app), j.app, d, now);
    }
  }

  /** A first presentation is honoured exactly if the code can be redeemed, and then yields all it grants. */
  lemma FirstPresentation(
    s: State, cfg: Config, client: Id, c: Client, code: Id, redirectUri: Id, challenge: Id, d: Drawing, now: Time)
    requires ValidConfig(cfg) && code in s.codes && !s.codes[code].consumed
    ensures var o := Exchange(s, cfg, client, c, code, redirectUri, challenge, d, now);
            && (o.Committed? <==> Redeemable(s, cfg, client, c, s.codes[code], redirectUri, challenge, now))
            && (o.Committed? && d.app !in s.apps ==> Exchanged(s, o.state, cfg, code, d, now))
  {
    hide Exchange, Redeemable, Exchanged;
    ExchangeCommits(s, cfg, client, c, code, redirectUri, challenge, d, now);
    var o := Exchange(s, cfg, client, c, code, redirectUri, challenge, d, now);
    if o.Committed? && d.app !in s.apps {
      ExchangeYields(s, cfg, client, c, code, redirectUri, challenge, d, now);
    }
  }

  // ---------- The refresh grant ----------

  /** Refresh tokens are on, this one is of a family of this client at its current revision, the family is
      active, and what is asked for is the family's audience and scopes of the token. */
  predicate Renewable(s: State, cfg: Config, client: Id, c: Client, hash: Id, q: RefreshRequest, now: Time) {
    && cfg.refreshTokensEnabled && hash in s.refreshes && s.refreshes[hash].familyId in s.families
    && var f := s.families[s.refreshes[hash].familyId];
    && f.clientId == client && client in s.clients && s.clients[client].updatedAt == c.updatedAt
    && RefreshFamilyActive(s, f, now)
    && (q.resource.None? || q.resource.value == f.audience)
    && (q.scope.None? || (q.scope.value != [] && ScopeSubset(q.scope.value, s.refreshes[hash].scopes)))
  }

  /** An unused refresh token is honoured exactly if it can be renewed. */
  lemma RefreshCommits(
    s: State, cfg: Config, client: Id, c: Client, hash: Id, q: RefreshRequest, access: Id, next: Id, now: Time)
    requires hash in s.refreshes ==> !s.refreshes[hash].consumed
    ensures RefreshStep(s, cfg, client, c, hash, q, access, next, now).Committed? <==>
              Renewable(s, cfg, client, c, hash, q, now)
  {
    hide Rotate, RefreshFamilyActive, ScopeSubset;
  }

  /** The access token of a rotation: the family's client, account, audience, code and sessions, for the scopes
      given, for the configured lifetime. */
  predicate RefreshedOf(t: Token, cfg: Config, family: Id, f: Family, scopes: seq<Scope>, now: Time) {
    && t.clientId == f.clientId && t.userId == f.userId && t.audience == f.audience && t.codeHash == f.codeHash
    && t.opSessionId == f.opSessionId && t.appSessionId == f.appSessionId && t.familyId == family
    && t.scopes == scopes && t.grantType == RefreshGrant && t.originalGrant == AuthorizationCode
    && t.subjectKind == UserSubject && t.issuedAt == now && t.expiresAt == now + cfg.accessTokenTtl && !t.revoked
  }

  /** What a rotation stores. */
  ghost predicate Rotates(
    s: State, r: State, cfg: Config, hash: Id, scopes: seq<Scope>, access: Id, next: Id, now: Time)
    requires hash in s.refreshes && s.refreshes[hash].familyId in s.families
  {
    var family := s.refreshes[hash].familyId;
    var f := s.families[family];
    var idle := now + cfg.refreshInactivityTtl;
    && access in r.tokens && RefreshedOf(r.tokens[access], cfg, family, f, scopes, now)
    && OnlyNewKey(s.tokens, r.tokens, access)
    && next in r.refreshes && r.refreshes[next] == Refresh(family, scopes, now, false)
    && hash in r.refreshes && r.refreshes[hash] == s.refreshes[hash].(consumed := true)
    && (forall k :: k in r.refreshes && k != next && k != hash ==> k in s.refreshes && r.refreshes[k] == s.refreshes[k])
    && family in r.families
    && r.families[family] == f.(idleExpiry := if idle <= f.absoluteExpiry then idle else f.absoluteExpiry)
    && OnlyNewKey(s.families, r.families, family)
    && r == s.(tokens := r.tokens, families := r.families, refreshes := r.refreshes, codes := r.codes, txns := r.txns)
    && (forall k :: k in r.codes ==> k in s.codes && r.codes[k] == s.codes[k])
  }

  /** A rotation yields an access token and the next refresh token for the requested scopes, or the presented
      token's if none are requested; it uses the presented token up and moves the idle expiry. */
  lemma RefreshYields(
    s: State, cfg: Config, client: Id, c: Client, hash: Id, q: RefreshRequest, access: Id, next: Id, now: Time)
    requires ValidConfig(cfg) && FamiliesShaped(s.families, cfg)
    requires hash in s.refreshes && !s.refreshes[hash].consumed && next != hash
    requires RefreshStep(s, cfg, client, c, hash, q, access, next, now).Committed?
    ensures s.refreshes[hash].familyId in s.families
    ensures Rotates(s, RefreshStep(s, cfg, client, c, hash, q, access, next, now).state, cfg, hash,
                    if q.scope.Some? then q.scope.value else s.refreshes[hash].scopes, access, next, now)
  {
    RefreshCommits(s, cfg, client, c, hash, q, access, next, now);
    var f := s.families[s.refreshes[hash].familyId];
    assert FamilyShape(f, cfg) && now < f.absoluteExpiry;
    hide FamiliesShaped, RefreshFamilyActive, Rotates, Rotate;
    var scopes := if q.scope.Some? then q.scope.value else s.refreshes[hash].scopes;
    RotateRotates(s, cfg, hash, scopes, access, next, now);
  }

  lemma RenewalIs(
    s: State, cfg: Config, client: Id, c: Client, hash: Id, q: RefreshRequest, access: Id, next: Id, now: Time)
    ensures (hash in s.refreshes ==> !s.refreshes[hash].consumed) ==>
              (RefreshStep(s, cfg, client, c, hash, q, access, next, now).Committed? <==>
                 Renewable(s, cfg, client, c, hash, q, now))
    ensures ValidConfig(cfg) && FamiliesShaped(s.families, cfg) && hash in s.refreshes && !s.refreshes[hash].consumed
            && next != hash && RefreshStep(s, cfg, client, c, hash, q, access, next, now).Committed? ==>
              && s.refreshes[hash].familyId in s.families
              && Rotates(s, RefreshStep(s, cfg, client, c, hash, q, access, next, now).state, cfg, hash,
                         if q.scope.Some? then q.scope.value else s.refreshes[hash].scopes, access, next, now)
  {
    hide RefreshStep, Renewable, Rotates, ValidConfig, FamiliesShaped;
    if hash in s.refreshes ==> !s.refreshes[hash].consumed {
      RefreshCommits(s, cfg, client, c, hash, q, access, next, now);
      if ValidConfig(cfg) && FamiliesShaped(s.families, cfg) && hash in s.refreshes && next != hash
         && RefreshStep(s, cfg, client, c, hash, q, access, next, now).Committed? {
        RefreshYields(s, cfg, client, c, hash, q, access, next, now);
      }
    }
  }

  lemma RotateRotates(s: State, cfg: Config, hash: Id, scopes: seq<Scope>, access: Id, next: Id, now: Time)
    requires hash in s.refreshes && s.refreshes[hash].familyId in s.families && next != hash && 0 < cfg.accessTokenTtl
    requires var f := s.families[s.refreshes[hash].familyId]; FamilyShape(f, cfg) && now < f.absoluteExpiry
    ensures Rotates(s, Rotate(s, cfg, s.families[s.refreshes[hash].familyId].clientId, hash, scopes, access, next, now),
                    cfg, hash, scopes, access, next, now)
  {
  }

  // ---------- The resource grants ----------

  /** What a resource request is for: what it names, or else the policy's defaults. */
  predicate Asked(p: Policy, q: ResourceRequest, aud: Audience, scopes: seq<Scope>) {
    && (if q.resource.Some? then aud == q.resource.value else p.defaultResource == Some(aud))
    && aud in p.resources && (if q.scope.Some? then scopes == q.scope.value else scopes == p.resources[aud].default)
  }

  /** The scopes are resource scopes that the policy, the configuration and, for a password, the account's
      entitlements allow for an enabled resource. */
  predicate Permitted(s: State, cfg: Config, p: Policy, aud: Audience, scopes: seq<Scope>, owner: Option<Owner>) {
    var r := ResourceByAudience(cfg.resources, aud);
    && scopes != [] && ValidResourceScopes(scopes) && aud in p.resources
    && ScopeSubset(scopes, p.resources[aud].allowed)
    && r.Some? && r.value.enabled && ScopeSubset(scopes, r.value.scopes)
    && (owner.Some? ==> ScopeSubset(scopes, EntitledScopes(AccessOf(s, owner.value.id), aud)))
  }

  /** The client_credentials or password grant is open to the client, and the password checked before is still
      that of an active account. */
  predicate GrantOpen(s: State, cfg: Config, client: Id, c: Client, owner: Option<Owner>) {
    var grant := if owner.Some? then PasswordGrant else ClientCredentials;
    && client in s.clients && s.clients[client].updatedAt == c.updatedAt && c.metadata.auth != NoAuth
    && s.clients[client].metadata.auth != NoAuth && grant in c.metadata.grants
    && grant in s.clients[client].metadata.grants && grant in PolicyOf(s, client).grants
    && (owner.Some? ==> cfg.passwordGrantEnabled && PolicyOf(s, client).passwordEnabled && OwnerCurrent(s, owner.value))
  }

  /** A resource grant is honoured exactly if it is open to the client and what is asked for is permitted; it
      stores one token, for exactly what was asked, for the account of the password if there is one. */
  lemma ResourceYields(
    s: State, cfg: Config, client: Id, c: Client, owner: Option<Owner>, q: ResourceRequest, access: Id, now: Time)
    requires 0 < cfg.accessTokenTtl
    ensures var o := IssueResource(s, cfg, client, c, owner, q, access, now);
            && (o.Committed? <==>
                  && GrantOpen(s, cfg, client, c, owner)
                  && exists aud, scopes :: Asked(PolicyOf(s, client), q, aud, scopes)
                                           && Permitted(s, cfg, PolicyOf(s, client), aud, scopes, owner))
            && (o.Committed? ==>
                  && access in o.state.tokens && OnlyNewKey(s.tokens, o.state.tokens, access)
                  && var t := o.state.tokens[access];
                  && Asked(PolicyOf(s, client), q, t.audience, t.scopes) && t.clientId == client
                  && t.userId == (if owner.Some? then owner.value.id else NONE)
                  && t.subjectKind == (if owner.Some? then UserSubject else ClientSubject)
                  && t.grantType == (if owner.Some? then PasswordGrant else ClientCredentials)
                  && t.opSessionId == t.familyId == t.codeHash == NONE && !t.revoked
                  && t.issuedAt == now && t.expiresAt == now + cfg.accessTokenTtl)
  {
    hide ResourceGrant, Asked, Permitted, PruneGrants, OwnerCurrent;
    var user := if owner.Some? then owner.value.id else NONE;
    var grant := if owner.Some? then PasswordGrant else ClientCredentials;
    forall aud, scopes | client in s.clients && GrantOpen(s, cfg, client, c, owner)
      ensures ResourceGrant(s, cfg, client, grant, q, user) == Allowed(aud, scopes) <==>
                Asked(PolicyOf(s, client), q, aud, scopes) && Permitted(s, cfg, PolicyOf(s, client), aud, scopes, owner)
    {
      AllowsExactly(s, cfg, client, owner, q, aud, scopes);
    }
    if client in s.clients {
      AllowsOpen(s, cfg, client, owner, q);
    }
    ResourceStored(s, cfg, client, c, owner, q, access, now);
  }

  /** What an active token stands for now: its client and, if it has one, its account and family are still
      there and good; a session-bound one has its session and app session; and each scope of a resource token is
      one the client's policy, the enabled resource and, for a password, the account's entitlements still
      allow. */
  lemma ActiveMeans(s: State, cfg: Config, t: Token, now: Time)
    requires AccessTokenActive(s, cfg, t, now)
    ensures !t.revoked && now < t.expiresAt && t.clientId in s.clients && s.clients[t.clientId].updatedAt <= t.issuedAt
    ensures t.userId != NONE ==> t.userId in s.users && s.users[t.userId].active
    ensures t.familyId != NONE ==> t.familyId in s.families && !s.families[t.familyId].revoked
    ensures t.opSessionId != NONE && t.familyId == NONE ==>
              SessionActive(s, t.opSessionId, now) && t.appSessionId in s.apps && s.apps[t.appSessionId].endedAt.None?
    ensures t.grantType == ClientCredentials || t.grantType == PasswordGrant ==>
              var p := PolicyOf(s, t.clientId);
              var r := ResourceByAudience(cfg.resources, t.audience);
              && t.grantType in p.grants && t.grantType in s.clients[t.clientId].metadata.grants
              && r.Some? && r.value.enabled
              && forall sc <- t.scopes ::
                   && t.audience in p.resources && sc in p.resources[t.audience].allowed && sc in r.value.scopes
                   && (t.grantType == PasswordGrant ==>
                         p.passwordEnabled && t.audience in AccessOf(s, t.userId)
                         && sc in AccessOf(s, t.userId)[t.audience])
  {
    hide SessionActive, ResourceByAudience;
  }

  lemma AllowsExactly(
    s: State, cfg: Config, client: Id, owner: Option<Owner>, q: ResourceRequest, aud: Audience, scopes: seq<Scope>)
    requires client in s.clients && s.clients[client].metadata.auth != NoAuth
    requires var grant := if owner.Some? then PasswordGrant else ClientCredentials;
             grant in s.clients[client].metadata.grants && grant in PolicyOf(s, client).grants
    requires owner.Some? ==> PolicyOf(s, client).passwordEnabled
    ensures var grant := if owner.Some? then PasswordGrant else ClientCredentials;
            var user := if owner.Some? then owner.value.id else NONE;
            ResourceGrant(s, cfg, client, grant, q, user) == Allowed(aud, scopes) <==>
              Asked(PolicyOf(s, client), q, aud, scopes) && Permitted(s, cfg, PolicyOf(s, client), aud, scopes, owner)
  {
  }

  lemma AllowsOpen(s: State, cfg: Config, client: Id, owner: Option<Owner>, q: ResourceRequest)
    requires client in s.clients
    ensures var grant := if owner.Some? then PasswordGrant else ClientCredentials;
            ResourceGrant(s, cfg, client, grant, q, if owner.Some? then owner.value.id else NONE).Allowed? ==>
              && s.clients[client].metadata.auth != NoAuth && grant in s.clients[client].metadata.grants
              && grant in PolicyOf(s, client).grants && (owner.Some? ==> PolicyOf(s, client).passwordEnabled)
  {
  }

  lemma ResourceStored(
    s: State, cfg: Config, client: Id, c: Client, owner: Option<Owner>, q: ResourceRequest, access: Id, now: Time)
    requires 0 < cfg.accessTokenTtl
    ensures var o := IssueResource(s, cfg, client, c, owner, q, access, now);
            o.Committed? ==>
              && client in s.clients
              && var g := ResourceGrant(s, cfg, client, if owner.Some? then PasswordGrant else ClientCredentials, q,
                                        if owner.Some? then owner.value.id else NONE);
              && g.Allowed? && access in o.state.tokens && OnlyNewKey(s.tokens, o.state.tokens, access)
              && var t := o.state.tokens[access];
              && t.audience == g.audience && t.scopes == g.scopes && t.clientId == client
              && t.userId == (if owner.Some? then owner.value.id else NONE)
              && t.subjectKind == (if owner.Some? then UserSubject else ClientSubject)
              && t.grantType == (if owner.Some? then PasswordGrant else ClientCredentials)
              && t.opSessionId == t.familyId == t.codeHash == NONE && !t.revoked
              && t.issuedAt == now && t.expiresAt == now + cfg.accessTokenTtl
  {
    hide ResourceGrant, OwnerCurrent;
  }
}
