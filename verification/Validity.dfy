/** Validity of a credential, decided in one place for UserInfo, introspection, refresh and monitoring
    (internal/identity/token_state.go). Both predicates only read a snapshot. */
module Validity {
  import opened Records

  /** The grant whose policy governs a token: a refreshed token keeps the original grant, and a legacy
      UserInfo token without a grant counts as an authorization code token. */
  function GoverningGrant(t: Token): Grant {
    var grant := if t.grantType == RefreshGrant then t.originalGrant else t.grantType;
    if grant == NoGrant && t.userId != NONE && t.audience == UserInfo then AuthorizationCode else grant
  }

  /** A session-bound token needs its provider session and its app session; family-backed tokens are
      offline and need neither. */
  predicate SessionHolds(s: State, t: Token, now: Time) {
    t.opSessionId != NONE && t.familyId == NONE ==>
      && SessionActive(s, t.opSessionId, now)
      && t.appSessionId in s.apps && s.apps[t.appSessionId].endedAt.None?
  }

  predicate FamilyHolds(s: State, t: Token) {
    t.familyId != NONE ==> t.familyId in s.families && !s.families[t.familyId].revoked
  }

  predicate UserHolds(s: State, user: Id) {
    user in s.users && s.users[user].active
  }

  predicate ResourceHolds(s: State, cfg: Config, t: Token, grant: Grant)
    requires t.clientId in s.clients
  {
    var p := PolicyOf(s, t.clientId);
    var r := ResourceByAudience(cfg.resources, t.audience);
    && r.Some? && r.value.enabled && grant in p.grants
    && grant in s.clients[t.clientId].metadata.grants
    && ScopeSubset(t.scopes, AllowedScopes(p, t.audience))
    && ScopeSubset(t.scopes, r.value.scopes)
  }

  /** What the client's metadata and policy and the user's account must still say. */
  predicate GrantHolds(s: State, cfg: Config, t: Token)
    requires t.clientId in s.clients
  {
    var c := s.clients[t.clientId];
    var grant := GoverningGrant(t);
    match grant
    case AuthorizationCode =>
      && t.subjectKind != ClientSubject && t.userId != NONE && t.audience == UserInfo
      && c.metadata.compatible && AuthorizationCode in c.metadata.grants
      && UserHolds(s, t.userId)
    case ClientCredentials =>
      && ResourceHolds(s, cfg, t, grant)
      && t.subjectKind == ClientSubject && t.userId == NONE
    case PasswordGrant =>
      && ResourceHolds(s, cfg, t, grant)
      && PolicyOf(s, t.clientId).passwordEnabled && t.subjectKind == UserSubject
      && ScopeSubset(t.scopes, EntitledScopes(AccessOf(s, t.userId), t.audience))
      && UserHolds(s, t.userId)
    case _ => false
  }

  predicate AccessTokenActive(s: State, cfg: Config, t: Token, now: Time) {
    && !t.revoked && now < t.expiresAt
    && SessionHolds(s, t, now)
    && t.clientId in s.clients && s.clients[t.clientId].updatedAt <= t.issuedAt
    && FamilyHolds(s, t)
    && GrantHolds(s, cfg, t)
  }

  /** What must still hold of a family besides its lifetime and its consent's scopes. */
  predicate FamilyGrantHolds(s: State, f: Family) {
    && !f.revoked && f.clientId in s.clients
    && var p := PolicyOf(s, f.clientId);
       var c := s.clients[f.clientId];
    && p.refreshEnabled && RefreshGrant in p.grants && RefreshGrant in c.metadata.grants
    && c.updatedAt == f.clientRevision
    && UserHolds(s, f.userId)
    && var k := ConsentKey(f.userId, f.clientId);
    && k in s.consents && !s.consents[k].revoked && s.consents[k].policyRevision == f.clientRevision
  }

  predicate ConsentCoversFamily(s: State, f: Family) {
    var k := ConsentKey(f.userId, f.clientId);
    k in s.consents && ScopeSubset(f.scopes, s.consents[k].scopes) && OfflineAccess in s.consents[k].scopes
  }

  predicate RefreshFamilyActive(s: State, f: Family, now: Time) {
    && now < f.absoluteExpiry && now < f.idleExpiry
    && FamilyGrantHolds(s, f)
    && ConsentCoversFamily(s, f)
  }
}
