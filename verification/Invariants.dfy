/** What every reachable store satisfies, one predicate per link between maps. `used` holds every
    identifier ever drawn; `randomToken` draws outside it. */
module Invariants {
  import opened Records
  import opened Validity
  import opened Outbox

  // ---------- Identifiers ----------

  ghost predicate KnownIds(s: State, used: set<Id>) {
    && NONE in used && NONE !in s.users && NONE !in s.sessions && NONE !in s.codes && NONE !in s.families
    && NONE !in s.apps
    && s.sessions.Keys <= used && s.apps.Keys <= used && s.families.Keys <= used && s.refreshes.Keys <= used
    && s.clients.Keys <= used && s.users.Keys <= used && s.txns.Keys <= used && s.codes.Keys <= used
    && s.tokens.Keys <= used
    && s.interactions.Keys <= used && (forall a <- s.apps :: s.apps[a].clientId in used)
    && (forall h <- s.sessions :: s.sessions[h].id in used && s.sessions[h].id != NONE)
    && (forall t <- s.txns :: s.txns[t].clientId in used)
  }

  // ---------- Sessions ----------

  ghost predicate IsLiveRow(r: Session, id: Id, user: Id) {
    r.id == id && r.endedAt.None? && r.userId == user
  }

  ghost predicate HasLiveRow(sessions: map<Id, Session>, id: Id, user: Id) {
    exists h :: h in sessions && IsLiveRow(sessions[h], id, user)
  }

  /** At most one row per logical session. */
  ghost predicate RowsUnique(sessions: map<Id, Session>) {
    forall h, k :: h in sessions && k in sessions && sessions[h].id == sessions[k].id ==> h == k
  }

  ghost predicate SameLiveLink(a: App, b: App) {
    a.endedAt.None? && b.endedAt.None? && a.opSessionId == b.opSessionId && a.clientId == b.clientId
  }

  /** A live app session has a live session of the same user. */
  ghost predicate AppsLinked(apps: map<Id, App>, sessions: map<Id, Session>) {
    forall a <- apps :: apps[a].endedAt.None? ==> HasLiveRow(sessions, apps[a].opSessionId, apps[a].userId)
  }

  /** At most one live app session per session and client. */
  ghost predicate AppsUnique(apps: map<Id, App>) {
    forall a, b | a in apps && b in apps && SameLiveLink(apps[a], apps[b]) :: a == b
  }

  // ---------- Codes, consents, requests ----------

  /** The client may use the authorization code grant. */
  ghost predicate CodeClient(c: Client) {
    c.metadata.compatible && AuthorizationCode in c.metadata.grants
  }

  /** A stored code is pinned to the current revision of a client that may use it. */
  ghost predicate CodePinned(c: Code, clients: map<Id, Client>) {
    c.clientId in clients && clients[c.clientId].updatedAt == c.clientUpdatedAt && CodeClient(clients[c.clientId])
  }

  ghost predicate CodesPinned(codes: map<Id, Code>, clients: map<Id, Client>) {
    forall h <- codes :: CodePinned(codes[h], clients)
  }

  /** A code whose session has no live row is revoked. */
  ghost predicate CodeLinked(c: Code, sessions: map<Id, Session>) {
    !c.revoked && c.opSessionId != NONE ==> HasLiveRow(sessions, c.opSessionId, c.userId)
  }

  ghost predicate CodesLinked(codes: map<Id, Code>, sessions: map<Id, Session>) {
    forall h <- codes :: CodeLinked(codes[h], sessions)
  }

  ghost predicate ConsentsOk(consents: map<ConsentKey, Consent>, clients: map<Id, Client>) {
    forall k <- consents :: k.clientId in clients && clients[k.clientId].updatedAt == consents[k].policyRevision
  }

  /** A request may be pinned to an older revision; if its revision is current, the client may use codes. */
  ghost predicate TxnOk(t: Txn, clients: map<Id, Client>) {
    t.clientId in clients && clients[t.clientId].updatedAt == t.clientUpdatedAt ==> CodeClient(clients[t.clientId])
  }

  ghost predicate TxnsOk(txns: map<Id, Txn>, clients: map<Id, Client>) {
    forall t <- txns :: TxnOk(txns[t], clients)
  }

  // ---------- Tokens ----------

  /** An unrevoked token's client, policy, entitlement and account still allow it. */
  ghost predicate TokenGranted(s: State, cfg: Config, t: Token) {
    !t.revoked ==> t.clientId in s.clients && GrantHolds(s, cfg, t)
  }

  ghost predicate TokensGranted(s: State, cfg: Config) {
    forall h <- s.tokens :: TokenGranted(s, cfg, s.tokens[h])
  }

  /** An unrevoked online token's app session is live and belongs to the same session, client and user. */
  ghost predicate TokenLinked(t: Token, apps: map<Id, App>) {
    !t.revoked && t.familyId == NONE && (t.opSessionId != NONE || t.appSessionId != NONE) ==>
      && t.appSessionId in apps && apps[t.appSessionId].endedAt.None?
      && apps[t.appSessionId].opSessionId == t.opSessionId
      && apps[t.appSessionId].clientId == t.clientId && apps[t.appSessionId].userId == t.userId
  }

  ghost predicate TokensLinked(tokens: map<Id, Token>, apps: map<Id, App>) {
    forall h <- tokens :: TokenLinked(tokens[h], apps)
  }

  /** The code a credential came from is stored, used, of the same client and user, and kept long enough. */
  ghost predicate Evidence(codes: map<Id, Code>, code: Id, client: Id, user: Id, until: Time) {
    && code in codes && codes[code].consumed && codes[code].clientId == client && codes[code].userId == user
    && codes[code].retainUntil.Some? && codes[code].retainUntil.value >= until
  }

  ghost predicate TokenProven(t: Token, codes: map<Id, Code>) {
    !t.revoked && t.codeHash != NONE ==> Evidence(codes, t.codeHash, t.clientId, t.userId, t.expiresAt)
  }

  ghost predicate TokensProven(tokens: map<Id, Token>, codes: map<Id, Code>) {
    forall h <- tokens :: TokenProven(tokens[h], codes)
  }

  /** A token's family is stored, outlives it, and never stays unrevoked longer than the token. */
  ghost predicate TokenInFamily(t: Token, families: map<Id, Family>) {
    t.familyId != NONE ==>
      && t.familyId in families && families[t.familyId].retainUntil >= t.expiresAt
      && families[t.familyId].codeHash == t.codeHash
      && (families[t.familyId].revoked ==> t.revoked)
  }

  ghost predicate TokensInFamilies(tokens: map<Id, Token>, families: map<Id, Family>) {
    forall h <- tokens :: TokenInFamily(tokens[h], families)
  }

  // ---------- Refresh families ----------

  ghost predicate FamilyShape(f: Family, cfg: Config) {
    && f.idleExpiry <= f.absoluteExpiry && f.retainUntil == f.absoluteExpiry + cfg.accessTokenTtl
    && f.audience == UserInfo && f.codeHash != NONE
  }

  ghost predicate FamiliesShaped(families: map<Id, Family>, cfg: Config) {
    forall f <- families :: FamilyShape(families[f], cfg)
  }

  /** An unrevoked family's client, policy, account and consent still allow it. */
  ghost predicate FamilyGranted(s: State, f: Family) {
    !f.revoked ==> FamilyGrantHolds(s, f) && CodeClient(s.clients[f.clientId])
  }

  ghost predicate FamiliesGranted(s: State) {
    forall f <- s.families :: FamilyGranted(s, s.families[f])
  }

  ghost predicate FamilyProven(f: Family, codes: map<Id, Code>) {
    !f.revoked ==>
      && Evidence(codes, f.codeHash, f.clientId, f.userId, f.retainUntil)
      && codes[f.codeHash].scopes == f.scopes && codes[f.codeHash].authTime == f.authTime
  }

  ghost predicate FamiliesProven(families: map<Id, Family>, codes: map<Id, Code>) {
    forall f <- families :: FamilyProven(families[f], codes)
  }

  ghost predicate Usable(refreshes: map<Id, Refresh>, h: Id, f: Id) {
    h in refreshes && refreshes[h].familyId == f && !refreshes[h].consumed
  }

  ghost predicate RefreshOk(r: Refresh, families: map<Id, Family>) {
    r.familyId in families && ScopeSubset(r.scopes, families[r.familyId].scopes)
  }

  ghost predicate RefreshesOk(refreshes: map<Id, Refresh>, families: map<Id, Family>) {
    forall h <- refreshes :: RefreshOk(refreshes[h], families)
  }

  /** Every stored family has an unconsumed token, ... */
  ghost predicate ChainsOpen(refreshes: map<Id, Refresh>, families: map<Id, Family>) {
    forall f <- families :: exists h :: Usable(refreshes, h, f)
  }

  /** ... only one, whose scopes are within those of every earlier token of the family. */
  ghost predicate ChainsNarrow(refreshes: map<Id, Refresh>) {
    && (forall h, k, f :: Usable(refreshes, h, f) && Usable(refreshes, k, f) ==> h == k)
    && (forall h, k, f ::
          Usable(refreshes, h, f) && k in refreshes && refreshes[k].familyId == f ==>
            ScopeSubset(refreshes[h].scopes, refreshes[k].scopes))
  }

  // ---------- Outbox ----------

  ghost predicate NoticeOk(apps: map<Id, App>, d: DeliveryId, createdAt: Time) {
    d.AppNotice? ==> d.app in apps && apps[d.app].endedAt == Some(createdAt)
  }

  /** An ended app session has notices on its channels, or exactly the "unsupported" record. */
  ghost predicate Noticed(deliveries: map<DeliveryId, Delivery>, a: Id) {
    (AppNotice(a, NoChannel) in deliveries) != (AppNotice(a, Backchannel) in deliveries
                                                || AppNotice(a, Frontchannel) in deliveries)
  }

  ghost predicate OutboxOk(deliveries: map<DeliveryId, Delivery>, apps: map<Id, App>) {
    && (forall d <- deliveries :: NoticeOk(apps, d, deliveries[d].createdAt) && Settled(d, deliveries[d]))
    && (forall a <- apps :: apps[a].endedAt.Some? ==> Noticed(deliveries, a))
  }

  // ---------- The invariant ----------

  ghost predicate SessionsInv(s: State) {
    && RowsUnique(s.sessions) && AppsLinked(s.apps, s.sessions) && AppsUnique(s.apps)
    && OutboxOk(s.deliveries, s.apps)
  }

  ghost predicate CodesInv(s: State) {
    && CodesPinned(s.codes, s.clients) && CodesLinked(s.codes, s.sessions)
    && ConsentsOk(s.consents, s.clients) && TxnsOk(s.txns, s.clients)
  }

  ghost predicate TokensInv(s: State, cfg: Config) {
    && TokensGranted(s, cfg) && TokensLinked(s.tokens, s.apps)
    && TokensProven(s.tokens, s.codes) && TokensInFamilies(s.tokens, s.families)
  }

  ghost predicate FamiliesInv(s: State, cfg: Config) {
    && FamiliesShaped(s.families, cfg) && FamiliesGranted(s) && FamiliesProven(s.families, s.codes)
    && RefreshesOk(s.refreshes, s.families) && ChainsOpen(s.refreshes, s.families) && ChainsNarrow(s.refreshes)
  }

  ghost predicate Inv(s: State, cfg: Config, used: set<Id>) {
    KnownIds(s, used) && SessionsInv(s) && CodesInv(s) && TokensInv(s, cfg) && FamiliesInv(s, cfg)
  }

  lemma FreshStateOk(cfg: Config, used: set<Id>)
    requires NONE in used
    ensures Inv(FRESH_STATE, cfg, used)
  {
  }

  lemma MoreIds(s: State, cfg: Config, used: set<Id>, more: set<Id>)
    requires Inv(s, cfg, used) && used <= more
    ensures Inv(s, cfg, more)
  {
  }

  // ---------- Frames ----------

  ghost predicate SameGrants(s: State, r: State) {
    r.clients == s.clients && r.policies == s.policies && r.access == s.access && r.users == s.users
  }

  /** The unrevoked tokens of `after` are unrevoked tokens of `before`. */
  ghost predicate TokensFewer(before: map<Id, Token>, after: map<Id, Token>) {
    forall h <- after :: !after[h].revoked ==> h in before && before[h] == after[h]
  }

  ghost predicate FamiliesFewer(before: map<Id, Family>, after: map<Id, Family>) {
    forall f <- after :: !after[f].revoked ==> f in before && before[f] == after[f]
  }

  lemma TokenGrantedFrame(s: State, r: State, cfg: Config, t: Token)
    requires SameGrants(s, r) && TokenGranted(s, cfg, t)
    ensures TokenGranted(r, cfg, t)
  {
  }

  lemma TokensGrantedFrame(s: State, r: State, cfg: Config)
    requires SameGrants(s, r) && TokensGranted(s, cfg) && TokensFewer(s.tokens, r.tokens)
    ensures TokensGranted(r, cfg)
  {
  }

  lemma FamiliesGrantedFrame(s: State, r: State)
    requires SameGrants(s, r) && r.consents == s.consents && FamiliesGranted(s) && FamiliesFewer(s.families, r.families)
    ensures FamiliesGranted(r)
  {
  }
}
