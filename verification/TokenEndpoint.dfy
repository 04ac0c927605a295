/** The token and revocation endpoints (internal/oidc/token.go, internal/oidc/refresh.go,
    internal/oidc/oauth.go). Every step gets the client record that authenticated the request. */
module TokenEndpoint {
  import opened Records
  import opened Validity
  import opened Cascades
  import opened Invariants
  import opened Evolution
  import opened Flags
  import opened Changes
  import opened Steps

  const APP_CAPACITY := 50000

  // ---------- The client's association with the session ----------

  ghost predicate IsLinked(apps: map<Id, App>, a: Id, op: Id, client: Id) {
    a in apps && apps[a].opSessionId == op && apps[a].clientId == client && apps[a].endedAt.None?
  }

  /** The live app session of this session and client; the invariant leaves at most one. */
  ghost function LinkedApp(apps: map<Id, App>, op: Id, client: Id): Option<Id> {
    if a :| IsLinked(apps, a, op, client) then Some(a) else None
  }

  function SeenRows(sessions: map<Id, Session>, op: Id, now: Time): map<Id, Session> {
    map h | h in sessions :: if sessions[h].id == op then sessions[h].(lastSeenAt := now) else sessions[h]
  }

  datatype Joining = Full | Joined(state: State, app: Id)

  /** The app session is reused if it is live, else created, and the provider session is marked seen. */
  ghost function JoinSession(s: State, op: Id, client: Id, user: Id, drawnId: Id, now: Time): Joining {
    var linked := LinkedApp(s.apps, op, client);
    if linked.None? && |s.apps| >= APP_CAPACITY then Full
    else
      var id := if linked.Some? then linked.value else drawnId;
      var a := if linked.Some? then s.apps[id].(lastSeenAt := now) else App(op, client, user, now, now, None, NotEnded);
      Joined(s.(apps := s.apps[id := a], sessions := SeenRows(s.sessions, op, now)), id)
  }

  // ---------- Code exchange ----------

  datatype Drawing = Drawing(access: Id, refresh: Id, family: Id, app: Id)

  function NewFamily(cfg: Config, code: Id, c: Code, revision: Time, now: Time): Family {
    Family(c.appSessionId, c.opSessionId, c.clientId, c.userId, code, UserInfo, c.scopes, c.authTime, revision, now,
           now + cfg.refreshMaxTtl, now + cfg.refreshInactivityTtl, now
             + (cfg.refreshMaxTtl + cfg.accessTokenTtl), false)
  }

  function CodeToken(cfg: Config, code: Id, c: Code, app: Id, family: Id, now: Time): Token {
    Token(c.opSessionId, app, AuthorizationCode, UserSubject, family, NoGrant, c.clientId, c.userId, UserInfo, c.scopes,
          code, now, now + cfg.accessTokenTtl, false)
  }

  /** The client's policy still allows a refresh family, and the consent covers it (`initialRefresh`). */
  predicate RefreshAllowed(s: State, cfg: Config, f: Family, now: Time) {
    && cfg.refreshTokensEnabled && f.clientId in s.clients
    && PolicyOf(s, f.clientId).refreshEnabled && RefreshGrant in PolicyOf(s, f.clientId).grants
    && RefreshGrant in s.clients[f.clientId].metadata.grants
    && RefreshFamilyActive(s, f, now)
  }

  /** Issues from a code that joined its session as `app`. */
  ghost function IssueFromCode(s: State, cfg: Config, code: Id, c: Code, app: Id, d: Drawing, now: Time): Outcome {
    var offline := OfflineAccess in c.scopes;
    var f := NewFamily(cfg, code, c, c.clientUpdatedAt, now);
    if offline && !RefreshAllowed(s, cfg, f, now) then Denied(InvalidGrant)
    else
      var usedUp := c.(consumed := true,
                       retainUntil := Some(if offline then f.retainUntil else now + cfg.accessTokenTtl));
      var s1 := s.(codes := s.codes[code := usedUp]);
      var s2 :=
        if offline then
          s1.(families := s1.families[d.family := f],
              refreshes := s1.refreshes[d.refresh := Refresh(d.family, c.scopes, now, false)])
        else s1;
      var s3 := s2.(tokens := s2.tokens[d.access := CodeToken(cfg, code, c, app, if offline then d.family else NONE,
                                                              now)]);
      Committed(PruneGrants(s3, now))
  }

  /** The code is bound to this client, redirect URI and verifier. */
  predicate CodeBound(s: State, code: Id, client: Id, redirectUri: Id, challenge: Id) {
    && code in s.codes && !s.codes[code].revoked && s.codes[code].clientId == client
    && s.codes[code].redirectUri == redirectUri && s.codes[code].codeChallenge == challenge
  }

  /** The revision that authenticated the request is the code's and is current. */
  predicate RevisionCurrent(s: State, client: Id, c: Client, pinned: Time) {
    client in s.clients && s.clients[client].metadata.compatible && s.clients[client].updatedAt == c.updatedAt
    && s.clients[client].updatedAt == pinned
  }

  predicate Presented(s: State, client: Id, c: Client, code: Id, redirectUri: Id, challenge: Id) {
    CodeBound(s, code, client, redirectUri, challenge) && RevisionCurrent(s, client, c, s.codes[code].clientUpdatedAt)
  }

  /** `challenge` is the S256 transform of the presented verifier. A replay commits the revocation. */
  ghost function Exchange(
    s: State, cfg: Config, client: Id, c: Client, code: Id, redirectUri: Id, challenge: Id, d: Drawing,
    now: Time): Outcome
  {
    if !Presented(s, client, c, code, redirectUri, challenge) then Denied(InvalidGrant)
    else if s.codes[code].consumed then Committed(RevokeForCode(s, code))
    else
      var record := s.codes[code];
      if record.expiresAt <= now || !UserHolds(s, record.userId) then Denied(InvalidGrant)
      else if record.opSessionId == NONE then IssueFromCode(s, cfg, code, record, NONE, d, now)
      else if !SessionActive(s, record.opSessionId, now) then Denied(InvalidGrant)
      else
        var j := JoinSession(s, record.opSessionId, client, record.userId, d.app, now);
        if j.Full? then Denied(CapacityReached)
        else IssueFromCode(j.state, cfg, code, record.(appSessionId := j.app), j.app, d, now)
  }

  // ---------- Exchange is sound ----------

  ghost predicate AllDrawn(s: State, tx: Tx, d: Drawing) {
    && Drawn(tx, d.access) && Drawn(tx, d.refresh) && Drawn(tx, d.family) && d.family != NONE
    && d.family !in s.families && d.refresh !in s.refreshes
  }

  lemma SeenTouched(sessions: map<Id, Session>, op: Id, now: Time)
    ensures RowsTouched(sessions, SeenRows(sessions, op, now))
  {
  }

  lemma JoinSound(s: State, tx: Tx, op: Id, client: Id, user: Id, drawnId: Id)
    requires Inv(s, tx.cfg, tx.known) && Drawn(tx, drawnId) && drawnId != NONE && drawnId !in s.apps
    requires HasLiveRow(s.sessions, op, user) && client in tx.known && tx.joins
    ensures var j := JoinSession(s, op, client, user, drawnId, tx.now);
            j.Joined? ==>
              Sound(s, j.state, tx) && IsLinked(j.state.apps, j.app, op, client) && j.state.apps[j.app].userId == user
  {
    var j := JoinSession(s, op, client, user, drawnId, tx.now);
    if j.Joined? {
      var linked := LinkedApp(s.apps, op, client);
      var m := s.(apps := j.state.apps);
      LinkedUser(s, op, client, user);
      assert linked.None? ==> forall b <- s.apps :: !IsLinked(s.apps, b, op, client);
      assert j.app in tx.known && j.app != NONE;
      hide Inv, Evolves, HasLiveRow;
      AppSound(s, m, tx, j.app, j.state.apps[j.app]);
      SeenTouched(s.sessions, op, tx.now);
      hide RowsTouched, SeenRows;
      TouchedSound(m, j.state, tx);
      SoundThen(s, m, j.state, tx);
    }
  }

  /** The live app session of a session belongs to the session's user. */
  lemma LinkedUser(s: State, op: Id, client: Id, user: Id)
    requires AppsLinked(s.apps, s.sessions) && RowsUnique(s.sessions) && HasLiveRow(s.sessions, op, user)
    ensures forall a :: IsLinked(s.apps, a, op, client) ==> s.apps[a].userId == user
  {
  }

  /** What is known of a code about to be used. */
  ghost predicate Ready(s: State, code: Id, c: Code, app: Id) {
    && code in s.codes && code != NONE && !s.codes[code].consumed && c == s.codes[code].(appSessionId := c.appSessionId)
    && CodePinned(c, s.clients) && CodeLinked(c, s.sessions) && !c.revoked && UserHolds(s, c.userId) && c.userId != NONE
    && (if c.opSessionId == NONE then app == NONE
        else IsLinked(s.apps, app, c.opSessionId, c.clientId) && s.apps[app].userId == c.userId)
  }

  lemma ConsumeSound(s: State, r: State, tx: Tx, code: Id, c: Code, app: Id, usedUp: Code)
    requires Inv(s, tx.cfg, tx.known) && Ready(s, code, c, app) && tx.codes <= tx.used
    requires usedUp == c.(consumed := true, retainUntil := usedUp.retainUntil)
             && r == s.(codes := s.codes[code := usedUp])
    ensures Sound(s, r, tx)
  {
    assert code in tx.known;
    assert CodePinned(usedUp, s.clients) && CodeLinked(usedUp, s.sessions);
    hide Inv, Sound, CodePinned, CodeLinked;
    CodeSound(s, r, tx, code, usedUp);
  }

  lemma NewFamilyOk(s: State, r: State, cfg: Config, code: Id, c: Code, app: Id, usedUp: Code, now: Time)
    requires ValidConfig(cfg) && Ready(s, code, c, app)
             && RefreshAllowed(s, cfg, NewFamily(cfg, code, c, c.clientUpdatedAt, now), now)
    requires usedUp == c.(consumed := true,
                          retainUntil := Some(NewFamily(cfg, code, c, c.clientUpdatedAt, now).retainUntil))
             && r == s.(codes := s.codes[code := usedUp])
    ensures var f := NewFamily(cfg, code, c, c.clientUpdatedAt, now);
            FamilyShape(f, cfg) && FamilyGranted(r, f) && FamilyProven(f, r.codes)
  {
  }

  lemma NewTokenOk(s: State, r: State, cfg: Config, code: Id, c: Code, app: Id, t: Token, now: Time)
    requires ValidConfig(cfg) && Ready(s, code, c, app) && t == CodeToken(cfg, code, c, app, t.familyId, now)
    requires SameGrants(s, r) && r.apps == s.apps && code in r.codes && r.codes[code].consumed
             && r.codes[code].clientId == c.clientId && r.codes[code].userId == c.userId
    requires r.codes[code].retainUntil.Some? && r.codes[code].retainUntil.value >= now + cfg.accessTokenTtl
    requires t.familyId != NONE ==>
               t.familyId in r.families && r.families[t.familyId].codeHash == code && !r.families[t.familyId].revoked
               && r.families[t.familyId].retainUntil >= t.expiresAt
    ensures TokenGranted(r, cfg, t) && TokenLinked(t, r.apps) && TokenProven(t, r.codes) && TokenInFamily(t, r.families)
  {
  }

  lemma IssueSound(s: State, tx: Tx, code: Id, c: Code, app: Id, d: Drawing)
    requires Inv(s, tx.cfg, tx.known) && ValidConfig(tx.cfg) && Ready(s, code, c, app) && AllDrawn(s, tx, d)
    requires tx.codes <= tx.used && code !in tx.codes
    ensures SoundStep(s, IssueFromCode(s, tx.cfg, code, c, app, d, tx.now), tx)
  {
    hide Inv, Evolves, PruneGrants, RefreshAllowed, FamilyShape, FamilyGranted, FamilyProven, TokenGranted, TokenLinked,
         TokenProven, TokenInFamily, SpentKept;
    var offline := OfflineAccess in c.scopes;
    var f := NewFamily(tx.cfg, code, c, c.clientUpdatedAt, tx.now);
    if !offline || RefreshAllowed(s, tx.cfg, f, tx.now) {
      var usedUp := c.(consumed := true,
                       retainUntil := Some(if offline then f.retainUntil else tx.now + tx.cfg.accessTokenTtl));
      var s1 := s.(codes := s.codes[code := usedUp]);
      var first := Refresh(d.family, c.scopes, tx.now, false);
      var s2 := if offline then
                  s1.(families := s1.families[d.family := f], refreshes := s1.refreshes[d.refresh := first])
                else s1;
      var t := CodeToken(tx.cfg, code, c, app, if offline then d.family else NONE, tx.now);
      var s3 := s2.(tokens := s2.tokens[d.access := t]);
      ConsumeSound(s, s1, tx, code, c, app, usedUp);
      if offline {
        NewFamilyOk(s, s1, tx.cfg, code, c, app, usedUp, tx.now);
        FamilySound(s1, s2, tx, d.family, f, d.refresh, first);
        SoundThen(s, s1, s2, tx);
      }
      NewTokenOk(s, s2, tx.cfg, code, c, app, t, tx.now);
      TokenSpentKept(s2, s3, tx.codes, d.access, t);
      hide Ready, AllDrawn;
      IssueEnds(s, s2, s3, tx, d.access, t);
    }
  }

  /** Saving the token and pruning. */
  lemma IssueEnds(s: State, m: State, r: State, tx: Tx, h: Id, t: Token)
    requires Sound(s, m, tx) && r == m.(tokens := m.tokens[h := t]) && SpentKept(m, r, tx.codes) && Drawn(tx, h)
    requires TokenGranted(m, tx.cfg, t) && TokenLinked(t, m.apps) && TokenProven(t, m.codes)
             && TokenInFamily(t, m.families)
    ensures Sound(s, PruneGrants(r, tx.now), tx)
  {
    hide Inv, Evolves, PruneGrants, SpentKept, TokenGranted, TokenLinked, TokenProven, TokenInFamily;
    TokenSound(m, r, tx, h, t);
    SoundThen(s, m, r, tx);
    PruneSound(r, tx, tx.now);
    SoundThen(s, r, PruneGrants(r, tx.now), tx);
  }

  /** The one code an exchange consumes was not spent before it. */
  lemma Unspent(s: State, r: State, tx: Tx, code: Id)
    requires code in s.codes && !s.codes[code].consumed && Sound(s, r, tx.(codes := tx.used - {code}))
             && tx.codes <= tx.used
    ensures Sound(s, r, tx)
  {
  }

  lemma RevokeForCodeSound(s: State, tx: Tx, code: Id)
    requires Inv(s, tx.cfg, tx.known)
    ensures Sound(s, RevokeForCode(s, code), tx)
  {
    hide Inv, Sound, RevokeGrants;
    RevokeSound(s, tx, FamiliesOfCode(s.families, code), TokensOfCode(s.tokens, code));
  }

  lemma CodeReady(
    s: State, cfg: Config, known: set<Id>, client: Id, c: Client, code: Id, redirectUri: Id, challenge: Id)
    requires Inv(s, cfg, known) && Presented(s, client, c, code, redirectUri, challenge)
             && UserHolds(s, s.codes[code].userId)
    ensures var record := s.codes[code];
            && code != NONE && record.userId != NONE && CodePinned(record, s.clients) && CodeLinked(record, s.sessions)
            && (record.opSessionId != NONE ==> HasLiveRow(s.sessions, record.opSessionId, record.userId))
  {
  }

  lemma SeenKept(sessions: map<Id, Session>, op: Id, now: Time)
    ensures RowsKept(sessions, SeenRows(sessions, op, now))
  {
    var after := SeenRows(sessions, op, now);
    forall id, u | HasLiveRow(sessions, id, u) ensures HasLiveRow(after, id, u) {
      var h :| h in sessions && IsLiveRow(sessions[h], id, u);
      assert IsLiveRow(after[h], id, u);
    }
  }

  lemma JoinFrame(s: State, op: Id, client: Id, user: Id, drawnId: Id, now: Time)
    requires JoinSession(s, op, client, user, drawnId, now).Joined?
    ensures var r := JoinSession(s, op, client, user, drawnId, now).state;
            r == s.(apps := r.apps, sessions := r.sessions)
            && (HasLiveRow(s.sessions, op, user) ==> HasLiveRow(r.sessions, op, user))
  {
    hide SeenRows, HasLiveRow, LinkedApp;
    SeenKept(s.sessions, op, now);
  }

  /** Joining the session and then issuing. */
  lemma JoinIssueSound(s: State, tx: Tx, code: Id, record: Code, d: Drawing)
    requires Inv(s, tx.cfg, tx.known) && ValidConfig(tx.cfg) && AllDrawn(s, tx, d) && tx.codes <= tx.used
             && code !in tx.codes
    requires Drawn(tx, d.app) && d.app != NONE && d.app !in s.apps && tx.joins
    requires code in s.codes && record == s.codes[code] && code != NONE && record.userId != NONE && !record.revoked
             && !record.consumed
    requires record.opSessionId != NONE && CodePinned(record, s.clients) && UserHolds(s, record.userId)
             && HasLiveRow(s.sessions, record.opSessionId, record.userId)
    ensures var j := JoinSession(s, record.opSessionId, record.clientId, record.userId, d.app, tx.now);
            j.Joined? ==>
              var o := IssueFromCode(j.state, tx.cfg, code, record.(appSessionId := j.app), j.app, d, tx.now);
              SoundStep(s, o, tx)
  {
    var j := JoinSession(s, record.opSessionId, record.clientId, record.userId, d.app, tx.now);
    assert record.clientId in tx.known;
    if j.Joined? {
      JoinFrame(s, record.opSessionId, record.clientId, record.userId, d.app, tx.now);
    }
    hide JoinSession, Inv, Evolves, IssueFromCode;
    JoinSound(s, tx, record.opSessionId, record.clientId, record.userId, d.app);
    if j.Joined? {
      var c := record.(appSessionId := j.app);
      IssueSound(j.state, tx, code, c, j.app, d);
      var o := IssueFromCode(j.state, tx.cfg, code, c, j.app, d, tx.now);
      if o.Committed? {
        SoundThen(s, j.state, o.state, tx);
      }
    }
  }

  lemma ExchangeSound(s: State, tx: Tx, client: Id, c: Client, code: Id, redirectUri: Id, challenge: Id, d: Drawing)
    requires Starts(s, tx) && Drawn(tx, d.access) && Drawn(tx, d.refresh) && Drawn(tx, d.family) && Drawn(tx, d.app)
    requires tx.joins
    ensures SoundStep(s, Exchange(s, tx.cfg, client, c, code, redirectUri, challenge, d, tx.now), tx)
  {
    var o := Exchange(s, tx.cfg, client, c, code, redirectUri, challenge, d, tx.now);
    Begin(s, tx);
    if o.Committed? {
      var record := s.codes[code];
      var tx1 := tx.(codes := tx.used - {code});
      assert AllDrawn(s, tx1, d) && d.app !in s.apps && d.app != NONE;
      hide Sound, Inv, IssueFromCode, JoinSession, RevokeForCode, KnownIds, SessionActive, AllDrawn;
      if record.consumed {
        RevokeForCodeSound(s, tx, code);
      } else {
        CodeReady(s, tx.cfg, tx.known, client, c, code, redirectUri, challenge);
        if record.opSessionId == NONE {
          IssueSound(s, tx1, code, record, NONE, d);
        } else {
          JoinIssueSound(s, tx1, code, record, d);
        }
        Unspent(s, o.state, tx, code);
      }
    }
  }

  // ---------- Refresh ----------

  datatype RefreshRequest = RefreshRequest(resource: Option<Audience>, scope: Option<seq<Scope>>)

  function RefreshedToken(cfg: Config, client: Id, family: Id, f: Family, scopes: seq<Scope>, now: Time): Token {
    Token(f.opSessionId, f.appSessionId, RefreshGrant, UserSubject, family, AuthorizationCode, client, f.userId,
          f.audience, scopes, f.codeHash, now, now + cfg.accessTokenTtl, false)
  }

  ghost function Rotate(
    s: State, cfg: Config, client: Id, hash: Id, scopes: seq<Scope>, access: Id, next: Id, now: Time): State
    requires hash in s.refreshes && s.refreshes[hash].familyId in s.families
  {
    var previous := s.refreshes[hash];
    var f := s.families[previous.familyId];
    var s1 := s.(families := s.families[
                   previous.familyId := f.(idleExpiry := MinTime(now + cfg.refreshInactivityTtl, f.absoluteExpiry))],
                 refreshes := s.refreshes[hash := previous.(consumed := true)][
                   next := Refresh(previous.familyId, scopes, now, false)]);
    PruneGrants(s1.(tokens := s1.tokens[access := RefreshedToken(cfg, client, previous.familyId, f, scopes, now)]), now)
  }

  /** The family a presented refresh token belongs to, of this client at this revision. */
  predicate RefreshPresented(s: State, client: Id, c: Client, hash: Id) {
    && hash in s.refreshes && s.refreshes[hash].familyId in s.families
    && s.families[s.refreshes[hash].familyId].clientId == client
    && client in s.clients && s.clients[client].updatedAt == c.updatedAt
  }

  function RefreshRefusal(s: State, client: Id, hash: Id): Error {
    if hash in s.refreshes && s.refreshes[hash].familyId in s.families
       && s.families[s.refreshes[hash].familyId].clientId == client && client !in s.clients then
      NotFound
    else InvalidGrant
  }

  /** Presenting a consumed token commits the revocation of its whole family. */
  ghost function RefreshStep(
    s: State, cfg: Config, client: Id, c: Client, hash: Id, q: RefreshRequest, access: Id, next: Id, now: Time): Outcome
  {
    if !cfg.refreshTokensEnabled then Denied(UnsupportedGrant)
    else if !RefreshPresented(s, client, c, hash) then Denied(RefreshRefusal(s, client, hash))
    else
      var previous := s.refreshes[hash];
      var f := s.families[previous.familyId];
      var scopes := if q.scope.Some? then q.scope.value else previous.scopes;
      if previous.consumed then Committed(RevokeFamily(s, previous.familyId))
      else if !RefreshFamilyActive(s, f, now) then Denied(InvalidGrant)
      else if q.resource.Some? && q.resource.value != f.audience then Denied(InvalidTarget)
      else if q.scope.Some? && (scopes == [] || !ScopeSubset(scopes, previous.scopes)) then Denied(InvalidScope)
      else Committed(Rotate(s, cfg, client, hash, scopes, access, next, now))
  }

  lemma RefreshedTokenOk(s: State, r: State, cfg: Config, family: Id, f: Family, scopes: seq<Scope>, now: Time)
    requires TokensInv(s, cfg) && FamiliesInv(s, cfg) && ValidConfig(cfg) && family in s.families
             && f == s.families[family] && !f.revoked && family != NONE && NONE !in s.users
    requires now < f.absoluteExpiry && f.codeHash in s.codes
    requires SameGrants(s, r) && r.apps == s.apps && r.codes == s.codes && family in r.families
             && r.families[family] == f.(idleExpiry := r.families[family].idleExpiry)
    ensures var t := RefreshedToken(cfg, f.clientId, family, f, scopes, now);
            TokenGranted(r, cfg, t) && TokenLinked(t, r.apps) && TokenProven(t, r.codes) && TokenInFamily(t, r.families)
  {
  }

  lemma RotateReady(s: State, tx: Tx, hash: Id, now: Time)
    requires Starts(s, tx) && hash in s.refreshes && s.refreshes[hash].familyId in s.families
    requires RefreshFamilyActive(s, s.families[s.refreshes[hash].familyId], now)
    ensures var f := s.families[s.refreshes[hash].familyId];
            && !f.revoked && f.codeHash in s.codes && f.clientId in s.clients && s.refreshes[hash].familyId != NONE
            && NONE !in s.users
            && now < f.absoluteExpiry && now < f.idleExpiry
    ensures TokensInv(s, tx.cfg) && FamiliesInv(s, tx.cfg) && s.refreshes.Keys <= tx.used
  {
  }

  lemma RotateSound(s: State, tx: Tx, hash: Id, scopes: seq<Scope>, access: Id, next: Id)
    requires Starts(s, tx) && Drawn(tx, access) && Drawn(tx, next)
    requires hash in s.refreshes && !s.refreshes[hash].consumed && ScopeSubset(scopes, s.refreshes[hash].scopes)
    requires s.refreshes[hash].familyId in s.families
             && RefreshFamilyActive(s, s.families[s.refreshes[hash].familyId], tx.now)
    ensures var f := s.families[s.refreshes[hash].familyId];
            Sound(s, Rotate(s, tx.cfg, f.clientId, hash, scopes, access, next, tx.now), tx)
  {
    hide Inv, TokensInv, FamiliesInv, Evolves, PruneGrants, TokenGranted, TokenLinked, TokenProven, TokenInFamily,
         SpentKept, RefreshFamilyActive, KnownIds;
    Begin(s, tx);
    RotateReady(s, tx, hash, tx.now);
    var family := s.refreshes[hash].familyId;
    var f := s.families[family];
    var idle := MinTime(tx.now + tx.cfg.refreshInactivityTtl, f.absoluteExpiry);
    var q := Refresh(family, scopes, tx.now, false);
    var s1 := s.(families := s.families[family := f.(idleExpiry := idle)],
                 refreshes := s.refreshes[hash := s.refreshes[hash].(consumed := true)][next := q]);
    var t := RefreshedToken(tx.cfg, f.clientId, family, f, scopes, tx.now);
    var s2 := s1.(tokens := s1.tokens[access := t]);
    RefreshedTokenOk(s, s1, tx.cfg, family, f, scopes, tx.now);
    RotationSound(s, s1, tx, family, idle, hash, next, q);
    RotatedUnspent(s1, f.codeHash, family);
    TokenSpentKept(s1, s2, tx.codes, access, t);
    IssueEnds(s, s1, s2, tx, access, t);
  }

  lemma RotatedUnspent(s: State, code: Id, family: Id)
    requires family in s.families && s.families[family].codeHash == code && !s.families[family].revoked
    ensures !CodeSpent(s, code)
  {
  }

  lemma RevokeFamilySound(s: State, tx: Tx, family: Id)
    requires Inv(s, tx.cfg, tx.known)
    ensures Sound(s, RevokeFamily(s, family), tx)
  {
    hide Inv, Sound, RevokeGrants;
    RevokeSound(s, tx, {family}, {});
  }

  lemma RefreshStepSound(s: State, tx: Tx, client: Id, c: Client, hash: Id, q: RefreshRequest, access: Id, next: Id)
    requires Starts(s, tx) && Drawn(tx, access) && Drawn(tx, next)
    ensures SoundStep(s, RefreshStep(s, tx.cfg, client, c, hash, q, access, next, tx.now), tx)
  {
    hide Inv, Sound, Rotate, RevokeFamily, RefreshFamilyActive, KnownIds;
    Begin(s, tx);
    var o := RefreshStep(s, tx.cfg, client, c, hash, q, access, next, tx.now);
    if o.Committed? {
      if s.refreshes[hash].consumed {
        RevokeFamilySound(s, tx, s.refreshes[hash].familyId);
      } else {
        RotateSound(s, tx, hash, if q.scope.Some? then q.scope.value else s.refreshes[hash].scopes, access, next);
      }
    }
  }

  // ---------- Client credentials and password ----------

  datatype ResourceRequest = ResourceRequest(resource: Option<Audience>, scope: Option<seq<Scope>>)

  datatype Approval = Refused(error: Error) | Allowed(audience: Audience, scopes: seq<Scope>)

  /** `resourceGrant`: the audience and scopes the policy allows, or the error. */
  function ResourceGrant(s: State, cfg: Config, client: Id, grant: Grant, q: ResourceRequest, user: Id): Approval
    requires client in s.clients
  {
    var c := s.clients[client];
    var p := PolicyOf(s, client);
    if grant !in c.metadata.grants || grant !in p.grants || c.metadata.auth == NoAuth
       || (grant == PasswordGrant && !p.passwordEnabled) then
      Refused(UnauthorizedClient)
    else
      var aud := if q.resource.Some? then q.resource else p.defaultResource;
      if aud.None? then Refused(InvalidTarget)
      else
        var r := ResourceByAudience(cfg.resources, aud.value);
        if r.None? || !r.value.enabled || aud.value !in p.resources then Refused(InvalidTarget)
        else
          var allowed := p.resources[aud.value];
          var scopes := if q.scope.Some? then q.scope.value else allowed.default;
          if scopes == [] || !ValidResourceScopes(scopes) || !ScopeSubset(scopes, allowed.allowed)
             || !ScopeSubset(scopes, r.value.scopes) then
            Refused(InvalidScope)
          else if grant == PasswordGrant && !ScopeSubset(scopes, EntitledScopes(AccessOf(s, user), aud.value)) then
            Refused(InvalidGrant)
          else Allowed(aud.value, scopes)
  }

  /** What the policy, the configuration and, for a password, the account's entitlements allow. */
  lemma AllowedScopesOnly(s: State, cfg: Config, client: Id, grant: Grant, q: ResourceRequest, user: Id)
    requires client in s.clients
    ensures var g := ResourceGrant(s, cfg, client, grant, q, user);
            g.Allowed? ==>
              && g.scopes != [] && ScopeSubset(g.scopes, AllowedScopes(PolicyOf(s, client), g.audience))
              && grant in PolicyOf(s, client).grants
              && (grant == PasswordGrant ==> ScopeSubset(g.scopes, EntitledScopes(AccessOf(s, user), g.audience)))
  {
  }

  function ResourceToken(
    cfg: Config, client: Id, grant: Grant, user: Id, aud: Audience, scopes: seq<Scope>, now: Time): Token
  {
    Token(NONE, NONE, grant, if grant == PasswordGrant then UserSubject else ClientSubject, NONE, NoGrant, client, user,
          aud, scopes, NONE, now, now + cfg.accessTokenTtl, false)
  }

  /** The account a password was verified against before the transaction. */
  datatype Owner = Owner(id: Id, record: User)

  predicate OwnerCurrent(s: State, o: Owner) {
    o.id in s.users && s.users[o.id].active && s.users[o.id].password == o.record.password
    && s.users[o.id].email == o.record.email
  }

  /** Without an owner the grant is client_credentials, with one it is password. */
  ghost function IssueResource(
    s: State, cfg: Config, client: Id, c: Client, owner: Option<Owner>, q: ResourceRequest, access: Id,
    now: Time): Outcome
  {
    var grant := if owner.Some? then PasswordGrant else ClientCredentials;
    var user := if owner.Some? then owner.value.id else NONE;
    if owner.Some? && !cfg.passwordGrantEnabled then Denied(UnsupportedGrant)
    else if c.metadata.auth == NoAuth || grant !in c.metadata.grants then Denied(UnauthorizedClient)
    else if client !in s.clients then Denied(NotFound)
    else if s.clients[client].updatedAt != c.updatedAt then Denied(InvalidGrant)
    else if owner.Some? && !OwnerCurrent(s, owner.value) then Denied(InvalidGrant)
    else
      var g := ResourceGrant(s, cfg, client, grant, q, user);
      if g.Refused? then Denied(g.error)
      else Committed(PruneGrants(s.(tokens := s.tokens[access := ResourceToken(
                                                                   cfg, client, grant, user, g.audience, g.scopes,
                                                                   now)]),
                                 now))
  }

  lemma ResourceTokenOk(s: State, cfg: Config, client: Id, grant: Grant, q: ResourceRequest, user: Id, now: Time)
    requires client in s.clients && (grant == ClientCredentials || grant == PasswordGrant)
    requires if grant == PasswordGrant then UserHolds(s, user) else user == NONE
    ensures var g := ResourceGrant(s, cfg, client, grant, q, user);
            g.Allowed? ==>
              var t := ResourceToken(cfg, client, grant, user, g.audience, g.scopes, now);
              TokenGranted(s, cfg, t) && TokenLinked(t, s.apps) && TokenProven(t, s.codes)
              && TokenInFamily(t, s.families)
  {
  }

  lemma IssueResourceSound(
    s: State, tx: Tx, client: Id, c: Client, owner: Option<Owner>, q: ResourceRequest, access: Id)
    requires Starts(s, tx) && Drawn(tx, access)
    ensures SoundStep(s, IssueResource(s, tx.cfg, client, c, owner, q, access, tx.now), tx)
  {
    hide Inv, Sound, PruneGrants, KnownIds, ResourceGrant, TokenGranted, TokenLinked, TokenProven, TokenInFamily,
         SpentKept;
    Begin(s, tx);
    var o := IssueResource(s, tx.cfg, client, c, owner, q, access, tx.now);
    if o.Committed? {
      var grant := if owner.Some? then PasswordGrant else ClientCredentials;
      var user := if owner.Some? then owner.value.id else NONE;
      var g := ResourceGrant(s, tx.cfg, client, grant, q, user);
      var t := ResourceToken(tx.cfg, client, grant, user, g.audience, g.scopes, tx.now);
      ResourceTokenOk(s, tx.cfg, client, grant, q, user, tx.now);
      TokenSpentKept(s, s.(tokens := s.tokens[access := t]), tx.codes, access, t);
      SoundStill(s, tx);
      IssueEnds(s, s, s.(tokens := s.tokens[access := t]), tx, access, t);
    }
  }

  // ---------- Revocation ----------

  ghost function Revoke(s: State, client: Id, c: Client, hash: Id): Outcome {
    if client !in s.clients then Denied(NotFound)
    else if s.clients[client].updatedAt != c.updatedAt then Denied(InvalidClient)
    else if hash in s.tokens then Committed(if s.tokens[hash].clientId == client then RevokeToken(s, hash) else s)
    else if hash in s.refreshes && s.refreshes[hash].familyId in s.families
            && s.families[s.refreshes[hash].familyId].clientId == client then
      Committed(RevokeFamily(s, s.refreshes[hash].familyId))
    else Committed(s)
  }

  lemma RevokeStepSound(s: State, tx: Tx, client: Id, c: Client, hash: Id)
    requires Starts(s, tx)
    ensures SoundStep(s, Revoke(s, client, c, hash), tx)
  {
    hide Inv, Sound, RevokeGrants, KnownIds;
    Begin(s, tx);
    SoundStill(s, tx);
    RevokeSound(s, tx, {}, {hash});
    if hash in s.refreshes {
      RevokeSound(s, tx, {s.refreshes[hash].familyId}, {});
    }
  }
}
