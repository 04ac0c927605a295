/** Inactivity is final: what every run keeps of access tokens and refresh families, and when a token is
    active right after it is issued. */
module Finality {
  import opened Records
  import opened Validity
  import opened Cascades
  import opened Invariants
  import opened Evolution
  import opened Steps
  import opened TokenEndpoint
  import opened Machine

  // ---------- Access tokens ----------

  predicate SessionBound(t: Token) { t.opSessionId != NONE && t.familyId == NONE }

  /** In a reachable store an access token is active exactly when it is not revoked, not expired, its
      client was not changed since, and the session it is bound to is active: every change of policy,
      client, account, entitlement, association or family is already in the revoked flag. */
  lemma ActiveExactly(s: State, cfg: Config, used: set<Id>, h: Id, now: Time)
    requires Inv(s, cfg, used) && h in s.tokens
    ensures var t := s.tokens[h];
            AccessTokenActive(s, cfg, t, now) <==>
              && !t.revoked && now < t.expiresAt
              && t.clientId in s.clients && s.clients[t.clientId].updatedAt <= t.issuedAt
              && (SessionBound(t) ==> SessionActive(s, t.opSessionId, now))
  {
  }

  ghost predicate TokenActive(cfg: Config, w: World, h: Id) {
    h in w.state.tokens && AccessTokenActive(w.state, cfg, w.state.tokens[h], w.clock)
  }

  /** A session that is active after a step was active before it. */
  lemma SessionWasActive(s: State, r: State, used: set<Id>, id: Id, before: Time, now: Time)
    requires SessionsEvolve(s.sessions, r.sessions, used, now) && before <= now && id in used
    requires SessionActive(r, id, now)
    ensures SessionActive(s, id, before)
  {
  }

  lemma TokenWasActive(cfg: Config, v: World, e: Event, w: World, h: Id)
    requires Inv(v.state, cfg, v.used) && Inv(w.state, cfg, w.used) && Evolves(v.state, w.state, TxOf(cfg, v, e, w))
    requires v.clock <= w.clock && h in v.used && TokenActive(cfg, w, h)
    ensures TokenActive(cfg, v, h)
  {
    ActiveExactly(w.state, cfg, w.used, h, w.clock);
    var t := w.state.tokens[h];
    assert h in v.state.tokens && v.state.tokens[h] == t by {
      assert TokenFlagged(v.state.tokens[h], w.state.tokens[h]);
    }
    ActiveExactly(v.state, cfg, v.used, h, v.clock);
    assert TokenGranted(v.state, cfg, t) && TokenLinked(t, v.state.apps);
    assert ClientNewer(v.state.clients[t.clientId], w.state.clients[t.clientId]) by { assert t.clientId in v.used; }
    if SessionBound(t) {
      var a := v.state.apps[t.appSessionId];
      assert HasLiveRow(v.state.sessions, a.opSessionId, a.userId);
      var k :| k in v.state.sessions && IsLiveRow(v.state.sessions[k], t.opSessionId, a.userId);
      assert t.opSessionId in v.used;
      SessionWasActive(v.state, w.state, v.used, t.opSessionId, v.clock, w.clock);
    }
  }

  /** Once an access token is inactive, or gone, it is inactive at every later moment of the run. */
  lemma {:induction false} InactivityIsFinal(cfg: Config, ws: seq<World>, es: seq<Event>, i: nat, j: nat, h: Id)
    requires Run(cfg, ws, es) && Steady(ws) && i <= j < |ws| && h in ws[i].used
    requires !TokenActive(cfg, ws[i], h)
    ensures !TokenActive(cfg, ws[j], h)
  {
    hide Inv, Evolves, StepAt, TokenActive;
    if i < j {
      InactivityIsFinal(cfg, ws, es, i, j - 1, h);
      UsedGrows(cfg, ws, es, i, j - 1);
      Onward(cfg, ws, es, j - 1);
      if TokenActive(cfg, ws[j], h) {
        TokenWasActive(cfg, ws[j - 1], es[j - 1], ws[j], h);
      }
    }
  }

  // ---------- Issuance ----------

  /** A token issued at `now` is active from then on exactly if its client's revision is not ahead of the
      clock. */
  ghost predicate IssuedWell(r: State, cfg: Config, h: Id, now: Time) {
    && h in r.tokens && r.tokens[h].issuedAt == now && r.tokens[h].clientId in r.clients
    && (AccessTokenActive(r, cfg, r.tokens[h], now) <==> r.clients[r.tokens[h].clientId].updatedAt <= now)
  }

  lemma IssuedActive(r: State, cfg: Config, used: set<Id>, h: Id, now: Time)
    requires Inv(r, cfg, used) && h in r.tokens && !r.tokens[h].revoked
             && r.tokens[h].issuedAt == now < r.tokens[h].expiresAt
    requires SessionBound(r.tokens[h]) ==> SessionActive(r, r.tokens[h].opSessionId, now)
    ensures IssuedWell(r, cfg, h, now)
  {
  }

  lemma IssueStores(s: State, cfg: Config, code: Id, c: Code, app: Id, d: Drawing, now: Time)
    requires IssueFromCode(s, cfg, code, c, app, d, now).Committed? && 0 < cfg.accessTokenTtl
    requires c.expiresAt > now
    ensures var r := IssueFromCode(s, cfg, code, c, app, d, now).state;
            && r.sessions == s.sessions && r.clients == s.clients
            && d.access in r.tokens && !r.tokens[d.access].revoked && r.tokens[d.access].issuedAt == now
            && now < r.tokens[d.access].expiresAt
            && r.tokens[d.access].opSessionId == c.opSessionId && r.tokens[d.access].clientId == c.clientId
            && r.tokens[d.access].codeHash == code
            && r.tokens[d.access].userId == c.userId && r.tokens[d.access].scopes == c.scopes
            && code in r.codes && r.codes[code].consumed
  {
  }

  /** The joined session is seen, not changed. */
  lemma JoinedActive(s: State, op: Id, client: Id, user: Id, drawnId: Id, now: Time)
    requires JoinSession(s, op, client, user, drawnId, now).Joined? && SessionActive(s, op, now)
    ensures var j := JoinSession(s, op, client, user, drawnId, now);
            SessionActive(j.state, op, now) && j.state.clients == s.clients
  {
    hide LinkedApp;
    var j := JoinSession(s, op, client, user, drawnId, now);
    var h :| h in s.sessions && s.sessions[h].id == op && Live(s.sessions[h]) && now < s.sessions[h].expiresAt;
    assert h in j.state.sessions && j.state.sessions[h].id == op;
  }

  /** What a first presentation of a code stores. */
  lemma ExchangeStores(
    s: State, cfg: Config, client: Id, c: Client, code: Id, redirectUri: Id, challenge: Id, d: Drawing, now: Time)
    requires 0 < cfg.accessTokenTtl && code in s.codes && !s.codes[code].consumed
    requires Exchange(s, cfg, client, c, code, redirectUri, challenge, d, now).Committed?
    ensures var r := Exchange(s, cfg, client, c, code, redirectUri, challenge, d, now).state;
            && d.access in r.tokens && r.tokens[d.access].codeHash == code
            && r.tokens[d.access].userId == s.codes[code].userId
            && r.tokens[d.access].scopes == s.codes[code].scopes && r.tokens[d.access].clientId == client
            && !r.tokens[d.access].revoked && r.tokens[d.access].issuedAt == now < r.tokens[d.access].expiresAt
            && (SessionBound(r.tokens[d.access]) ==> SessionActive(r, r.tokens[d.access].opSessionId, now))
            && code in r.codes && r.codes[code].consumed
  {
    hide IssueFromCode, JoinSession, SessionActive, UserHolds;
    var record := s.codes[code];
    if record.opSessionId == NONE {
      IssueStores(s, cfg, code, record, NONE, d, now);
    } else {
      var j := JoinSession(s, record.opSessionId, client, record.userId, d.app, now);
      IssueStores(j.state, cfg, code, record.(appSessionId := j.app), j.app, d, now);
      JoinedActive(s, record.opSessionId, client, record.userId, d.app, now);
      SessionsDecide(j.state, Exchange(s, cfg, client, c, code, redirectUri, challenge, d, now).state,
                     record.opSessionId, now);
    }
  }

  lemma SessionsDecide(s: State, r: State, id: Id, now: Time)
    requires s.sessions == r.sessions
    ensures SessionActive(s, id, now) == SessionActive(r, id, now)
  {
  }

  /** The code grant issues an active token, for the user, client and scopes of the code. */
  lemma ExchangeIssues(s: State, tx: Tx, client: Id, c: Client, code: Id, redirectUri: Id, challenge: Id, d: Drawing)
    requires Starts(s, tx) && Drawn(tx, d.access) && Drawn(tx, d.refresh) && Drawn(tx, d.family) && Drawn(tx, d.app)
    requires tx.joins && code in s.codes && !s.codes[code].consumed
    requires Exchange(s, tx.cfg, client, c, code, redirectUri, challenge, d, tx.now).Committed?
    ensures IssuedWell(Exchange(s, tx.cfg, client, c, code, redirectUri, challenge, d, tx.now).state, tx.cfg, d.access,
                       tx.now)
  {
    hide Inv, Evolves, TokenEndpoint.Exchange, IssuedWell, SessionActive;
    var r := Exchange(s, tx.cfg, client, c, code, redirectUri, challenge, d, tx.now).state;
    ExchangeSound(s, tx, client, c, code, redirectUri, challenge, d);
    ExchangeStores(s, tx.cfg, client, c, code, redirectUri, challenge, d, tx.now);
    IssuedActive(r, tx.cfg, tx.known, d.access, tx.now);
  }

  /** The refresh grant issues an active token. */
  lemma RefreshIssues(s: State, tx: Tx, client: Id, c: Client, hash: Id, q: RefreshRequest, access: Id, next: Id)
    requires Starts(s, tx) && Drawn(tx, access) && Drawn(tx, next)
    requires hash in s.refreshes && !s.refreshes[hash].consumed
    requires RefreshStep(s, tx.cfg, client, c, hash, q, access, next, tx.now).Committed?
    ensures IssuedWell(RefreshStep(s, tx.cfg, client, c, hash, q, access, next, tx.now).state, tx.cfg, access, tx.now)
  {
  }

  lemma ResourceStores(
    s: State, cfg: Config, client: Id, c: Client, owner: Option<Owner>, q: ResourceRequest, access: Id, now: Time)
    requires IssueResource(s, cfg, client, c, owner, q, access, now).Committed? && 0 < cfg.accessTokenTtl
    ensures var r := IssueResource(s, cfg, client, c, owner, q, access, now).state;
            && access in r.tokens && !r.tokens[access].revoked
            && r.tokens[access].issuedAt == now < r.tokens[access].expiresAt
            && r.tokens[access].opSessionId == NONE
  {
  }

  /** The client_credentials and password grants issue an active token. */
  lemma ResourceIssues(s: State, tx: Tx, client: Id, c: Client, owner: Option<Owner>, q: ResourceRequest, access: Id)
    requires Starts(s, tx) && Drawn(tx, access)
             && IssueResource(s, tx.cfg, client, c, owner, q, access, tx.now).Committed?
    ensures IssuedWell(IssueResource(s, tx.cfg, client, c, owner, q, access, tx.now).state, tx.cfg, access, tx.now)
  {
    hide Inv, Evolves, IssuedWell, SessionActive, IssueResource;
    IssueResourceSound(s, tx, client, c, owner, q, access);
    ResourceStores(s, tx.cfg, client, c, owner, q, access, tx.now);
    IssuedActive(IssueResource(s, tx.cfg, client, c, owner, q, access, tx.now).state, tx.cfg, tx.known, access, tx.now);
  }

  lemma TwoSaves(s: State, id: Id, c: Client, d: Client, now: Time)
    requires id !in s.clients && c.updatedAt == now && d.updatedAt == now
    ensures var r := SaveClient(SaveClient(s, id, c, now), id, d, now);
            id in r.clients && r.clients[id] == d.(updatedAt := now + 1)
  {
  }

  lemma PolicySaved(s: State, id: Id, p: Policy, now: Time)
    ensures SavePolicy(s, id, p, now).clients == s.clients && PolicyOf(SavePolicy(s, id, p, now), id) == p
  {
  }

  ghost function SavedTwice(s: State, id: Id, c: Client, d: Client, p: Policy, now: Time): State {
    SavePolicy(SaveClient(SaveClient(s, id, c, now), id, d, now), id, p, now)
  }

  /** The revision can be ahead: a client is registered and saved again at one reading of the clock. Whatever
      client_credentials token its policy allows at that reading is issued, and inactive. */
  lemma RevisionAhead(
    s: State, cfg: Config, id: Id, c: Client, d: Client, p: Policy, q: ResourceRequest, access: Id, now: Time)
    requires 0 < cfg.accessTokenTtl && id !in s.clients && c.updatedAt == now && d.updatedAt == now
    requires id in SavedTwice(s, id, c, d, p, now).clients
    requires ResourceGrant(SavedTwice(s, id, c, d, p, now), cfg, id, ClientCredentials, q, NONE).Allowed?
    ensures var r := SavedTwice(s, id, c, d, p, now);
            && r.clients[id].updatedAt == now + 1
            && var o := IssueResource(r, cfg, id, r.clients[id], None, q, access, now);
            && o.Committed? && access in o.state.tokens && !o.state.tokens[access].revoked
            && o.state.tokens[access].issuedAt == now < o.state.tokens[access].expiresAt
            && !AccessTokenActive(o.state, cfg, o.state.tokens[access], now)
  {
    TwoSaves(s, id, c, d, now);
    PolicySaved(SaveClient(SaveClient(s, id, c, now), id, d, now), id, p, now);
    hide SavedTwice;
    var r := SavedTwice(s, id, c, d, p, now);
    AllowedClient(r, cfg, id, q);
    AheadIssues(r, cfg, id, r.clients[id], q, access, now);
  }

  lemma AllowedClient(s: State, cfg: Config, id: Id, q: ResourceRequest)
    requires id in s.clients && ResourceGrant(s, cfg, id, ClientCredentials, q, NONE).Allowed?
    ensures s.clients[id].metadata.auth != NoAuth && ClientCredentials in s.clients[id].metadata.grants
  {
  }

  lemma AheadIssues(s: State, cfg: Config, id: Id, c: Client, q: ResourceRequest, access: Id, now: Time)
    requires 0 < cfg.accessTokenTtl && id in s.clients && s.clients[id] == c && c.updatedAt == now + 1
    requires c.metadata.auth != NoAuth && ClientCredentials in c.metadata.grants
    requires ResourceGrant(s, cfg, id, ClientCredentials, q, NONE).Allowed?
    ensures var o := IssueResource(s, cfg, id, c, None, q, access, now);
            && o.Committed? && access in o.state.tokens && !o.state.tokens[access].revoked
            && o.state.tokens[access].issuedAt == now < o.state.tokens[access].expiresAt
            && !AccessTokenActive(o.state, cfg, o.state.tokens[access], now)
  {
    hide ResourceGrant, SessionHolds, GrantHolds, FamilyHolds;
  }

  // ---------- Refresh families ----------

  /** In a reachable store a family is active exactly when it is not revoked, not idle (so not past its
      absolute expiry) and the consent still covers it. */
  lemma FamilyActiveExactly(s: State, cfg: Config, used: set<Id>, f: Id, now: Time)
    requires Inv(s, cfg, used) && f in s.families
    ensures RefreshFamilyActive(s, s.families[f], now) <==>
              !s.families[f].revoked && now < s.families[f].idleExpiry && ConsentCoversFamily(s, s.families[f])
  {
  }

  ghost predicate FamilyActive(w: World, f: Id) {
    f in w.state.families && RefreshFamilyActive(w.state, w.state.families[f], w.clock)
  }

  ghost predicate FamilyCovered(w: World, f: Id) {
    f in w.state.families && ConsentCoversFamily(w.state, w.state.families[f])
  }

  ghost predicate FamilyAlive(w: World, f: Id) {
    f in w.state.families && !w.state.families[f].revoked && w.clock < w.state.families[f].idleExpiry
  }

  lemma FamilyWasAlive(cfg: Config, v: World, e: Event, w: World, f: Id)
    requires Evolves(v.state, w.state, TxOf(cfg, v, e, w)) && v.clock <= w.clock && f in v.used && FamilyAlive(w, f)
    ensures FamilyAlive(v, f)
  {
  }

  /** Revocation, absolute expiry and idleness of a family are final. */
  lemma {:induction false} FamilyDeathIsFinal(cfg: Config, ws: seq<World>, es: seq<Event>, i: nat, j: nat, f: Id)
    requires Run(cfg, ws, es) && Steady(ws) && i <= j < |ws| && f in ws[i].used && !FamilyAlive(ws[i], f)
    ensures !FamilyAlive(ws[j], f)
  {
    hide Inv, Evolves, StepAt, FamilyAlive;
    if i < j {
      FamilyDeathIsFinal(cfg, ws, es, i, j - 1, f);
      UsedGrows(cfg, ws, es, i, j - 1);
      Onward(cfg, ws, es, j - 1);
      if FamilyAlive(ws[j], f) {
        FamilyWasAlive(cfg, ws[j - 1], es[j - 1], ws[j], f);
      }
    }
  }

  /** An inactive family becomes active again exactly when only the consent's scopes had left it uncovered:
      a narrower approval followed by a wider one. Its client, policy, account and revision held all along. */
  lemma FamilyReactivation(cfg: Config, ws: seq<World>, es: seq<Event>, i: nat, j: nat, f: Id)
    requires Run(cfg, ws, es) && Steady(ws) && i <= j < |ws| && f in ws[i].used
    ensures !FamilyActive(ws[i], f) && FamilyActive(ws[j], f) <==>
              FamilyAlive(ws[j], f) && FamilyCovered(ws[j], f) && !FamilyCovered(ws[i], f)
    ensures FamilyActive(ws[j], f) ==> FamilyAlive(ws[i], f) && FamilyGrantHolds(ws[i].state, ws[i].state.families[f])
  {
    At(cfg, ws, es, i);
    At(cfg, ws, es, j);
    if FamilyAlive(ws[j], f) && !FamilyAlive(ws[i], f) {
      hide *;
      FamilyDeathIsFinal(cfg, ws, es, i, j, f);
    }
    if f in ws[i].state.families {
      FamilyActiveExactly(ws[i].state, cfg, ws[i].used, f, ws[i].clock);
      assert FamilyGranted(ws[i].state, ws[i].state.families[f]);
    }
    if f in ws[j].state.families {
      FamilyActiveExactly(ws[j].state, cfg, ws[j].used, f, ws[j].clock);
    }
    hide Run, Inv, RefreshFamilyActive, ConsentCoversFamily, FamilyGrantHolds;
  }

  /** It does happen: a narrower consent silences an active family, and the old consent revives it. */
  lemma NarrowThenWiden(s: State, f: Id, now: Time)
    requires f in s.families && RefreshFamilyActive(s, s.families[f], now)
    ensures var g := s.families[f];
            var k := ConsentKey(g.userId, g.clientId);
            var narrow := SaveConsent(s, k, s.consents[k].(scopes := [OpenId]), now);
            var wide := SaveConsent(narrow, k, s.consents[k], now);
            f in narrow.families && !RefreshFamilyActive(narrow, narrow.families[f], now)
            && f in wide.families && RefreshFamilyActive(wide, wide.families[f], now)
  {
  }
}
