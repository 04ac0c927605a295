/** Introspection (internal/oidc/oauth.go, section 2.2 of RFC 7662): what a client is told about a
    credential, and what that is worth. */
module Introspection {
  import opened Records
  import opened Validity
  import opened Cascades
  import opened Invariants
  import opened Steps
  import opened TokenEndpoint
  import opened Machine
  import opened Finality

  datatype Report = Refused(error: Error) | Inactive | TokenReport(token: Token) | RefreshReport(
    family: Family, scopes: seq<Scope>, expires: Time)

  /** `c` is the client record that authenticated the request. */
  function Introspect(s: State, cfg: Config, client: Id, c: Client, hash: Id, now: Time): Report {
    if client !in s.clients then Report.Refused(NotFound)
    else
      var p := PolicyOf(s, client);
      if s.clients[client].updatedAt != c.updatedAt || c.metadata.auth == NoAuth || !p.introspection then
        Report.Refused(Forbidden)
      else if hash in s.tokens then
        var t := s.tokens[hash];
        if AccessTokenActive(s, cfg, t, now) && t.audience in p.audiences then TokenReport(t) else Inactive
      else if hash !in s.refreshes || s.refreshes[hash].familyId !in s.families then Inactive
      else
        var r := s.refreshes[hash];
        var f := s.families[r.familyId];
        if !cfg.refreshTokensEnabled || !p.refreshInspection || f.audience !in p.audiences || f.clientId != client
           || r.consumed then
          Inactive
        else if RefreshFamilyActive(s, f, now) then RefreshReport(f, r.scopes, MinTime(f.absoluteExpiry, f.idleExpiry))
        else Inactive
  }

  /** The client may introspect: the record that authenticated it is current, it has a secret, and its policy
      lets it. */
  predicate MayAsk(s: State, client: Id, c: Client) {
    && client in s.clients && s.clients[client].updatedAt == c.updatedAt && c.metadata.auth != NoAuth
    && PolicyOf(s, client).introspection
  }

  /** Introspection is refused exactly to who may not ask. */
  lemma RefusedExactly(s: State, cfg: Config, client: Id, c: Client, hash: Id, now: Time)
    ensures Introspect(s, cfg, client, c, hash, now).Refused? <==> !MayAsk(s, client, c)
  {
    hide AccessTokenActive, RefreshFamilyActive;
  }

  /** In a reachable store a token is reported exactly if the client may ask, its policy lets it inspect the
      token's audience, and the token is active; what is reported is the stored record. */
  lemma TokenReportedExactly(s: State, cfg: Config, used: set<Id>, client: Id, c: Client, hash: Id, now: Time, t: Token)
    requires Inv(s, cfg, used)
    ensures Introspect(s, cfg, client, c, hash, now) == TokenReport(t) <==>
              && MayAsk(s, client, c) && t.audience in PolicyOf(s, client).audiences
              && hash in s.tokens && t == s.tokens[hash] && !t.revoked && now < t.expiresAt
              && t.clientId in s.clients && s.clients[t.clientId].updatedAt <= t.issuedAt
              && (SessionBound(t) ==> SessionActive(s, t.opSessionId, now))
  {
    hide Inv, AccessTokenActive, RefreshFamilyActive, SessionActive;
    if hash in s.tokens {
      ActiveExactly(s, cfg, used, hash, now);
    }
  }

  /** What is reported of a refresh token are its own scopes and its family, and the moment until which, if
      nothing else happens, it can be used. */
  lemma ReportedUntil(
    s: State, cfg: Config, client: Id, c: Client, hash: Id, access: Id, next: Id, now: Time, at: Time)
    requires var r := Introspect(s, cfg, client, c, hash, now); r.RefreshReport?
    ensures var r := Introspect(s, cfg, client, c, hash, now);
            && hash in s.refreshes && r.scopes == s.refreshes[hash].scopes
            && s.refreshes[hash].familyId in s.families && r.family == s.families[s.refreshes[hash].familyId]
            && (RefreshStep(s, cfg, client, c, hash, RefreshRequest(None, None), access, next, at).Committed? <==>
                  at < r.expires)
  {
    hide PruneGrants;
  }

  /** A token reported active was active at every earlier moment of the run since its hash was drawn. */
  lemma ReportedWasActive(cfg: Config, ws: seq<World>, es: seq<Event>, i: nat, j: nat, client: Id, c: Client, h: Id)
    requires Run(cfg, ws, es) && Steady(ws) && i <= j < |ws| && h in ws[i].used
    requires Introspect(ws[j].state, cfg, client, c, h, ws[j].clock).TokenReport?
    ensures TokenActive(cfg, ws[i], h)
  {
    hide StepAt, AccessTokenActive, RefreshFamilyActive;
    if !TokenActive(cfg, ws[i], h) {
      InactivityIsFinal(cfg, ws, es, i, j, h);
    }
  }

  /** A refresh token is reported active exactly when its client, allowed to inspect its audience, could use
      it right now for all its scopes. */
  lemma ReportedIsUsable(s: State, cfg: Config, client: Id, c: Client, hash: Id, access: Id, next: Id, now: Time)
    requires hash !in s.tokens && hash in s.refreshes && !s.refreshes[hash].consumed
    ensures Introspect(s, cfg, client, c, hash, now).RefreshReport? <==>
              && RefreshStep(s, cfg, client, c, hash, RefreshRequest(None, None), access, next, now).Committed?
              && c.metadata.auth != NoAuth
              && PolicyOf(s, client).introspection && PolicyOf(s, client).refreshInspection
              && s.families[s.refreshes[hash].familyId].audience in PolicyOf(s, client).audiences
  {
  }
}
