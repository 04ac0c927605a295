/** What the authorization endpoint answers: when a request may be answered, what an answer stores, and when a
    code is issued without one. */
module Responses {
  import opened Records
  import opened Validity
  import opened Cascades
  import opened Steps
  import opened Authorization

  /** The sign-in lies within the age allowed. */
  predicate Recent(r: Session, now: Time, maxAge: Option<int>) {
    && r.authTime.Some? && r.authTime.value <= now < r.expiresAt
    && (maxAge.Some? ==> maxAge.value > 0 && now / SECOND - r.authTime.value / SECOND <= maxAge.value)
  }

  /** The consent stored for the account and client covers these scopes at the client's revision. */
  predicate Covered(s: State, user: Id, client: Id, revision: Time, scopes: seq<Scope>) {
    var k := ConsentKey(user, client);
    && k in s.consents && !s.consents[k].revoked && s.consents[k].policyRevision == revision
    && ScopeSubset(scopes, s.consents[k].scopes)
  }

  /** The request is open, it is this browser's, its client is as it was, and the live session is of an active
      account that it admits and signed in late enough for it. */
  predicate Answerable(s: State, txn: Id, binding: Id, session: Id, user: Id, now: Time) {
    && txn in s.txns && session in s.sessions
    && var t, r := s.txns[txn], s.sessions[session];
    && !t.revoked && !t.consumed && now < t.expiresAt && binding != NONE && t.bindingHash == binding
    && t.clientId in s.clients && s.clients[t.clientId].metadata.compatible
    && s.clients[t.clientId].updatedAt == t.clientUpdatedAt
    && r.endedAt.None? && r.userId == user && user in s.users && s.users[user].active
    && (t.userId != NONE ==> t.userId == user) && Recent(r, now, None)
    && (if t.reauthenticateAfter.Some? then r.authTime.value >= t.reauthenticateAfter.value
        else Recent(r, now, t.maxAge))
  }

  /** The request as the answering session leaves it. */
  predicate AnsweredBy(before: Txn, after: Txn, r: Session, done: bool)
    requires r.authTime.Some?
  {
    after == before.(userId := r.userId, opSessionId := r.id, authTime := r.authTime.value / SECOND, consumed := done)
  }

  /** The code of an answer: for the request's client, redirect URI and challenge and the answering account and
      session, unused, for the configured lifetime. */
  predicate CodeOf(c: Code, cfg: Config, txn: Id, t: Txn, r: Session, now: Time)
    requires r.authTime.Some?
  {
    && c.clientId == t.clientId && c.redirectUri == t.redirectUri && c.codeChallenge == t.codeChallenge
    && c.clientUpdatedAt == t.clientUpdatedAt && c.transactionId == txn
    && c.userId == r.userId && c.opSessionId == r.id && c.authTime == r.authTime.value / SECOND
    && !c.revoked && !c.consumed && c.retainUntil.None? && c.appSessionId == NONE
    && c.createdAt == now && c.expiresAt == now + cfg.codeTtl
  }

  /** An answer is accepted exactly if the request is answerable by this session. */
  lemma AnswerCommits(
    s: State, cfg: Config, txn: Id, binding: Id, session: Id, user: Id, approve: Option<bool>, approved: seq<Scope>,
    code: Id, now: Time)
    requires session != NONE
    ensures Complete(s, cfg, txn, binding, session, user, approve, approved, code, now).Committed? <==>
              Answerable(s, txn, binding, session, user, now)
  {
    hide MintCode, Consented, Granted, Consenting;
    if Answerable(s, txn, binding, session, user, now) {
      var t, r := s.txns[txn], s.sessions[session];
      var m := Consenting(s, t, user, approve, approved, now);
      ConsentingIs(s, t, user, approve, approved, now);
      var i := Issue(t.clientId, user, session, t.redirectUri, Granted(t, approve, approved), Unix(r.authTime.value),
                     t.codeChallenge, txn);
      MintIs(m, cfg, s.clients[t.clientId], i, code, now);
    }
  }

  lemma ConsentingIs(s: State, t: Txn, user: Id, approve: Option<bool>, approved: seq<Scope>, now: Time)
    requires t.clientId in s.clients
    ensures var m := Consenting(s, t, user, approve, approved, now);
            && m == s.(consents := m.consents)
            && (approve.None? ==> m == s)
            && (approve.Some? ==>
                  m.consents == s.consents[ConsentKey(user, t.clientId) :=
                                  Consent(Granted(t, approve, approved), s.clients[t.clientId].updatedAt, now, false)])
  {
    hide Granted;
    if approve.Some? {
      SaveNewConsent(s, ConsentKey(user, t.clientId),
                     Consent(Granted(t, approve, approved), s.clients[t.clientId].updatedAt, now, false), now);
    }
  }

  lemma MintIs(s: State, cfg: Config, c: Client, i: Issue, code: Id, now: Time)
    requires UserHolds(s, i.user) && i.client in s.clients && s.clients[i.client].metadata.compatible
    requires s.clients[i.client].updatedAt == c.updatedAt
    requires i.session != NONE && HasSession(s, i.session) && now < s.sessions[i.session].expiresAt
    ensures var o := MintCode(s, cfg, c, i, code, now);
            && o.Committed? && code in o.state.codes
            && o.state.codes[code] == NewCode(cfg, s.sessions[i.session].id, i, c.updatedAt, now)
            && o.state == PruneGrants(s, now).(codes := o.state.codes)
            && o.state.codes == PruneGrants(s, now).codes[code := o.state.codes[code]]
  {
    hide PruneGrants, NewCode;
  }

  /** What an answer grants: a decision grants openid and what was approved of the request, no decision grants
      the request. */
  ghost predicate Grants(scopes: seq<Scope>, t: Txn, approve: Option<bool>, approved: seq<Scope>) {
    forall sc :: sc in scopes <==>
      if approve.Some? then sc == OpenId || (sc in t.scopes && sc in approved) else sc in t.scopes
  }

  /** An answer uses the request up, unless it only asks where the request stands and a decision is wanted. It
      issues a code exactly if it approves, or if a consent covers the request and no decision is wanted; an
      approval stores the consent it gives; and a refusal changes nothing else. */
  ghost predicate Outcomes(
    s: State, r: State, cfg: Config, txn: Id, session: Id, approve: Option<bool>, approved: seq<Scope>, code: Id,
    now: Time)
    requires txn in s.txns && session in s.sessions && s.sessions[session].authTime.Some?
  {
    var t, row := s.txns[txn], s.sessions[session];
    var covered := Covered(s, row.userId, t.clientId, t.clientUpdatedAt, t.scopes);
    var granted := (approve.Some? && approve.value) || (approve.None? && covered && !t.promptConsent);
    && txn in r.txns && AnsweredBy(t, r.txns[txn], row, granted || approve.Some?)
    && if granted then
      && code in r.codes && CodeOf(r.codes[code], cfg, txn, t, row, now)
      && Grants(r.codes[code].scopes, t, approve, approved)
      && r.consents == (if approve.None? then s.consents
                        else s.consents[ConsentKey(row.userId, t.clientId) :=
                                          Consent(r.codes[code].scopes, t.clientUpdatedAt, now, false)])
      && Covered(r, row.userId, t.clientId, t.clientUpdatedAt, r.codes[code].scopes)
      && (forall k :: k in r.codes && k != code ==> k in s.codes && r.codes[k] == s.codes[k])
      && r == PruneGrants(s, now).(codes := r.codes, txns := r.txns, consents := r.consents)
    else
      r == s.(txns := s.txns[txn := r.txns[txn]])
  }

  lemma AnswerStores(
    s: State, cfg: Config, txn: Id, binding: Id, session: Id, user: Id, approve: Option<bool>, approved: seq<Scope>,
    code: Id, now: Time)
    requires session != NONE && Answerable(s, txn, binding, session, user, now)
    ensures var o := Complete(s, cfg, txn, binding, session, user, approve, approved, code, now);
            o.Committed? && Outcomes(s, o.state, cfg, txn, session, approve, approved, code, now)
  {
    var t := s.txns[txn];
    hide Complete, Outcomes;
    if if approve.Some? then approve.value
       else Covered(s, user, t.clientId, t.clientUpdatedAt, t.scopes) && !t.promptConsent {
      AnswerIssues(s, cfg, txn, binding, session, user, approve, approved, code, now);
    } else {
      AnswerNotes(s, cfg, txn, binding, session, user, approve, approved, code, now);
    }
  }

  lemma AnswerIs(
    s: State, cfg: Config, txn: Id, binding: Id, session: Id, user: Id, approve: Option<bool>, approved: seq<Scope>,
    code: Id, now: Time)
    ensures var o := Complete(s, cfg, txn, binding, session, user, approve, approved, code, now);
            session != NONE ==>
              && (o.Committed? <==> Answerable(s, txn, binding, session, user, now))
              && (o.Committed? ==>
                    && txn in s.txns && session in s.sessions && s.sessions[session].authTime.Some?
                    && Outcomes(s, o.state, cfg, txn, session, approve, approved, code, now))
  {
    hide Complete, Outcomes;
    if session != NONE {
      AnswerCommits(s, cfg, txn, binding, session, user, approve, approved, code, now);
      if Answerable(s, txn, binding, session, user, now) {
        AnswerStores(s, cfg, txn, binding, session, user, approve, approved, code, now);
      }
    }
  }

  lemma AnswerNotes(
    s: State, cfg: Config, txn: Id, binding: Id, session: Id, user: Id, approve: Option<bool>, approved: seq<Scope>,
    code: Id, now: Time)
    requires session != NONE && Answerable(s, txn, binding, session, user, now)
    requires var t := s.txns[txn];
             if approve.Some? then !approve.value
             else !Covered(s, user, t.clientId, t.clientUpdatedAt, t.scopes) || t.promptConsent
    ensures var o := Complete(s, cfg, txn, binding, session, user, approve, approved, code, now);
            o.Committed? && Outcomes(s, o.state, cfg, txn, session, approve, approved, code, now)
  {
    hide MintCode, Finish, PruneGrants;
    var t, r := s.txns[txn], s.sessions[session];
    var o := Complete(s, cfg, txn, binding, session, user, approve, approved, code, now);
    var b := if approve.Some? then BoundTxn(t, r).(consumed := true) else BoundTxn(t, r);
    assert o == Committed(s.(txns := s.txns[txn := b]));
    assert o.state.txns[txn] == b;
  }

  lemma AnswerIssues(
    s: State, cfg: Config, txn: Id, binding: Id, session: Id, user: Id, approve: Option<bool>, approved: seq<Scope>,
    code: Id, now: Time)
    requires session != NONE && Answerable(s, txn, binding, session, user, now)
    requires var t := s.txns[txn];
             if approve.Some? then approve.value
             else Covered(s, user, t.clientId, t.clientUpdatedAt, t.scopes) && !t.promptConsent
    ensures var o := Complete(s, cfg, txn, binding, session, user, approve, approved, code, now);
            o.Committed? && Outcomes(s, o.state, cfg, txn, session, approve, approved, code, now)
  {
    AnswerFinishes(s, cfg, txn, binding, session, user, approve, approved, code, now);
    assert approve.None? ==> Granted(s.txns[txn], approve, approved) == s.txns[txn].scopes;
    hide Complete, MintCode, Consenting, Granted, PruneGrants;
    var t, r := s.txns[txn], s.sessions[session];
    var m := Consenting(s, t, user, approve, approved, now);
    ConsentingIs(s, t, user, approve, approved, now);
    var i := Issue(t.clientId, user, session, t.redirectUri, Granted(t, approve, approved), Unix(r.authTime.value),
                   t.codeChallenge, txn);
    MintIs(m, cfg, s.clients[t.clientId], i, code, now);
    GrantedIs(t, approve, approved);
    PruneBeside(s, m, now);
  }

  lemma AnswerFinishes(
    s: State, cfg: Config, txn: Id, binding: Id, session: Id, user: Id, approve: Option<bool>, approved: seq<Scope>,
    code: Id, now: Time)
    requires Answerable(s, txn, binding, session, user, now)
    requires var t := s.txns[txn];
             if approve.Some? then approve.value
             else Covered(s, user, t.clientId, t.clientUpdatedAt, t.scopes) && !t.promptConsent
    ensures Complete(s, cfg, txn, binding, session, user, approve, approved, code, now)
         == Finish(s, cfg, txn, s.txns[txn], session, s.sessions[session], approve, approved, code, now)
  {
    hide Finish;
  }

  lemma GrantedIs(t: Txn, approve: Option<bool>, approved: seq<Scope>)
    ensures Grants(Granted(t, approve, approved), t, approve, approved)
  {
  }

  /** Pruning does not look at consents. */
  lemma PruneBeside(s: State, m: State, now: Time)
    requires m == s.(consents := m.consents)
    ensures PruneGrants(m, now) == PruneGrants(s, now).(consents := m.consents)
    ensures forall k :: k in PruneGrants(s, now).codes ==> k in s.codes && PruneGrants(s, now).codes[k] == s.codes[k]
    ensures PruneGrants(s, now).consents == s.consents
  {
  }

  // ---------- Without interaction ----------

  /** A request that forbids interaction is honoured exactly if the client may ask it and the browser's session,
      seen before and still there, is signed in recently enough and a consent covers it; it issues a code for
      what was asked, to where it was asked. */
  lemma SilentStores(
    s: State, cfg: Config, id: Id, c: Client, q: Request, offline: bool, session: Id, row: Session, code: Id, t0: Time,
    now: Time)
    requires session != NONE
    ensures var o := MintNone(s, cfg, id, c, q, offline, session, row, code, t0, now);
            && (o.Committed? <==>
                  && Askable(cfg, c, q, offline) && q.none && !q.consent && !MustSignIn(q, Some(row), t0)
                  && session in s.sessions && s.sessions[session].endedAt.None?
                  && s.sessions[session].userId == row.userId && Recent(s.sessions[session], now, q.maxAge)
                  && row.userId in s.users && s.users[row.userId].active
                  && id in s.clients && s.clients[id].updatedAt == c.updatedAt && s.clients[id].metadata.compatible
                  && Covered(s, row.userId, id, c.updatedAt, Filtered(cfg, q.scopes)))
            && (o.Committed? ==>
                  && code in o.state.codes
                  && var r := o.state.codes[code];
                  && r.clientId == id && r.redirectUri == q.redirectUri && r.codeChallenge == q.codeChallenge
                  && r.clientUpdatedAt == c.updatedAt && r.userId == row.userId
                  && r.opSessionId == s.sessions[session].id && row.authTime.Some?
                  && r.authTime == row.authTime.value / SECOND && ScopeSubset(r.scopes, q.scopes)
                  && (forall sc <- q.scopes :: sc in r.scopes <==>
                        sc == OpenId || sc.ClaimScope? || (sc == OfflineAccess && cfg.refreshTokensEnabled))
                  && !r.revoked && !r.consumed && r.createdAt == now && r.expiresAt == now + cfg.codeTtl
                  && o.state == PruneGrants(s, now).(codes := o.state.codes))
  {
    hide MintCode, PruneGrants;
    var i := Issue(id, row.userId, session, q.redirectUri, Filtered(cfg, q.scopes),
                   if row.authTime.Some? then Unix(row.authTime.value) else 0, q.codeChallenge, NONE);
    MintOr(s, cfg, c, i, code, now);
  }

  lemma MintOr(s: State, cfg: Config, c: Client, i: Issue, code: Id, now: Time)
    requires i.session != NONE
    ensures var o := MintCode(s, cfg, c, i, code, now);
            && (HasSession(s, i.session) && now < s.sessions[i.session].expiresAt ==>
                  (o.Committed? <==>
                     && UserHolds(s, i.user) && i.client in s.clients && s.clients[i.client].metadata.compatible
                     && s.clients[i.client].updatedAt == c.updatedAt))
            && (o.Committed? ==>
                  && HasSession(s, i.session) && code in o.state.codes
                  && o.state.codes[code] == NewCode(cfg, s.sessions[i.session].id, i, c.updatedAt, now)
                  && o.state == PruneGrants(s, now).(codes := o.state.codes))
  {
    hide PruneGrants, NewCode;
  }
}
