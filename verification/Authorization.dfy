/** The authorization endpoint and the interaction that completes it (internal/oidc/authorize.go,
    internal/oidc/interaction.go, internal/oidc/params.go). */
module Authorization {
  import opened Records
  import opened Validity
  import opened Cascades
  import opened Invariants
  import opened Evolution
  import opened Changes
  import opened Purges
  import opened Steps

  // ---------- A client read before the transaction ----------

  /** A client record read in an earlier transaction: if its revision is still current, so is the record. */
  ghost predicate ClientSnapshot(s: State, used: set<Id>, id: Id, c: Client) {
    id in used && (id in s.clients ==> ClientNewer(c, s.clients[id]))
  }

  // ---------- Freshness and consent ----------

  function Unix(t: Time): int { t / SECOND }

  predicate SessionFresh(r: Session, now: Time, maxAge: Option<int>) {
    && r.authTime.Some? && r.authTime.value <= now && now < r.expiresAt
    && (maxAge.Some? ==> maxAge.value > 0 && Unix(now) - Unix(r.authTime.value) <= maxAge.value)
  }

  predicate ConsentCovers(c: Consent, client: Client, scopes: seq<Scope>) {
    !c.revoked && c.policyRevision == client.updatedAt && ScopeSubset(scopes, c.scopes)
  }

  predicate Consented(s: State, user: Id, id: Id, client: Client, scopes: seq<Scope>) {
    var k := ConsentKey(user, id);
    k in s.consents && ConsentCovers(s.consents[k], client, scopes)
  }

  // ---------- Starting a request ----------

  datatype Request = Request(
    redirectUri: Id, scopes: seq<Scope>, codeChallenge: Id, login: bool, consent: bool, none: bool,
    maxAge: Option<int>)

  predicate Supported(cfg: Config, sc: Scope) {
    sc.OpenId? || sc.ClaimScope? || (sc.OfflineAccess? && cfg.refreshTokensEnabled)
  }

  /** Unsupported scopes are dropped, in order. */
  function Filtered(cfg: Config, scopes: seq<Scope>): (r: seq<Scope>)
    ensures forall sc :: sc in r <==> sc in scopes && Supported(cfg, sc)
  {
    if scopes == [] then []
    else (if Supported(cfg, scopes[0]) then [scopes[0]] else []) + Filtered(cfg, scopes[1..])
  }

  /** `offline` says that the policy, read separately, allows offline access to this client. */
  function RequestError(cfg: Config, c: Client, q: Request, offline: bool): Option<Error> {
    if !c.metadata.compatible || q.redirectUri !in c.metadata.redirectUris then Some(InvalidClient)
    else if AuthorizationCode !in c.metadata.grants then Some(UnauthorizedClient)
    else if OfflineAccess in q.scopes
            && !(offline && cfg.refreshTokensEnabled && RefreshGrant in c.metadata.grants && q.consent) then
      Some(InvalidScope)
    else if OpenId !in q.scopes then Some(InvalidScope)
    else if q.codeChallenge == NONE || (q.none && (q.login || q.consent)) then Some(Invalid)
    else if q.maxAge.Some? && q.maxAge.value < 0 then Some(Invalid)
    else None
  }

  /** A request needs a sign-in when there is no session, one was asked for, or the session is not fresh. */
  predicate NeedsLogin(q: Request, row: Option<Session>, t0: Time) {
    row.None? || q.login || !SessionFresh(row.value, t0, q.maxAge)
  }

  function NewTxn(cfg: Config, id: Id, c: Client, q: Request, row: Option<Session>, binding: Id, t0: Time): Txn {
    var known := !NeedsLogin(q, row, t0);
    Txn(if known then row.value.id else NONE, false, if known then None else Some(t0), id, q.redirectUri,
        Filtered(cfg, q.scopes), q.codeChallenge, q.consent, q.maxAge, binding,
        if known then row.value.userId else NONE,
        if known && row.value.authTime.Some? then Unix(row.value.authTime.value) else 0,
        c.updatedAt, false, t0 + cfg.transactionTtl, t0)
  }

  /** What a stored request asks: the redirect URI, challenge, age and consent demand the client sent, in this
      browser, for exactly the supported scopes among those it sent, until the request expires. */
  predicate AsksFor(t: Txn, cfg: Config, id: Id, c: Client, q: Request, binding: Id, t0: Time) {
    && t.clientId == id && t.clientUpdatedAt == c.updatedAt && t.redirectUri == q.redirectUri
    && t.codeChallenge == q.codeChallenge && t.maxAge == q.maxAge && t.promptConsent == q.consent
    && t.bindingHash == binding && t.createdAt == t0 && t.expiresAt == t0 + cfg.transactionTtl
    && !t.revoked && !t.consumed
    && ScopeSubset(t.scopes, q.scopes)
    && forall sc <- q.scopes :: sc in t.scopes <==>
         sc == OpenId || sc.ClaimScope? || (sc == OfflineAccess && cfg.refreshTokensEnabled)
  }

  /** The browser has to sign in: it is not signed in, the client demands it, or its sign-in lies outside the age
      the client allows. */
  predicate MustSignIn(q: Request, row: Option<Session>, t0: Time) {
    || row.None? || q.login || row.value.authTime.None? || row.value.authTime.value > t0 || row.value.expiresAt <= t0
    || (q.maxAge.Some? && (q.maxAge.value <= 0 || t0 / SECOND - row.value.authTime.value / SECOND > q.maxAge.value))
  }

  /** A request is bound to the account and session of the browser if it need not sign in, and otherwise to a
      sign-in still to come. */
  predicate BoundTo(t: Txn, q: Request, row: Option<Session>, t0: Time) {
    if MustSignIn(q, row, t0) then t.userId == NONE && t.opSessionId == NONE && t.reauthenticateAfter == Some(t0)
    else
      && t.userId == row.value.userId && t.opSessionId == row.value.id && t.reauthenticateAfter.None?
      && row.value.authTime.Some? && t.authTime == row.value.authTime.value / SECOND
  }

  /** The client may ask this of the provider. */
  predicate Askable(cfg: Config, c: Client, q: Request, offline: bool) {
    && c.metadata.compatible && AuthorizationCode in c.metadata.grants && q.redirectUri in c.metadata.redirectUris
    && OpenId in q.scopes && q.codeChallenge != NONE && (q.maxAge.Some? ==> q.maxAge.value >= 0)
    && (OfflineAccess in q.scopes ==>
          offline && cfg.refreshTokensEnabled && RefreshGrant in c.metadata.grants && q.consent)
  }

  /** A request is stored exactly if the client may ask it and does not forbid interaction, and it is what the
      client sent. */
  lemma AuthorizeStores(
    s: State, cfg: Config, id: Id, c: Client, q: Request, offline: bool, row: Option<Session>, binding: Id, txn: Id,
    t0: Time)
    ensures var o := Authorize(s, cfg, id, c, q, offline, row, binding, txn, t0);
            && (o.Committed? <==> Askable(cfg, c, q, offline) && !q.none)
            && (o.Committed? ==>
                  && txn in o.state.txns && AsksFor(o.state.txns[txn], cfg, id, c, q, binding, t0)
                  && BoundTo(o.state.txns[txn], q, row, t0)
                  && forall k :: k in o.state.txns && k != txn ==> k in s.txns && o.state.txns[k] == s.txns[k])
  {
    PruneFrame(s, t0);
    hide PruneGrants;
    NewTxnAsks(cfg, id, c, q, row, binding, t0);
    hide NewTxn;
  }

  lemma NewTxnAsks(cfg: Config, id: Id, c: Client, q: Request, row: Option<Session>, binding: Id, t0: Time)
    ensures var t := NewTxn(cfg, id, c, q, row, binding, t0);
            AsksFor(t, cfg, id, c, q, binding, t0) && BoundTo(t, q, row, t0)
  {
  }

  /** `c` and `row` were read, and `t0` taken, before the transaction. */
  ghost function Authorize(
    s: State, cfg: Config, id: Id, c: Client, q: Request, offline: bool, row: Option<Session>, binding: Id, txn: Id,
    t0: Time): Outcome
  {
    var e := RequestError(cfg, c, q, offline);
    if e.Some? then Denied(e.value)
    else if q.none then Denied(Invalid)
    else
      var m := PruneGrants(s, t0);
      Committed(m.(txns := m.txns[txn := NewTxn(cfg, id, c, q, row, binding, t0)]))
  }

  lemma AuthorizeSound(
    s: State, tx: Tx, id: Id, c: Client, q: Request, offline: bool, row: Option<Session>, binding: Id, txn: Id,
    t0: Time)
    requires Starts(s, tx) && ClientSnapshot(s, tx.used, id, c) && Drawn(tx, txn)
    requires row.Some? ==> row.value.id in tx.bound
    ensures SoundStep(s, Authorize(s, tx.cfg, id, c, q, offline, row, binding, txn, t0), tx)
  {
    Begin(s, tx);
    assert txn !in s.txns;
    hide Inv, Evolves, PruneGrants, Filtered, NeedsLogin, KnownIds;
    var o := Authorize(s, tx.cfg, id, c, q, offline, row, binding, txn, t0);
    if o.Committed? {
      var m := PruneGrants(s, t0);
      PruneSound(s, tx, t0);
      PruneFrame(s, t0);
      TxnSound(m, o.state, tx, txn, NewTxn(tx.cfg, id, c, q, row, binding, t0));
      SoundThen(s, m, o.state, tx);
    }
  }

  /** Pruning grants touches no session, client, policy, user or consent. */
  lemma PruneFrame(s: State, now: Time)
    ensures var m := PruneGrants(s, now);
            && SameGrants(s, m) && m.consents == s.consents && m.sessions == s.sessions && m.apps == s.apps
            && m.deliveries == s.deliveries
            && (forall h <- m.codes :: h in s.codes) && (forall h <- m.txns :: h in s.txns && m.txns[h] == s.txns[h])
  {
  }

  // ---------- Issuing a code ----------

  /** What a code is issued for. */
  datatype Issue = Issue(client: Id, user: Id, session: Id, redirectUri: Id, scopes: seq<Scope>, authTime: int,
                         codeChallenge: Id, txn: Id)

  function NewCode(cfg: Config, op: Id, i: Issue, revision: Time, now: Time): Code {
    Code(op, NONE, false, now, None, i.txn, i.client, i.user, i.redirectUri, i.scopes, i.authTime, i.codeChallenge,
         revision, false, now + cfg.codeTtl)
  }

  /** `c` is the client record the request was validated against. */
  ghost function MintCode(s: State, cfg: Config, c: Client, i: Issue, code: Id, now: Time): Outcome {
    if !UserHolds(s, i.user) then Denied(Unauthorized)
    else if i.client !in s.clients then Denied(NotFound)
    else if s.clients[i.client].updatedAt != c.updatedAt || !s.clients[i.client].metadata.compatible then
      Denied(PolicyChanged)
    else if i.session != NONE && !(HasSession(s, i.session) && SessionActive(s, s.sessions[i.session].id, now)) then
      Denied(Unauthorized)
    else
      var op := if i.session != NONE then s.sessions[i.session].id else NONE;
      var m := PruneGrants(s, now);
      Committed(m.(codes := m.codes[code := NewCode(cfg, op, i, c.updatedAt, now)]))
  }

  lemma MintCodeSound(s: State, tx: Tx, c: Client, i: Issue, code: Id)
    requires Inv(s, tx.cfg, tx.known) && Drawn(tx, code) && code != NONE && code !in s.codes && tx.codes <= tx.used
    requires i.session != NONE && HasSession(s, i.session) ==> s.sessions[i.session].userId == i.user
    requires i.client in s.clients && s.clients[i.client].updatedAt == c.updatedAt ==> CodeClient(s.clients[i.client])
    ensures SoundStep(s, MintCode(s, tx.cfg, c, i, code, tx.now), tx)
  {
    var o := MintCode(s, tx.cfg, c, i, code, tx.now);
    if o.Committed? {
      var m := PruneGrants(s, tx.now);
      var op := if i.session != NONE then s.sessions[i.session].id else NONE;
      var record := NewCode(tx.cfg, op, i, c.updatedAt, tx.now);
      PruneFrame(s, tx.now);
      assert CodePinned(record, m.clients);
      assert op != NONE ==> IsLiveRow(m.sessions[i.session], op, i.user);
      assert CodeLinked(record, m.sessions);
      hide Inv, Evolves, PruneGrants, CodePinned, CodeLinked, UserHolds;
      PruneSound(s, tx, tx.now);
      CodeSound(m, o.state, tx, code, record);
      SoundThen(s, m, o.state, tx);
    }
  }

  /** prompt=none: the session and consent read before the transaction are checked again inside it. */
  ghost function MintNone(
    s: State, cfg: Config, id: Id, c: Client, q: Request, offline: bool, session: Id, row: Session, code: Id, t0: Time,
    now: Time): Outcome
  {
    var e := RequestError(cfg, c, q, offline);
    var scopes := Filtered(cfg, q.scopes);
    if e.Some? then Denied(e.value)
    else if !q.none || NeedsLogin(q, Some(row), t0) then Denied(Invalid)
    else if !(HasSession(s, session) && s.sessions[session].userId == row.userId
              && SessionFresh(s.sessions[session], now, q.maxAge)) then
      Denied(Unauthorized)
    else if !Consented(s, row.userId, id, c, scopes) then Denied(Unauthorized)
    else MintCode(s, cfg, c,
                  Issue(id, row.userId, session, q.redirectUri, scopes, Unix(row.authTime.value), q.codeChallenge,
                        NONE),
                  code, now)
  }

  lemma MintNoneSound(
    s: State, tx: Tx, id: Id, c: Client, q: Request, offline: bool, session: Id, row: Session, code: Id, t0: Time)
    requires Starts(s, tx) && ClientSnapshot(s, tx.used, id, c) && Drawn(tx, code)
    ensures SoundStep(s, MintNone(s, tx.cfg, id, c, q, offline, session, row, code, t0, tx.now), tx)
  {
    Begin(s, tx);
    var o := MintNone(s, tx.cfg, id, c, q, offline, session, row, code, t0, tx.now);
    if o.Committed? {
      assert code !in s.codes && (id in s.clients && s.clients[id].updatedAt == c.updatedAt ==> s.clients[id] == c);
      hide Inv, Sound, MintCode, SessionFresh, Filtered, NeedsLogin;
      MintCodeSound(s, tx, c,
                    Issue(id, row.userId, session, q.redirectUri, Filtered(tx.cfg, q.scopes), Unix(row.authTime.value),
                          q.codeChallenge, NONE),
                    code);
    }
  }

  // ---------- Completing an interaction ----------

  predicate TxnOpen(s: State, txn: Id, binding: Id, now: Time) {
    && txn in s.txns && !s.txns[txn].revoked && !s.txns[txn].consumed && now < s.txns[txn].expiresAt
    && binding != NONE && s.txns[txn].bindingHash == binding
  }

  /** The signed-in session may answer the request. */
  predicate MayAnswer(s: State, t: Txn, session: Id, user: Id, now: Time) {
    && HasSession(s, session)
    && var r := s.sessions[session];
    && r.userId == user && r.authTime.Some? && now < r.expiresAt && r.authTime.value <= now
    && (if t.reauthenticateAfter.Some? then r.authTime.value >= t.reauthenticateAfter.value
        else SessionFresh(r, now, t.maxAge))
    && (t.userId != NONE ==> t.userId == r.userId)
    && UserHolds(s, r.userId)
  }

  /** What an approval grants: openid, and the requested scopes that were approved. */
  function Approved(requested: seq<Scope>, approved: seq<Scope>): (r: seq<Scope>)
    ensures forall sc :: sc in r <==> sc == OpenId || (sc in requested && sc in approved)
  {
    [OpenId] + Chosen(requested, approved)
  }

  function Chosen(requested: seq<Scope>, approved: seq<Scope>): (r: seq<Scope>)
    ensures forall sc :: sc in r <==> sc in requested && sc in approved && sc != OpenId
  {
    if requested == [] then []
    else (if requested[0] != OpenId && requested[0] in approved then [requested[0]] else [])
           + Chosen(requested[1..], approved)
  }

  function BoundTxn(t: Txn, r: Session): Txn
    requires r.authTime.Some?
  {
    t.(userId := r.userId, authTime := Unix(r.authTime.value), opSessionId := r.id)
  }

  function Granted(t: Txn, approve: Option<bool>, approved: seq<Scope>): seq<Scope> {
    if approve.Some? then Approved(t.scopes, approved) else t.scopes
  }

  /** The consent an approval writes before the code is issued. */
  ghost function Consenting(s: State, t: Txn, user: Id, approve: Option<bool>, approved: seq<Scope>, now: Time): State
    requires t.clientId in s.clients
  {
    if approve.Some? then
      SaveConsent(s, ConsentKey(user, t.clientId),
                  Consent(Granted(t, approve, approved), s.clients[t.clientId].updatedAt, now, false), now)
    else s
  }

  /** Issues the code and uses the request up. */
  ghost function Finish(
    s: State, cfg: Config, txn: Id, t: Txn, session: Id, r: Session, approve: Option<bool>, approved: seq<Scope>,
    code: Id, now: Time): Outcome
    requires t.clientId in s.clients && r.authTime.Some?
  {
    var m := Consenting(s, t, r.userId, approve, approved, now);
    var i := Issue(t.clientId, r.userId, session, t.redirectUri, Granted(t, approve, approved), Unix(r.authTime.value),
                   t.codeChallenge, txn);
    var o := MintCode(m, cfg, s.clients[t.clientId], i, code, now);
    if o.Denied? then o else Committed(o.state.(txns := o.state.txns[txn := BoundTxn(t, r).(consumed := true)]))
  }

  /** `approve` is absent when the page only asks where the request stands. */
  ghost function Complete(
    s: State, cfg: Config, txn: Id, binding: Id, session: Id, user: Id, approve: Option<bool>, approved: seq<Scope>,
    code: Id, now: Time): Outcome
  {
    if !TxnOpen(s, txn, binding, now) || !MayAnswer(s, s.txns[txn], session, user, now) then Denied(Unauthorized)
    else
      var t := s.txns[txn];
      var r := s.sessions[session];
      if t.clientId !in s.clients then Denied(NotFound)
      else
        var c := s.clients[t.clientId];
        if !c.metadata.compatible || c.updatedAt != t.clientUpdatedAt then Denied(PolicyChanged)
        else
          var bound := BoundTxn(t, r);
          if approve.None? && (!Consented(s, user, t.clientId, c, t.scopes) || t.promptConsent) then
            Committed(s.(txns := s.txns[txn := bound]))
          else if approve == Some(false) then
            Committed(s.(txns := s.txns[txn := bound.(consumed := true)]))
          else Finish(s, cfg, txn, t, session, r, approve, approved, code, now)
  }

  lemma SaveNewConsent(s: State, k: ConsentKey, c: Consent, now: Time)
    requires !c.revoked
    ensures SaveConsent(s, k, c, now) == s.(consents := s.consents[k := c])
  {
  }

  lemma MintFrame(s: State, cfg: Config, c: Client, i: Issue, code: Id, now: Time)
    requires MintCode(s, cfg, c, i, code, now).Committed?
    ensures var r := MintCode(s, cfg, c, i, code, now).state;
            && r.clients == s.clients && r.sessions == s.sessions
            && (forall t <- s.txns :: now < s.txns[t].expiresAt ==> t in r.txns && r.txns[t] == s.txns[t])
  {
  }

  lemma BindSound(s: State, m: State, tx: Tx, txn: Id, t: Txn)
    requires Sound(s, m, tx) && txn in tx.known && t.clientId in tx.known && TxnOk(t, m.clients)
    requires txn in m.txns && TxnContinues(m.txns[txn], t) && MayBind(m.sessions, t, tx.bound)
    ensures Sound(s, m.(txns := m.txns[txn := t]), tx)
  {
    assert Inv(m, tx.cfg, tx.known);
    hide Inv, Sound, TxnOk, MayBind;
    TxnSound(m, m.(txns := m.txns[txn := t]), tx, txn, t);
    SoundThen(s, m, m.(txns := m.txns[txn := t]), tx);
  }

  lemma ConsentingSound(s: State, tx: Tx, t: Txn, user: Id, approve: Option<bool>, approved: seq<Scope>)
    requires Inv(s, tx.cfg, tx.known) && t.clientId in s.clients
    ensures var m := Consenting(s, t, user, approve, approved, tx.now);
            Sound(s, m, tx) && m == s.(consents := m.consents)
  {
    hide Inv, Sound, SaveConsent, Granted;
    SoundStill(s, tx);
    if approve.Some? {
      var k, consent := ConsentKey(user, t.clientId),
                        Consent(Granted(t, approve, approved), s.clients[t.clientId].updatedAt, tx.now, false);
      SaveNewConsent(s, k, consent, tx.now);
      SaveConsentSound(s, tx, k, consent, tx.now);
    }
  }

  /** An answer binds the request to the live session that gave it. */
  lemma BoundLive(s: State, session: Id, t: Txn, bound: set<Id>)
    requires HasSession(s, session) && s.sessions[session].authTime.Some?
    ensures var b := BoundTxn(t, s.sessions[session]);
            MayBind(s.sessions, b, bound) && MayBind(s.sessions, b.(consumed := true), bound)
  {
  }

  /** Approving, or continuing where consent already covers the request. */
  lemma FinishSound(s: State, tx: Tx, txn: Id, session: Id, approve: Option<bool>, approved: seq<Scope>, code: Id)
    requires Inv(s, tx.cfg, tx.known) && Drawn(tx, code) && code != NONE && code !in s.codes && tx.codes <= tx.used
    requires txn in s.txns && txn in tx.known && HasSession(s, session) && s.sessions[session].authTime.Some?
    requires var t := s.txns[txn];
             && t.clientId in tx.known && t.clientId in s.clients
             && s.clients[t.clientId].updatedAt == t.clientUpdatedAt && TxnOk(t, s.clients)
             && tx.now < t.expiresAt && (t.userId != NONE ==> t.userId == s.sessions[session].userId)
    ensures SoundStep(s,
                      Finish(s, tx.cfg, txn, s.txns[txn], session, s.sessions[session], approve, approved, code,
                             tx.now),
                      tx)
  {
    hide Inv, Evolves, MintCode, Consenting, Granted;
    var t, r := s.txns[txn], s.sessions[session];
    var m := Consenting(s, t, r.userId, approve, approved, tx.now);
    ConsentingSound(s, tx, t, r.userId, approve, approved);
    var i := Issue(t.clientId, r.userId, session, t.redirectUri, Granted(t, approve, approved), Unix(r.authTime.value),
                   t.codeChallenge, txn);
    var o := MintCode(m, tx.cfg, s.clients[t.clientId], i, code, tx.now);
    if o.Committed? {
      MintCodeSound(m, tx, s.clients[t.clientId], i, code);
      MintFrame(m, tx.cfg, s.clients[t.clientId], i, code, tx.now);
      SoundThen(s, m, o.state, tx);
      BoundOk(t, r, s.clients);
      BoundLive(s, session, t, tx.bound);
      BindSound(s, o.state, tx, txn, BoundTxn(t, r).(consumed := true));
    }
  }

  lemma CompleteSound(
    s: State, tx: Tx, txn: Id, binding: Id, session: Id, user: Id, approve: Option<bool>, approved: seq<Scope>,
    code: Id)
    requires Starts(s, tx) && Drawn(tx, code)
    ensures SoundStep(s, Complete(s, tx.cfg, txn, binding, session, user, approve, approved, code, tx.now), tx)
  {
    hide Starts, Inv, Sound, KnownIds, Finish, Consented, TxnOpen, MayAnswer, TxnOk, Drawn;
    Begin(s, tx);
    var o := Complete(s, tx.cfg, txn, binding, session, user, approve, approved, code, tx.now);
    if o.Committed? {
      CompleteFinds(s, tx, txn, binding, session, user, code);
      var t, r := s.txns[txn], s.sessions[session];
      SoundStill(s, tx);
      if approve == Some(false)
         || (approve.None? && (!Consented(s, user, t.clientId, s.clients[t.clientId], t.scopes) || t.promptConsent)) {
        BoundOk(t, r, s.clients);
        BoundLive(s, session, t, tx.bound);
        BindSound(s, s, tx, txn, if approve == Some(false) then BoundTxn(t, r).(consumed := true) else BoundTxn(t, r));
      } else {
        FinishSound(s, tx, txn, session, approve, approved, code);
      }
    }
  }

  lemma CompleteFinds(s: State, tx: Tx, txn: Id, binding: Id, session: Id, user: Id, code: Id)
    requires Starts(s, tx) && Drawn(tx, code) && TxnOpen(s, txn, binding, tx.now)
    requires MayAnswer(s, s.txns[txn], session, user, tx.now)
    ensures txn in s.txns
    ensures var t := s.txns[txn];
            && code != NONE && code !in s.codes && TxnOk(t, s.clients) && txn in tx.known && t.clientId in tx.known
            && tx.codes <= tx.used
            && tx.now < t.expiresAt && HasSession(s, session) && s.sessions[session].userId == user
            && s.sessions[session].authTime.Some?
            && (t.userId != NONE ==> t.userId == user)
  {
  }

  lemma BoundOk(t: Txn, r: Session, clients: map<Id, Client>)
    requires r.authTime.Some? && TxnOk(t, clients)
    ensures TxnOk(BoundTxn(t, r), clients) && TxnOk(BoundTxn(t, r).(consumed := true), clients)
  {
  }
}
