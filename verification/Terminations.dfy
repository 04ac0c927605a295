/** What ending sessions and app sessions does to each record, and, target by target, whom the session pages
    sign out: the chosen ones and nobody else. */
module Terminations {
  import opened Records
  import opened Cascades
  import Outbox
  import opened Invariants
  import opened Evolution
  import opened Purges
  import opened Steps
  import opened Logouts

  // ---------- One ending ----------

  /** The app session ends now. */
  predicate Stops(s: State, ids: set<Id>, a: Id) {
    a in ids && a in s.apps && s.apps[a].endedAt.None?
  }

  /** An app session of this session and client ends now. */
  ghost predicate StopsLink(s: State, ids: set<Id>, op: Id, client: Id) {
    exists a :: Stops(s, ids, a) && s.apps[a].opSessionId == op && s.apps[a].clientId == client
  }

  /** Ending app sessions ends exactly the live ones among them, flags exactly their online tokens and the
      codes and requests of their session and client, and touches no session, family, consent or refresh
      token. */
  lemma AppsStopExactly(s: State, ids: set<Id>, reason: Reason, now: Time)
    ensures var r := EndApps(s, ids, reason, now);
            && r == s.(apps := r.apps, tokens := r.tokens, codes := r.codes, txns := r.txns, deliveries := r.deliveries)
            && r.apps.Keys == s.apps.Keys && r.tokens.Keys == s.tokens.Keys
            && r.codes.Keys == s.codes.Keys && r.txns.Keys == s.txns.Keys
            && (forall a <- s.apps :: r.apps[a] ==
                  if Stops(s, ids, a) then s.apps[a].(endedAt := Some(now), endReason := reason) else s.apps[a])
            && (forall h <- s.tokens ::
                  r.tokens[h] == s.tokens[h].(revoked :=
                    s.tokens[h].revoked || (s.tokens[h].familyId == NONE && Stops(s, ids, s.tokens[h].appSessionId))))
            && (forall h <- s.codes ::
                  r.codes[h] == s.codes[h].(revoked :=
                    s.codes[h].revoked || StopsLink(s, ids, s.codes[h].opSessionId, s.codes[h].clientId)))
            && (forall t <- s.txns ::
                  r.txns[t] == s.txns[t].(revoked :=
                    s.txns[t].revoked || StopsLink(s, ids, s.txns[t].opSessionId, s.txns[t].clientId)))
  {
    hide Notices;
    AppsLinkStop(s, ids);
  }

  lemma AppsLinkStop(s: State, ids: set<Id>)
    ensures forall op, client :: Touches(s.apps, LiveApps(s.apps, ids), op, client) == StopsLink(s, ids, op, client)
  {
  }

  /** A live row of these sessions. */
  ghost predicate LiveAmong(s: State, ids: set<Id>, op: Id) {
    op in ids && exists h :: h in s.sessions && s.sessions[h].id == op && Live(s.sessions[h])
  }

  /** Ending sessions ends exactly their live rows and the live app sessions of those, flags exactly the online
      tokens of those app sessions and the codes and requests bound to those sessions, and touches no family,
      consent or refresh token. */
  lemma SessionsStopExactly(s: State, ids: set<Id>, reason: Reason, now: Time)
    ensures var r := EndSessions(s, ids, reason, now);
            && r == s.(sessions := r.sessions, apps := r.apps, tokens := r.tokens, codes := r.codes, txns := r.txns,
                       deliveries := r.deliveries)
            && OnlyEnded(s.sessions, r.sessions, ids, reason, now)
            && r.apps.Keys == s.apps.Keys && r.tokens.Keys == s.tokens.Keys
            && r.codes.Keys == s.codes.Keys && r.txns.Keys == s.txns.Keys
            && (forall a <- s.apps :: r.apps[a] ==
                  if s.apps[a].endedAt.None? && LiveAmong(s, ids, s.apps[a].opSessionId)
                  then s.apps[a].(endedAt := Some(now), endReason := reason) else s.apps[a])
            && (forall h <- s.tokens ::
                  r.tokens[h] == s.tokens[h].(revoked :=
                    s.tokens[h].revoked
                    || (s.tokens[h].familyId == NONE && LosesApp(s, ids, s.tokens[h].appSessionId))))
            && (forall h <- s.codes ::
                  r.codes[h] == s.codes[h].(revoked := s.codes[h].revoked || LiveAmong(s, ids, s.codes[h].opSessionId)))
            && (forall t <- s.txns ::
                  r.txns[t] == s.txns[t].(revoked := s.txns[t].revoked || LiveAmong(s, ids, s.txns[t].opSessionId)))
  {
    EndSessionsOnly(s, ids, reason, now);
    SessionAppsStop(s, ids, reason, now);
    SessionGrantsStop(s, ids, reason, now);
    hide IdsOf, LiveRows, RowsWithIds, LiveAmong, LosesApp, Notices, OpNotices, OnlyEnded, LiveApps;
    hide SessionsEnded, AppsEnded, TokensEnded, CodesOfSessions, TxnsOfSessions;
  }

  lemma SessionAppsStop(s: State, ids: set<Id>, reason: Reason, now: Time)
    ensures var r := EndSessions(s, ids, reason, now);
            && r.apps.Keys == s.apps.Keys && r.tokens.Keys == s.tokens.Keys
            && (forall a <- s.apps :: r.apps[a] ==
                  if s.apps[a].endedAt.None? && LiveAmong(s, ids, s.apps[a].opSessionId)
                  then s.apps[a].(endedAt := Some(now), endReason := reason) else s.apps[a])
            && (forall h <- s.tokens ::
                  r.tokens[h] == s.tokens[h].(revoked :=
                    s.tokens[h].revoked
                    || (s.tokens[h].familyId == NONE && LosesApp(s, ids, s.tokens[h].appSessionId))))
  {
    LiveIds(s, ids);
    hide SessionsEnded, IdsOf, LiveRows, RowsWithIds, LiveAmong, Notices, OpNotices, CodesOfSessions, TxnsOfSessions;
  }

  lemma SessionGrantsStop(s: State, ids: set<Id>, reason: Reason, now: Time)
    ensures var r := EndSessions(s, ids, reason, now);
            && r.codes.Keys == s.codes.Keys && r.txns.Keys == s.txns.Keys
            && (forall h <- s.codes ::
                  r.codes[h] == s.codes[h].(revoked := s.codes[h].revoked || LiveAmong(s, ids, s.codes[h].opSessionId)))
            && (forall t <- s.txns ::
                  r.txns[t] == s.txns[t].(revoked := s.txns[t].revoked || LiveAmong(s, ids, s.txns[t].opSessionId)))
  {
    LiveIds(s, ids);
    hide SessionsEnded, IdsOf, LiveRows, RowsWithIds, LiveAmong, Notices, OpNotices, AppsEnded, TokensEnded, LiveApps;
  }

  ghost predicate LosesApp(s: State, ids: set<Id>, a: Id) {
    a in s.apps && s.apps[a].endedAt.None? && LiveAmong(s, ids, s.apps[a].opSessionId)
  }

  lemma LiveIds(s: State, ids: set<Id>)
    ensures forall op ::
              op in IdsOf(s.sessions, LiveRows(s.sessions, RowsWithIds(s.sessions, ids))) <==> LiveAmong(s, ids, op)
  {
  }

  // ---------- The notices of an ending ----------

  /** No channel is told that the client's metadata does not name. */
  ghost predicate NoneElse(ds: map<DeliveryId, Delivery>, clients: map<Id, Client>, a: Id, client: Id) {
    var back := if client in clients then clients[client].metadata.backchannelUri else NONE;
    var front := if client in clients then clients[client].metadata.frontchannelUri else NONE;
    && (AppNotice(a, Backchannel) in ds ==> back != NONE) && (AppNotice(a, Frontchannel) in ds ==> front != NONE)
    && (AppNotice(a, NoChannel) in ds ==> back == NONE && front == NONE) && AppNotice(a, Local) !in ds
  }

  lemma UntoldLive(s: State, cfg: Config, used: set<Id>, a: Id)
    requires Inv(s, cfg, used) && a in s.apps && s.apps[a].endedAt.None?
    ensures forall channel :: AppNotice(a, channel) !in s.deliveries
  {
    hide KnownIds, CodesInv, TokensInv, FamiliesInv, Noticed, Outbox.Settled;
    assert forall id <- s.deliveries :: NoticeOk(s.apps, id, s.deliveries[id].createdAt);
  }

  lemma NoneElseQueued(
    ds: map<DeliveryId, Delivery>, clients: map<Id, Client>, apps: map<Id, App>, ended: set<Id>, reason: Reason,
    now: Time, a: Id)
    requires a in apps && forall channel :: AppNotice(a, channel) !in ds
    ensures NoneElse(ds + Notices(clients, apps, ended, reason, now), clients, a, apps[a].clientId)
  {
  }

  /** Ending a live app session of a reachable store queues a pending notice to exactly its client's
      back-channel endpoint, a waiting one to exactly its front-channel endpoint, or the "unsupported" record
      if it has neither; and nothing else. */
  lemma AppNoticesExactly(
    s: State, cfg: Config, used: set<Id>, ids: set<Id>, reason: Reason, now: Time, a: Id)
    requires Inv(s, cfg, used) && a in ids && a in s.apps && s.apps[a].endedAt.None?
    ensures var r := EndApps(s, ids, reason, now);
            && Queued(r.deliveries, s.clients, a, s.apps[a], reason, now)
            && NoneElse(r.deliveries, s.clients, a, s.apps[a].clientId)
  {
    UntoldLive(s, cfg, used, a);
    EndingQueues(s, ids, reason, now, a);
    hide Inv, AppsEnded, TokensEnded, CodesEnded, TxnsEnded, LiveApps, Notices, Queued, NoneElse;
    NoneElseQueued(s.deliveries, s.clients, s.apps, LiveApps(s.apps, ids), reason, now, a);
  }

  /** The same when the whole session ends. */
  lemma SessionNoticesExactly(
    s: State, cfg: Config, used: set<Id>, ids: set<Id>, reason: Reason, now: Time, a: Id)
    requires Inv(s, cfg, used) && a in s.apps && s.apps[a].endedAt.None? && s.apps[a].opSessionId in ids
    ensures var r := EndSessions(s, ids, reason, now);
            && Queued(r.deliveries, s.clients, a, s.apps[a], reason, now)
            && NoneElse(r.deliveries, s.clients, a, s.apps[a].clientId)
  {
    UntoldLive(s, cfg, used, a);
    LinkedStops(s, cfg, used, ids, a);
    hide Inv, EndRows, LiveApps, AppsOfSessions, IdsOf, LiveRows, Queued, NoneElse;
    RowsQueue(s, RowsWithIds(s.sessions, ids), reason, now, a);
  }

  /** The app sessions that end with some rows. */
  ghost function StoppedApps(s: State, rows: set<Id>): set<Id> {
    LiveApps(s.apps, AppsOfSessions(s.apps, IdsOf(s.sessions, LiveRows(s.sessions, rows))))
  }

  lemma LinkedStops(s: State, cfg: Config, used: set<Id>, ids: set<Id>, a: Id)
    requires Inv(s, cfg, used) && a in s.apps && s.apps[a].endedAt.None? && s.apps[a].opSessionId in ids
    ensures a in StoppedApps(s, RowsWithIds(s.sessions, ids))
  {
    assert HasLiveRow(s.sessions, s.apps[a].opSessionId, s.apps[a].userId);
    LiveIds(s, ids);
    hide Inv;
  }

  lemma RowsQueue(s: State, rows: set<Id>, reason: Reason, now: Time, a: Id)
    requires a in s.apps && a in StoppedApps(s, rows) && forall channel :: AppNotice(a, channel) !in s.deliveries
    ensures var r := EndRows(s, rows, reason, now);
            && Queued(r.deliveries, s.clients, a, s.apps[a], reason, now)
            && NoneElse(r.deliveries, s.clients, a, s.apps[a].clientId)
  {
    var ended := IdsOf(s.sessions, LiveRows(s.sessions, rows));
    hide IdsOf, LiveRows, LiveApps, AppsOfSessions, SessionsEnded, AppsEnded, TokensEnded, CodesOfSessions;
    hide TxnsOfSessions, Queued, NoneElse, Notices;
    var ds := s.deliveries + OpNotices(ended, reason, now);
    assert forall channel :: AppNotice(a, channel) !in ds;
    hide OpNotices;
    NoticesQueued(ds, s.clients, s.apps, StoppedApps(s, rows), reason, now, a);
    NoneElseQueued(ds, s.clients, s.apps, StoppedApps(s, rows), reason, now, a);
  }

  // ---------- Target by target ----------

  /** Exactly these families are revoked. */
  ghost predicate OnlyRevoked(before: map<Id, Family>, after: map<Id, Family>, ids: set<Id>) {
    && after.Keys == before.Keys
    && forall f <- before :: after[f] == before[f].(revoked := before[f].revoked || f in ids)
  }

  /** Exactly these tokens are revoked: the given ones and those of the given families. */
  ghost predicate OnlyFlagged(before: map<Id, Token>, after: map<Id, Token>, families: set<Id>, hashes: set<Id>) {
    && after.Keys == before.Keys
    && forall h <- before ::
         after[h] == before[h].(revoked := before[h].revoked || h in hashes || before[h].familyId in families)
  }

  /** Revocation flags exactly the given families and tokens, and the families' tokens. */
  lemma RevokesExactly(s: State, families: set<Id>, hashes: set<Id>)
    ensures var r := RevokeGrants(s, families, hashes);
            && OnlyRevoked(s.families, r.families, families)
            && OnlyFlagged(s.tokens, r.tokens, families * s.families.Keys, hashes)
            && r == s.(families := r.families, tokens := r.tokens)
  {
  }

  function ReasonOf(admin: bool): Reason {
    if admin then AdminLogout else UserLogout
  }

  /** The signed-in caller, whose password was checked against what is stored now if it had to be. */
  predicate Asks(s: State, hash: Id, admin: bool, password: bool, checked: Option<Id>, now: Time) {
    SignedInAs(s, hash, admin, now) && (password ==> checked == Some(s.users[s.sessions[hash].userId].password))
  }

  lemma StepIs(
    s: State, hash: Id, admin: bool, target: Target, offline: bool, checked: Option<Id>, operation: Id, now: Time)
    ensures var o := EndSessionsStep(s, hash, admin, target, offline, checked, operation, now);
            && (o.Committed? ==> Asks(s, hash, admin, NeedsPassword(target, offline), checked, now))
            && (Asks(s, hash, admin, NeedsPassword(target, offline), checked, now) ==>
                  var e := EndTarget(s, s.sessions[hash].userId, s.sessions[hash].id, admin, target, offline, now);
                  o == if e.Denied? then e else Committed(e.state.(operations := e.state.operations[operation := now])))
  {
    hide EndTarget, NeedsPassword;
  }

  /** Ending one session commits exactly if it is the caller's own, or the caller is an administrator; then
      that session is over and every other is as it was, and with offline access exactly its families are
      revoked. */
  lemma OneSessionEnded(
    s: State, hash: Id, admin: bool, id: Id, offline: bool, checked: Option<Id>, operation: Id, now: Time)
    ensures var o := EndSessionsStep(s, hash, admin, OneSession(id), offline, checked, operation, now);
            && (o.Committed? <==>
                  && Asks(s, hash, admin, offline, checked, now)
                  && exists h <- s.sessions ::
                       s.sessions[h].id == id && (admin || s.sessions[h].userId == s.sessions[hash].userId))
            && (o.Committed? ==>
                  && SessionOver(o.state.sessions, id)
                  && OnlyEnded(s.sessions, o.state.sessions, {id}, ReasonOf(admin), now)
                  && OnlyRevoked(s.families, o.state.families,
                                 set f | f in s.families && offline && s.families[f].opSessionId == id)
                  && o.state.operations == s.operations[operation := now])
  {
    hide EndSessions, EndSessionsStep, OnlyEnded, SessionOver, Asks, TokensRevoked;
    StepIs(s, hash, admin, OneSession(id), offline, checked, operation, now);
    EndSessionsOnly(s, {id}, ReasonOf(admin), now);
    EndedOver(s, id, ReasonOf(admin), now);
    SessionsStopFrame(s, {id}, ReasonOf(admin), now);
  }

  lemma SessionsStopFrame(s: State, ids: set<Id>, reason: Reason, now: Time)
    ensures var r := EndSessions(s, ids, reason, now);
            r.families == s.families && r.operations == s.operations && r.consents == s.consents && SameGrants(s, r)
  {
  }

  /** Exactly this app session ends, if it is live. */
  ghost predicate OneEnded(before: map<Id, App>, after: map<Id, App>, id: Id, reason: Reason, now: Time) {
    && after.Keys == before.Keys
    && forall a <- before ::
         after[a] == if a == id && before[a].endedAt.None? then before[a].(endedAt := Some(now), endReason := reason)
                     else before[a]
  }

  /** Ending one app session commits exactly if it is the caller's own, or the caller is an administrator; then
      that app session is over, every other and every session is as it was, and with offline access exactly
      its families are revoked. */
  lemma OneAppEnded(
    s: State, hash: Id, admin: bool, id: Id, offline: bool, checked: Option<Id>, operation: Id, now: Time)
    ensures var o := EndSessionsStep(s, hash, admin, OneApp(id), offline, checked, operation, now);
            && (o.Committed? <==>
                  && Asks(s, hash, admin, offline, checked, now)
                  && id in s.apps && (admin || s.apps[id].userId == s.sessions[hash].userId))
            && (o.Committed? ==>
                  && id in o.state.apps && o.state.sessions == s.sessions
                  && OneEnded(s.apps, o.state.apps, id, ReasonOf(admin), now)
                  && OnlyRevoked(s.families, o.state.families,
                                 set f | f in s.families && offline && s.families[f].appSessionId == id)
                  && o.state.operations == s.operations[operation := now])
  {
    hide EndApps, EndSessionsStep, Asks, TokensRevoked, Stops, StopsLink;
    StepIs(s, hash, admin, OneApp(id), offline, checked, operation, now);
    OneStops(s, id, ReasonOf(admin), now);
  }

  lemma OneStops(s: State, id: Id, reason: Reason, now: Time)
    ensures var r := EndApps(s, {id}, reason, now);
            && r.sessions == s.sessions && r.families == s.families && r.operations == s.operations
            && OneEnded(s.apps, r.apps, id, reason, now)
  {
    AppsStopExactly(s, {id}, reason, now);
    hide EndApps, StopsLink;
  }

  /** Exactly the live sessions of the account end, but for one if it is kept. */
  ghost predicate UserEnded(
    before: map<Id, Session>, after: map<Id, Session>, user: Id, kept: Option<Id>, reason: Reason, now: Time)
  {
    && after.Keys == before.Keys
    && forall h <- before ::
         after[h] == if before[h].userId == user && before[h].endedAt.None? && kept != Some(before[h].id)
                     then before[h].(endedAt := Some(now), endReason := reason, csrf := NONE)
                     else before[h]
  }

  lemma UserIdsOnly(
    before: map<Id, Session>, after: map<Id, Session>, user: Id, kept: Option<Id>, reason: Reason, now: Time)
    requires RowsUnique(before) && OnlyEnded(before, after, OtherIds(before, user, kept), reason, now)
    ensures UserEnded(before, after, user, kept, reason, now)
  {
    forall h | h in before
      ensures before[h].id in OtherIds(before, user, kept) <==> before[h].userId == user && kept != Some(before[h].id)
    {
    }
  }

  /** Signing out one's own sessions ends exactly those, the present one only if it is not to be kept; with
      offline access every family of the account is revoked. The password is always asked again. */
  lemma OwnSessionsEnded(
    s: State, hash: Id, admin: bool, other: bool, offline: bool, checked: Option<Id>, operation: Id, now: Time)
    requires RowsUnique(s.sessions)
    ensures var o := EndSessionsStep(s, hash, admin, OwnSessions(other), offline, checked, operation, now);
            && (o.Committed? <==> Asks(s, hash, admin, true, checked, now))
            && (o.Committed? ==>
                  var row := s.sessions[hash];
                  && UserEnded(s.sessions, o.state.sessions, row.userId, if other then Some(row.id) else None,
                               ReasonOf(admin), now)
                  && OnlyRevoked(s.families, o.state.families,
                                 set f | f in s.families && offline && s.families[f].userId == row.userId))
  {
    hide EndSessions, EndSessionsStep, OnlyEnded, UserEnded, TokensRevoked, OtherIds, RowsUnique;
    StepIs(s, hash, admin, OwnSessions(other), offline, checked, operation, now);
    if Asks(s, hash, admin, true, checked, now) {
      var row := s.sessions[hash];
      var kept := if other then Some(row.id) else None;
      var ids := OtherIds(s.sessions, row.userId, kept);
      EndSessionsOnly(s, ids, ReasonOf(admin), now);
      SessionsStopFrame(s, ids, ReasonOf(admin), now);
      UserIdsOnly(s.sessions, EndSessions(s, ids, ReasonOf(admin), now).sessions, row.userId, kept, ReasonOf(admin),
                  now);
    }
  }

  /** An administrator signs out exactly one account's sessions, after giving the password again. */
  lemma UserSessionsEnded(
    s: State, hash: Id, admin: bool, id: Id, offline: bool, checked: Option<Id>, operation: Id, now: Time)
    requires RowsUnique(s.sessions)
    ensures var o := EndSessionsStep(s, hash, admin, UserSessions(id), offline, checked, operation, now);
            && (o.Committed? <==> admin && id in s.users && Asks(s, hash, admin, true, checked, now))
            && (o.Committed? ==>
                  && UserEnded(s.sessions, o.state.sessions, id, None, AdminLogout, now)
                  && OnlyRevoked(s.families, o.state.families,
                                 set f | f in s.families && offline && s.families[f].userId == id))
  {
    hide EndSessions, EndSessionsStep, OnlyEnded, UserEnded, TokensRevoked, RowsUnique, Asks;
    StepIs(s, hash, admin, UserSessions(id), offline, checked, operation, now);
    assert SessionIdsOfUser(s.sessions, id) == OtherIds(s.sessions, id, None);
    var ids := OtherIds(s.sessions, id, None);
    EndSessionsOnly(s, ids, AdminLogout, now);
    SessionsStopFrame(s, ids, AdminLogout, now);
    UserIdsOnly(s.sessions, EndSessions(s, ids, AdminLogout, now).sessions, id, None, AdminLogout, now);
  }

  /** Withdrawing a client's access takes a consent and the password; it revokes that consent and exactly the
      pair's families, ends exactly the pair's app sessions, and ends no session. */
  lemma AccessWithdrawn(
    s: State, hash: Id, admin: bool, client: Id, offline: bool, checked: Option<Id>, operation: Id, now: Time)
    ensures var o := EndSessionsStep(s, hash, admin, ClientAccess(client), offline, checked, operation, now);
            && (o.Committed? <==>
                  && Asks(s, hash, admin, true, checked, now)
                  && ConsentKey(s.sessions[hash].userId, client) in s.consents)
            && (o.Committed? ==>
                  var user := s.sessions[hash].userId;
                  var k := ConsentKey(user, client);
                  && o.state.consents == s.consents[k := s.consents[k].(revoked := true)]
                  && o.state.sessions == s.sessions
                  && OnlyRevoked(s.families, o.state.families,
                                 set f | f in s.families && s.families[f].userId == user
                                         && s.families[f].clientId == client)
                  && o.state.apps.Keys == s.apps.Keys
                  && forall a <- s.apps :: o.state.apps[a] ==
                       if s.apps[a].userId == user && s.apps[a].clientId == client && s.apps[a].endedAt.None?
                       then s.apps[a].(endedAt := Some(now), endReason := AccessRevoked) else s.apps[a])
  {
    hide EndSessionsStep, RevokeClientAccess, OnlyRevoked;
    StepIs(s, hash, admin, ClientAccess(client), offline, checked, operation, now);
    if Asks(s, hash, admin, true, checked, now) && ConsentKey(s.sessions[hash].userId, client) in s.consents {
      AccessOnly(s, s.sessions[hash].userId, client, now);
    }
  }

  ghost predicate PairEnded(before: map<Id, App>, after: map<Id, App>, user: Id, client: Id, now: Time) {
    && after.Keys == before.Keys
    && forall a <- before :: after[a] ==
         if before[a].userId == user && before[a].clientId == client && before[a].endedAt.None?
         then before[a].(endedAt := Some(now), endReason := AccessRevoked) else before[a]
  }

  lemma PairStops(s: State, user: Id, client: Id, now: Time)
    ensures var r := EndApps(s, AppsOfGrant(s.apps, user, client), AccessRevoked, now);
            && PairEnded(s.apps, r.apps, user, client, now) && r.sessions == s.sessions
            && r.families == s.families && r.consents == s.consents
  {
    AppsStopExactly(s, AppsOfGrant(s.apps, user, client), AccessRevoked, now);
    hide EndApps, StopsLink;
  }

  lemma PairOnce(a: map<Id, App>, b: map<Id, App>, c: map<Id, App>, user: Id, client: Id, now: Time)
    requires PairEnded(a, b, user, client, now) && PairEnded(b, c, user, client, now)
    ensures PairEnded(a, c, user, client, now)
  {
  }

  lemma AccessOnly(s: State, user: Id, client: Id, now: Time)
    requires ConsentKey(user, client) in s.consents
    ensures var r := RevokeClientAccess(s, user, client, now);
            var k := ConsentKey(user, client);
            && r.consents == s.consents[k := s.consents[k].(revoked := true)] && r.sessions == s.sessions
            && OnlyRevoked(s.families, r.families,
                           set f | f in s.families && s.families[f].userId == user && s.families[f].clientId == client)
            && PairEnded(s.apps, r.apps, user, client, now)
  {
    hide EndApps, CodesMarked, TxnsMarked, TokensRevoked, AppsOfGrant, PairEnded;
    var k := ConsentKey(user, client);
    var s1 := SaveConsent(s, k, s.consents[k].(revoked := true), now);
    var s2 := s1.(codes := CodesMarked(s1.codes, CodesOfGrant(s1.codes, user, client)),
                  txns := TxnsMarked(s1.txns, TxnsOfGrant(s1.txns, user, client)));
    var s3 := EndApps(s2, AppsOfGrant(s2.apps, user, client), AccessRevoked, now);
    PairStops(s, user, client, now);
    PairStops(s2, user, client, now);
    PairOnce(s.apps, s1.apps, s3.apps, user, client, now);
  }

  /** A retry takes an administrator and a failed back-channel notice at most 24 hours old, and makes exactly
      that notice pending and due. */
  lemma NoticeRetried(
    s: State, hash: Id, admin: bool, id: DeliveryId, offline: bool, checked: Option<Id>, operation: Id, now: Time)
    ensures var o := EndSessionsStep(s, hash, admin, RetryNotice(id), offline, checked, operation, now);
            && (o.Committed? <==>
                  && admin && Asks(s, hash, admin, offline, checked, now)
                  && id in s.deliveries && id.AppNotice? && id.channel == Backchannel
                  && s.deliveries[id].status == Failed && now - s.deliveries[id].createdAt <= RETRY_WINDOW)
            && (o.Committed? ==>
                  var due := s.deliveries[id].(status := Pending, nextAttempt := Some(now));
                  o.state == s.(deliveries := s.deliveries[id := due], operations := s.operations[operation := now]))
  {
    hide EndSessionsStep, Asks;
    StepIs(s, hash, admin, RetryNotice(id), offline, checked, operation, now);
  }
}
