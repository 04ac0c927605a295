/** Ending sessions from the session pages (internal/identity/sessions.go) and from the browser logout
    interaction (internal/oidc/logout.go). */
module Logouts {
  import opened Records
  import opened Cascades
  import opened Outbox
  import opened Invariants
  import opened Evolution
  import opened Flags
  import opened Changes
  import opened Purges
  import opened Steps

  datatype Target =
    | OneSession(session: Id)
    | OwnSessions(other: bool)
    | OneApp(app: Id)
    | UserSessions(user: Id)
    | ClientAccess(client: Id)
    | RetryNotice(notice: DeliveryId)

  // ---------- What each target selects ----------

  function FamiliesOfSession(families: map<Id, Family>, session: Id): set<Id> {
    set f | f in families && families[f].opSessionId == session
  }

  function FamiliesOfApp(families: map<Id, Family>, app: Id): set<Id> {
    set f | f in families && families[f].appSessionId == app
  }

  function OtherIds(sessions: map<Id, Session>, user: Id, keep: Option<Id>): set<Id> {
    set h | h in sessions && sessions[h].userId == user && keep != Some(sessions[h].id) :: sessions[h].id
  }

  // ---------- Ending sessions ----------

  /** The password is asked again for every target that reaches beyond one session or app. */
  predicate NeedsPassword(target: Target, offline: bool) {
    target.ClientAccess? || target.UserSessions? || target.OwnSessions? || offline
  }

  ghost function Offline(s: State, offline: bool, families: set<Id>): State {
    if offline then RevokeGrants(s, families, {}) else s
  }

  ghost function RevokeClientAccess(s: State, user: Id, client: Id, now: Time): State
    requires ConsentKey(user, client) in s.consents
  {
    var k := ConsentKey(user, client);
    var s1 := SaveConsent(s, k, s.consents[k].(revoked := true), now);
    var s2 := s1.(codes := CodesMarked(s1.codes, CodesOfGrant(s1.codes, user, client)),
                  txns := TxnsMarked(s1.txns, TxnsOfGrant(s1.txns, user, client)));
    var s3 := EndApps(s2, AppsOfGrant(s2.apps, user, client), AccessRevoked, now);
    RevokeGrants(s3, {}, TokensOfGrant(s3.tokens, user, client))
  }

  ghost function RetryDelivery(s: State, notice: DeliveryId, now: Time): Outcome {
    if !(notice in s.deliveries && notice.AppNotice? && notice.channel == Backchannel
         && s.deliveries[notice].status == Failed) then
      Denied(NotFound)
    else if now - s.deliveries[notice].createdAt > RETRY_WINDOW then Denied(Invalid)
    else Committed(s.(deliveries := s.deliveries[notice := s.deliveries[notice].(
                                                             status := Pending, nextAttempt := Some(now))]))
  }

  ghost function EndTarget(
    s: State, user: Id, session: Id, admin: bool, target: Target, offline: bool, now: Time): Outcome
  {
    var reason := if admin then AdminLogout else UserLogout;
    match target
    case OneSession(id) =>
      if !(exists h <- s.sessions :: s.sessions[h].id == id && (admin || s.sessions[h].userId == user)) then
        Denied(NotFound)
      else Committed(Offline(EndSessions(s, {id}, reason, now), offline, FamiliesOfSession(s.families, id)))
    case OwnSessions(other) =>
      var m := EndSessions(s, OtherIds(s.sessions, user, if other then Some(session) else None), reason, now);
      Committed(if offline then RevokeForUser(m, user) else m)
    case OneApp(id) =>
      if id !in s.apps || !(admin || s.apps[id].userId == user) then Denied(NotFound)
      else Committed(Offline(EndApps(s, {id}, reason, now), offline, FamiliesOfApp(s.families, id)))
    case UserSessions(id) =>
      if !admin then Denied(Forbidden)
      else if id !in s.users then Denied(NotFound)
      else
        var m := EndSessions(s, SessionIdsOfUser(s.sessions, id), reason, now);
        Committed(if offline then RevokeForUser(m, id) else m)
    case ClientAccess(client) =>
      if ConsentKey(user, client) !in s.consents then Denied(NotFound)
      else Committed(RevokeClientAccess(s, user, client, now))
    case RetryNotice(id) =>
      if !admin then Denied(Forbidden) else RetryDelivery(s, id, now)
  }

  /** `checked` is the password hash the presented password was verified against before the transaction. */
  ghost function EndSessionsStep(
    s: State, hash: Id, admin: bool, target: Target, offline: bool, checked: Option<Id>, operation: Id,
    now: Time): Outcome
  {
    if NeedsPassword(target, offline) && checked.None? then Denied(Credentials)
    else if !SignedInAs(s, hash, admin, now) then Denied(PrincipalError(s, hash, now))
    else
      var row := s.sessions[hash];
      if NeedsPassword(target, offline) && s.users[row.userId].password != checked.value then Denied(Unauthorized)
      else
        var o := EndTarget(s, row.userId, row.id, admin, target, offline, now);
        if o.Denied? then o else Committed(o.state.(operations := o.state.operations[operation := now]))
  }

  lemma OfflineSound(s: State, m: State, tx: Tx, offline: bool, families: set<Id>)
    requires Sound(s, m, tx)
    ensures Sound(s, Offline(m, offline, families), tx)
  {
    assert Inv(m, tx.cfg, tx.known);
    hide Sound, Inv, RevokeGrants;
    if offline {
      RevokeSound(m, tx, families, {});
      SoundThen(s, m, RevokeGrants(m, families, {}), tx);
    }
  }

  lemma OfflineUserSound(s: State, m: State, tx: Tx, offline: bool, user: Id)
    requires Sound(s, m, tx)
    ensures Sound(s, if offline then RevokeForUser(m, user) else m, tx)
  {
    assert Inv(m, tx.cfg, tx.known);
    hide Sound, Inv, RevokeForUser;
    if offline {
      RevokeForUserSound(m, tx, user);
      SoundThen(s, m, RevokeForUser(m, user), tx);
    }
  }

  lemma ClientAccessSound(s: State, tx: Tx, user: Id, client: Id, now: Time)
    requires tx.timely ==> now <= tx.now
    requires Inv(s, tx.cfg, tx.known) && ConsentKey(user, client) in s.consents
    ensures Sound(s, RevokeClientAccess(s, user, client, now), tx)
  {
    var k := ConsentKey(user, client);
    assert k.clientId in s.clients && s.clients[k.clientId].updatedAt == s.consents[k].policyRevision;
    hide Inv, Evolves, SaveConsent, EndApps, RevokeGrants, CodesMarked, TxnsMarked;
    var s1 := SaveConsent(s, k, s.consents[k].(revoked := true), now);
    var s2 := s1.(codes := CodesMarked(s1.codes, CodesOfGrant(s1.codes, user, client)),
                  txns := TxnsMarked(s1.txns, TxnsOfGrant(s1.txns, user, client)));
    var s3 := EndApps(s2, AppsOfGrant(s2.apps, user, client), AccessRevoked, now);
    var s4 := RevokeGrants(s3, {}, TokensOfGrant(s3.tokens, user, client));
    SaveConsentSound(s, tx, k, s.consents[k].(revoked := true), now);
    MarkSound(s1, tx, CodesOfGrant(s1.codes, user, client), TxnsOfGrant(s1.txns, user, client));
    SoundThen(s, s1, s2, tx);
    EndAppsSound(s2, tx, AppsOfGrant(s2.apps, user, client), AccessRevoked, now);
    SoundThen(s, s2, s3, tx);
    RevokeSound(s3, tx, {}, TokensOfGrant(s3.tokens, user, client));
    SoundThen(s, s3, s4, tx);
  }

  /** The transaction may bring the notice back. */
  ghost predicate MayRetry(target: Target, tx: Tx) {
    target.RetryNotice? ==> tx.retried && target.notice in tx.revived
  }

  lemma RetrySound(s: State, tx: Tx, id: DeliveryId, now: Time)
    requires Inv(s, tx.cfg, tx.known) && tx.retried && id in tx.revived
    ensures SoundStep(s, RetryDelivery(s, id, now), tx)
  {
    var o := RetryDelivery(s, id, now);
    if o.Committed? {
      assert Settled(id, s.deliveries[id]) && forall d <- s.deliveries :: Settled(d, s.deliveries[d]);
      assert SameNotices(s.deliveries, o.state.deliveries);
      hide Inv, Sound, SameNotices;
      OutboxSound(s, o.state, tx);
    }
  }

  lemma EndTargetSound(s: State, tx: Tx, user: Id, session: Id, admin: bool, target: Target, offline: bool, now: Time)
    requires (tx.timely ==> now <= tx.now) && MayRetry(target, tx)
    requires Inv(s, tx.cfg, tx.known)
    ensures SoundStep(s, EndTarget(s, user, session, admin, target, offline, now), tx)
  {
    hide Inv, Sound, EndSessions, EndApps, RevokeForUser, Offline, RevokeClientAccess;
    var reason := if admin then AdminLogout else UserLogout;
    match target
    case OneSession(id) =>
      EndSessionsSound(s, tx, {id}, reason, now);
      OfflineSound(s, EndSessions(s, {id}, reason, now), tx, offline, FamiliesOfSession(s.families, id));
    case OwnSessions(other) =>
      var ids := OtherIds(s.sessions, user, if other then Some(session) else None);
      EndSessionsSound(s, tx, ids, reason, now);
      OfflineUserSound(s, EndSessions(s, ids, reason, now), tx, offline, user);
    case OneApp(id) =>
      EndAppsSound(s, tx, {id}, reason, now);
      OfflineSound(s, EndApps(s, {id}, reason, now), tx, offline, FamiliesOfApp(s.families, id));
    case UserSessions(id) =>
      EndSessionsSound(s, tx, SessionIdsOfUser(s.sessions, id), reason, now);
      OfflineUserSound(s, EndSessions(s, SessionIdsOfUser(s.sessions, id), reason, now), tx, offline, id);
    case ClientAccess(client) =>
      if ConsentKey(user, client) in s.consents {
        ClientAccessSound(s, tx, user, client, now);
      }
    case RetryNotice(id) =>
      if admin {
        RetrySound(s, tx, id, now);
      }
  }

  lemma EndSessionsStepSound(
    s: State, tx: Tx, hash: Id, admin: bool, target: Target, offline: bool, checked: Option<Id>, operation: Id,
    now: Time)
    requires (tx.timely ==> now <= tx.now) && MayRetry(target, tx)
    requires Starts(s, tx)
    ensures SoundStep(s, EndSessionsStep(s, hash, admin, target, offline, checked, operation, now), tx)
  {
    hide Inv, Evolves, EndTarget, KnownIds;
    Begin(s, tx);
    var o := EndSessionsStep(s, hash, admin, target, offline, checked, operation, now);
    if o.Committed? {
      var row := s.sessions[hash];
      var m := EndTarget(s, row.userId, row.id, admin, target, offline, now);
      EndTargetSound(s, tx, row.userId, row.id, admin, target, offline, now);
      OperationSound(m.state, o.state, tx);
      SoundThen(s, m.state, o.state, tx);
    }
  }

  /** The account whose sessions a target ends. */
  predicate EndsAll(target: Target, user: Id, who: Id) {
    (target == OwnSessions(false) && who == user) || target == UserSessions(who)
  }

  function EndedIds(s: State, target: Target, user: Id, who: Id): set<Id> {
    if target.OwnSessions? then OtherIds(s.sessions, user, None) else SessionIdsOfUser(s.sessions, who)
  }

  lemma EndsAllIs(s: State, user: Id, session: Id, admin: bool, target: Target, offline: bool, who: Id, now: Time)
    requires EndsAll(target, user, who) && EndTarget(s, user, session, admin, target, offline, now).Committed?
    ensures SessionIdsOfUser(s.sessions, who) <= EndedIds(s, target, user, who)
    ensures var m := EndSessions(s, EndedIds(s, target, user, who), if admin then AdminLogout else UserLogout, now);
            var r := EndTarget(s, user, session, admin, target, offline, now).state;
            r == (if offline then RevokeForUser(m, who) else m) && r.sessions == m.sessions
  {
    hide EndSessions;
  }

  /** Signing out everywhere leaves no live session or association, and with offline access included no
      usable credential. */
  lemma SignedOutEverywhere(
    s: State, tx: Tx, user: Id, session: Id, admin: bool, target: Target, offline: bool, who: Id, now: Time)
    requires (tx.timely ==> now <= tx.now) && Inv(s, tx.cfg, tx.known) && EndsAll(target, user, who)
    requires EndTarget(s, user, session, admin, target, offline, now).Committed?
    ensures var r := EndTarget(s, user, session, admin, target, offline, now).state;
            NoUserSessions(r, who) && (offline ==> UserQuiet(r, who))
  {
    hide EndTarget, EndSessions, RevokeForUser, UserQuiet, Inv, Evolves, AppsLinked, EndsAll, EndedIds, NoUserSessions;
    var r := EndTarget(s, user, session, admin, target, offline, now).state;
    var reason := if admin then AdminLogout else UserLogout;
    var ids := EndedIds(s, target, user, who);
    var m := EndSessions(s, ids, reason, now);
    EndsAllIs(s, user, session, admin, target, offline, who, now);
    EndsAllSound(s, tx, user, session, admin, target, offline, who, now);
    EndSessionsEnds(s, ids, who, reason, now);
    RevokeForUserQuiet(m, who);
    InvAppsLinked(r, tx.cfg, tx.known);
    NoSessionsNoApps(r, who);
  }

  lemma EndsAllSound(
    s: State, tx: Tx, user: Id, session: Id, admin: bool, target: Target, offline: bool, who: Id, now: Time)
    requires (tx.timely ==> now <= tx.now) && Inv(s, tx.cfg, tx.known) && EndsAll(target, user, who)
    requires EndTarget(s, user, session, admin, target, offline, now).Committed?
    ensures Sound(s, EndTarget(s, user, session, admin, target, offline, now).state, tx)
  {
    hide EndTarget, Inv, Sound;
    EndTargetSound(s, tx, user, session, admin, target, offline, now);
  }

  /** Signing out the other sessions leaves at most the present one. */
  lemma OthersSignedOut(s: State, user: Id, session: Id, offline: bool, now: Time)
    ensures var r := EndTarget(s, user, session, false, OwnSessions(true), offline, now).state;
            forall h <- r.sessions ::
              r.sessions[h].userId == user && Live(r.sessions[h]) ==> r.sessions[h].id == session
  {
  }

  lemma OperationSound(s: State, r: State, tx: Tx)
    requires Inv(s, tx.cfg, tx.known) && r == s.(interactions := r.interactions, operations := r.operations)
    requires r.interactions == s.interactions
             || (InteractionsKept(s.interactions, r.interactions, tx.used, tx.written)
                 && r.interactions.Keys <= tx.known)
    ensures Sound(s, r, tx)
  {
    assert SameNotices(s.deliveries, r.deliveries) && forall d <- s.deliveries :: Settled(d, s.deliveries[d]);
    hide Inv, Sound, SameNotices;
    FewerNotices(s.deliveries, s.apps, r.deliveries, tx);
    OutboxSound(s, r, tx);
  }

  ghost function Sweep(s: State, now: Time): Outcome {
    Committed(PruneLogoutState(s, now))
  }

  lemma SweepStepSound(s: State, tx: Tx, now: Time)
    requires tx.timely ==> now <= tx.now
    requires Starts(s, tx)
    ensures SoundStep(s, Sweep(s, now), tx)
  {
    hide Inv, Sound, PruneLogoutState, KnownIds;
    Begin(s, tx);
    SweepSound(s, tx, now);
  }

  // ---------- The browser logout interaction ----------

  const INTERACTION_CAPACITY := 10000

  ghost function PrepareLogout(s: State, id: Id, v: Interaction, now: Time): Outcome {
    var m := PruneLogoutState(s, now);
    if |m.interactions| >= INTERACTION_CAPACITY then Denied(CapacityReached)
    else Committed(m.(interactions := m.interactions[id := v]))
  }

  ghost function WriteInteraction(s: State, id: Id, v: Interaction): Outcome {
    Committed(s.(interactions := s.interactions[id := v]))
  }

  /** Binding writes back the copy the handler read, with the session now signed in, whatever is stored now;
      only an unbound copy of an open interaction is bound. */
  ghost function BindLogout(s: State, id: Id, copy: Interaction, session: Id, user: Id): Outcome {
    if copy.opSessionId != NONE || copy.completed then Denied(Invalid)
    else WriteInteraction(s, id, copy.(opSessionId := session, userId := user))
  }

  /** Cancelling writes back the copy the handler read, expired. */
  ghost function CancelLogout(s: State, id: Id, copy: Interaction, now: Time): Outcome {
    WriteInteraction(s, id, copy.(expiresAt := now))
  }

  /** `v` is the copy the handler read; the stored record decides whether it is still open. */
  ghost function ConfirmLogout(s: State, id: Id, v: Interaction, now: Time): Outcome {
    if id !in s.interactions || s.interactions[id].completed || s.interactions[id].expiresAt <= now then
      Denied(Unauthorized)
    else
      var m := if v.opSessionId != NONE then EndSessions(s, {v.opSessionId}, BrowserLogout, now) else s;
      Committed(m.(interactions := m.interactions[id := s.interactions[id].(completed := true)]))
  }

  /** One front-channel notice when its page is rendered; `framable` are the endpoints a page may frame. */
  function Framed(
    clients: map<Id, Client>, v: Interaction, framable: set<Id>, id: DeliveryId, d: Delivery, now: Time): Delivery
  {
    if d.opSessionId != v.opSessionId || !id.AppNotice? || (v.appSessionId != NONE && id.app != v.appSessionId)
       || id.channel != Frontchannel || d.status != BrowserUnavailable then d
    else if d.clientId in clients && clients[d.clientId].metadata.frontchannelUri != d.endpoint then
      d.(status := Failed, error := DestinationChanged, updatedAt := now)
    else if d.endpoint !in framable then d
    else d.(status := Unconfirmed, updatedAt := now)
  }

  ghost function Frontchannels(s: State, v: Interaction, framable: set<Id>, now: Time): map<DeliveryId, Delivery> {
    map id | id in s.deliveries :: Framed(s.clients, v, framable, id, s.deliveries[id], now)
  }

  ghost function RenderLogout(s: State, v: Interaction, framable: set<Id>, now: Time): Outcome {
    Committed(s.(deliveries := Frontchannels(s, v, framable, now)))
  }

  /** A front-channel notice of the interaction's session, or of its one app session, that no page has had. */
  predicate AwaitsPage(v: Interaction, id: DeliveryId, d: Delivery) {
    && id.AppNotice? && id.channel == Frontchannel && d.status == BrowserUnavailable
    && d.opSessionId == v.opSessionId && (v.appSessionId == NONE || id.app == v.appSessionId)
  }

  /** The notice is addressed elsewhere than its client now has it. */
  predicate Moved(clients: map<Id, Client>, d: Delivery) {
    d.clientId in clients && clients[d.clientId].metadata.frontchannelUri != d.endpoint
  }

  /** A page gets exactly the interaction's waiting front-channel notices that can be framed and whose client
      has not moved; those whose client has are failed; and no other notice changes, nor anything else. */
  ghost predicate Paged(s: State, r: State, v: Interaction, framable: set<Id>, now: Time) {
    && r == s.(deliveries := r.deliveries) && r.deliveries.Keys == s.deliveries.Keys
    && forall id <- s.deliveries ::
         var d, e := s.deliveries[id], r.deliveries[id];
         && e == d.(status := e.status, error := e.error, updatedAt := e.updatedAt)
         && (e != d ==> AwaitsPage(v, id, d) && e.updatedAt == now)
         && (AwaitsPage(v, id, d) ==>
               && (e.status == Failed <==> Moved(s.clients, d))
               && (e.status == Failed ==> e.error == DestinationChanged)
               && (e.status == Unconfirmed <==> !Moved(s.clients, d) && d.endpoint in framable)
               && (e.status == Unconfirmed ==> e.error == d.error))
  }

  lemma FramesExactly(s: State, v: Interaction, framable: set<Id>, now: Time)
    ensures var o := RenderLogout(s, v, framable, now);
            o.Committed? && Paged(s, o.state, v, framable, now)
  {
  }

  lemma RenderIs(s: State, v: Interaction, framable: set<Id>, now: Time)
    ensures RenderLogout(s, v, framable, now) == Committed(s.(deliveries := Frontchannels(s, v, framable, now)))
    ensures forall later ::
              RenderLogout(RenderLogout(s, v, framable, now).state, v, framable, later)
              == RenderLogout(s, v, framable, now)
  {
    hide Framed;
    forall later {
      RenderedOnce(s, v, framable, now, later);
    }
  }

  /** Rendering again, even later, hands nothing to a second page. */
  lemma RenderedOnce(s: State, v: Interaction, framable: set<Id>, now: Time, later: Time)
    ensures var o := RenderLogout(s, v, framable, now);
            RenderLogout(o.state, v, framable, later) == o
  {
    var r := RenderLogout(s, v, framable, now).state;
    forall id | id in s.deliveries
      ensures Framed(s.clients, v, framable, id, r.deliveries[id], later) == r.deliveries[id]
    {
    }
    hide Framed;
    assert Frontchannels(r, v, framable, later) == r.deliveries;
  }

  lemma PrepareLogoutSound(s: State, tx: Tx, id: Id, v: Interaction, now: Time)
    requires tx.timely ==> now <= tx.now
    requires Starts(s, tx) && Drawn(tx, id)
    ensures SoundStep(s, PrepareLogout(s, id, v, now), tx)
  {
    hide Inv, Evolves, PruneLogoutState, KnownIds;
    var o := PrepareLogout(s, id, v, now);
    Begin(s, tx);
    SweepSound(s, tx, now);
    if o.Committed? {
      InteractionPut(PruneLogoutState(s, now), tx, id, v);
      OperationSound(PruneLogoutState(s, now), o.state, tx);
      SoundThen(s, PruneLogoutState(s, now), o.state, tx);
    }
  }

  lemma InteractionPut(s: State, tx: Tx, id: Id, v: Interaction)
    requires Inv(s, tx.cfg, tx.known) && id in tx.known && (id in tx.used ==> id in tx.written)
    ensures var after := s.interactions[id := v];
            InteractionsKept(s.interactions, after, tx.used, tx.written) && after.Keys <= tx.known
  {
    hide SessionsInv, CodesInv, TokensInv, FamiliesInv;
  }

  lemma WriteInteractionSound(s: State, tx: Tx, id: Id, v: Interaction)
    requires Starts(s, tx) && id in tx.used && id in tx.written
    ensures SoundStep(s, WriteInteraction(s, id, v), tx)
  {
    hide Inv, Sound, KnownIds;
    Begin(s, tx);
    InteractionPut(s, tx, id, v);
    OperationSound(s, WriteInteraction(s, id, v).state, tx);
  }

  lemma BindLogoutSound(s: State, tx: Tx, id: Id, copy: Interaction, session: Id, user: Id)
    requires Starts(s, tx) && id in tx.used && id in tx.written
    ensures SoundStep(s, BindLogout(s, id, copy, session, user), tx)
  {
    hide Starts, Sound, WriteInteraction;
    WriteInteractionSound(s, tx, id, copy.(opSessionId := session, userId := user));
  }

  lemma CancelLogoutSound(s: State, tx: Tx, id: Id, copy: Interaction, now: Time)
    requires Starts(s, tx) && id in tx.used && id in tx.written
    ensures SoundStep(s, CancelLogout(s, id, copy, now), tx)
  {
    hide Starts, Sound, WriteInteraction;
    WriteInteractionSound(s, tx, id, copy.(expiresAt := now));
  }

  lemma ConfirmLogoutSound(s: State, tx: Tx, id: Id, v: Interaction, now: Time)
    requires tx.timely ==> now <= tx.now
    requires Starts(s, tx) && id in tx.used && id in tx.written
    ensures SoundStep(s, ConfirmLogout(s, id, v, now), tx)
  {
    hide Inv, Evolves, EndSessions, KnownIds;
    Begin(s, tx);
    var o := ConfirmLogout(s, id, v, now);
    if o.Committed? {
      var m := if v.opSessionId != NONE then EndSessions(s, {v.opSessionId}, BrowserLogout, now) else s;
      SoundStill(s, tx);
      EndSessionsSound(s, tx, {v.opSessionId}, BrowserLogout, now);
      EndKeepsInteractions(s, {v.opSessionId}, BrowserLogout, now);
      InteractionPut(m, tx, id, o.state.interactions[id]);
      OperationSound(m, o.state, tx);
      SoundThen(s, m, o.state, tx);
    }
  }

  lemma EndKeepsInteractions(s: State, ids: set<Id>, reason: Reason, now: Time)
    ensures EndSessions(s, ids, reason, now).interactions == s.interactions
  {
  }

  /** What rendering keeps of one notice. */
  ghost predicate FrameOk(id: DeliveryId, d: Delivery, e: Delivery, tx: Tx) {
    && NoticeMoves(id, d, e, tx) && SameLease(d, e) && Settled(id, e)
    && (Paced(d, tx.now, false) ==> Paced(e, tx.now, false)) && (Paced(d, tx.now, true) ==> Paced(e, tx.now, true))
  }

  lemma FramedOk(s: State, tx: Tx, v: Interaction, framable: set<Id>, now: Time, id: DeliveryId)
    requires id in s.deliveries && Settled(id, s.deliveries[id])
    ensures FrameOk(id, s.deliveries[id], Framed(s.clients, v, framable, id, s.deliveries[id], now), tx)
  {
  }

  lemma FramesSound(s: State, r: State, tx: Tx)
    requires Inv(s, tx.cfg, tx.known) && r == s.(deliveries := r.deliveries) && r.deliveries.Keys == s.deliveries.Keys
    requires forall id <- s.deliveries :: FrameOk(id, s.deliveries[id], r.deliveries[id], tx)
    ensures Sound(s, r, tx)
  {
    assert SameNotices(s.deliveries, r.deliveries);
    hide Inv, Evolves, Paced, Settled, NoticeContinues, SameNotices;
    OutboxSound(s, r, tx);
  }

  lemma RenderLogoutSound(s: State, tx: Tx, v: Interaction, framable: set<Id>, now: Time)
    requires tx.timely ==> now <= tx.now
    requires Starts(s, tx)
    ensures SoundStep(s, RenderLogout(s, v, framable, now), tx)
  {
    var r := RenderLogout(s, v, framable, now).state;
    assert forall d <- s.deliveries :: Settled(d, s.deliveries[d]);
    hide Inv, Sound, KnownIds, Framed, Settled, FrameOk;
    Begin(s, tx);
    forall id | id in s.deliveries ensures FrameOk(id, s.deliveries[id], r.deliveries[id], tx) {
      FramedOk(s, tx, v, framable, now, id);
    }
    FramesSound(s, r, tx);
  }
}
