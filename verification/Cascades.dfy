/** Closed forms of the store's cascades: each is one comprehension per map, so it does not depend on
    the order in which Go ranges over a map. `Store.FileState` proves its loops equal to these. */
module Cascades {
  import opened Records

  // ---------- What the loops' conditions select ----------

  function OnlineTokens(tokens: map<Id, Token>, app: Id): set<Id> {
    set h | h in tokens && tokens[h].appSessionId == app && tokens[h].familyId == NONE
  }

  function CodesLinking(codes: map<Id, Code>, op: Id, client: Id): set<Id> {
    set h | h in codes && codes[h].opSessionId == op && codes[h].clientId == client
  }

  function TxnsLinking(txns: map<Id, Txn>, op: Id, client: Id): set<Id> {
    set h | h in txns && txns[h].opSessionId == op && txns[h].clientId == client
  }

  function CodesBound(codes: map<Id, Code>, op: Id): set<Id> {
    set h | h in codes && codes[h].opSessionId == op
  }

  function TxnsBound(txns: map<Id, Txn>, op: Id): set<Id> {
    set h | h in txns && txns[h].opSessionId == op
  }

  function AppsOfSessions(apps: map<Id, App>, ids: set<Id>): set<Id> {
    set a | a in apps && apps[a].opSessionId in ids
  }

  function AppsOfClient(apps: map<Id, App>, client: Id): set<Id> {
    set a | a in apps && apps[a].clientId == client
  }

  function AppsOfUser(apps: map<Id, App>, user: Id): set<Id> {
    set a | a in apps && apps[a].userId == user
  }

  function AppsOfGrant(apps: map<Id, App>, user: Id, client: Id): set<Id> {
    set a | a in apps && apps[a].userId == user && apps[a].clientId == client
  }

  function TokensOfFamily(tokens: map<Id, Token>, family: Id): set<Id> {
    set h | h in tokens && tokens[h].familyId == family
  }

  function TokensOfUser(tokens: map<Id, Token>, user: Id): set<Id> {
    set h | h in tokens && tokens[h].userId == user
  }

  function TokensOfClient(tokens: map<Id, Token>, client: Id): set<Id> {
    set h | h in tokens && tokens[h].clientId == client
  }

  function TokensOfCode(tokens: map<Id, Token>, code: Id): set<Id> {
    set h | h in tokens && tokens[h].codeHash == code
  }

  function FamiliesOfUser(families: map<Id, Family>, user: Id): set<Id> {
    set f | f in families && families[f].userId == user
  }

  function FamiliesOfClient(families: map<Id, Family>, client: Id): set<Id> {
    set f | f in families && families[f].clientId == client
  }

  function FamiliesOfCode(families: map<Id, Family>, code: Id): set<Id> {
    set f | f in families && families[f].codeHash == code
  }

  function FamiliesOfGrant(families: map<Id, Family>, user: Id, client: Id): set<Id> {
    set f | f in families && families[f].userId == user && families[f].clientId == client
  }

  function TokensOfGrant(tokens: map<Id, Token>, user: Id, client: Id): set<Id> {
    set h | h in tokens && tokens[h].userId == user && tokens[h].clientId == client
  }

  function CodesOfGrant(codes: map<Id, Code>, user: Id, client: Id): set<Id> {
    set h | h in codes && codes[h].userId == user && codes[h].clientId == client
  }

  function TxnsOfGrant(txns: map<Id, Txn>, user: Id, client: Id): set<Id> {
    set t | t in txns && txns[t].userId == user && txns[t].clientId == client
  }

  function CodesOfUser(codes: map<Id, Code>, user: Id): set<Id> {
    set h | h in codes && codes[h].userId == user
  }

  function CodesOfClient(codes: map<Id, Code>, client: Id): set<Id> {
    set h | h in codes && codes[h].clientId == client
  }

  function TxnsOfUser(txns: map<Id, Txn>, user: Id): set<Id> {
    set h | h in txns && txns[h].userId == user
  }

  function TxnsOfClient(txns: map<Id, Txn>, client: Id): set<Id> {
    set h | h in txns && txns[h].clientId == client
  }

  function ConsentsOfUser(consents: map<ConsentKey, Consent>, user: Id): set<ConsentKey> {
    set k | k in consents && k.userId == user
  }

  function ConsentsOfClient(consents: map<ConsentKey, Consent>, client: Id): set<ConsentKey> {
    set k | k in consents && k.clientId == client
  }

  function ExpiredFamilies(families: map<Id, Family>, now: Time): set<Id> {
    set f | f in families && families[f].retainUntil <= now
  }

  function RefreshesOf(refreshes: map<Id, Refresh>, gone: set<Id>): set<Id> {
    set h | h in refreshes && refreshes[h].familyId in gone
  }

  function ExpiredTxns(txns: map<Id, Txn>, now: Time): set<Id> {
    set h | h in txns && txns[h].expiresAt <= now
  }

  /** Unused codes go when they expire, used ones when their evidence is no longer needed. */
  function ExpiredCodes(codes: map<Id, Code>, now: Time): set<Id> {
    set h | h in codes && codes[h].expiresAt <= now && !After(codes[h].retainUntil, now)
  }

  function ExpiredTokens(tokens: map<Id, Token>, now: Time): set<Id> {
    set h | h in tokens && tokens[h].expiresAt <= now
  }

  function SessionIdsOfUser(sessions: map<Id, Session>, user: Id): set<Id> {
    set h | h in sessions && sessions[h].userId == user :: sessions[h].id
  }

  predicate ExpiredRow(r: Session, now: Time) {
    r.expiresAt <= now && r.endedAt.None?
  }

  function ExpiredIds(sessions: map<Id, Session>, now: Time): set<Id> {
    set h | h in sessions && ExpiredRow(sessions[h], now) :: sessions[h].id
  }

  predicate Stale(ended: Option<Time>, now: Time) {
    ended.Some? && ended.value < now - RETENTION
  }

  function StaleOperations(operations: map<Id, Time>, now: Time): set<Id> {
    set o | o in operations && operations[o] < now - RETENTION
  }

  function ExpiredInteractions(interactions: map<Id, Interaction>, now: Time): set<Id> {
    set i | i in interactions && interactions[i].expiresAt <= now
  }

  function StaleDeliveries(deliveries: map<DeliveryId, Delivery>, now: Time): set<DeliveryId> {
    set d | d in deliveries && deliveries[d].createdAt < now - RETENTION
  }

  function StaleApps(apps: map<Id, App>, now: Time): set<Id> {
    set a | a in apps && Stale(apps[a].endedAt, now)
  }

  function StaleSessions(sessions: map<Id, Session>, now: Time): set<Id> {
    set h | h in sessions && Stale(sessions[h].endedAt, now)
  }

  // ---------- Ending app sessions ----------

  ghost function LiveApps(apps: map<Id, App>, ids: set<Id>): set<Id> {
    set a | a in ids && a in apps && apps[a].endedAt.None?
  }

  /** Some app session of `ended` links this provider session and client. */
  ghost predicate Touches(apps: map<Id, App>, ended: set<Id>, op: Id, client: Id) {
    exists a :: a in ended && a in apps && apps[a].opSessionId == op && apps[a].clientId == client
  }

  function EndedApp(a: App, reason: Reason, now: Time): App {
    a.(endedAt := Some(now), endReason := reason)
  }

  ghost function AppsEnded(apps: map<Id, App>, ended: set<Id>, reason: Reason, now: Time): map<Id, App> {
    map a | a in apps :: if a in ended then EndedApp(apps[a], reason, now) else apps[a]
  }

  ghost function TokensEnded(tokens: map<Id, Token>, ended: set<Id>): map<Id, Token> {
    map h | h in tokens ::
      if tokens[h].appSessionId in ended && tokens[h].familyId == NONE then tokens[h].(revoked := true) else tokens[h]
  }

  ghost function CodesEnded(codes: map<Id, Code>, apps: map<Id, App>, ended: set<Id>): map<Id, Code> {
    map h | h in codes ::
      if Touches(apps, ended, codes[h].opSessionId, codes[h].clientId) then codes[h].(revoked := true) else codes[h]
  }

  ghost function TxnsEnded(txns: map<Id, Txn>, apps: map<Id, App>, ended: set<Id>): map<Id, Txn> {
    map h | h in txns ::
      if Touches(apps, ended, txns[h].opSessionId, txns[h].clientId) then txns[h].(revoked := true) else txns[h]
  }

  // Flagging exactly the selected records.

  ghost function CodesMarked(codes: map<Id, Code>, selected: set<Id>): map<Id, Code> {
    map h | h in codes :: if h in selected then codes[h].(revoked := true) else codes[h]
  }

  ghost function TxnsMarked(txns: map<Id, Txn>, selected: set<Id>): map<Id, Txn> {
    map h | h in txns :: if h in selected then txns[h].(revoked := true) else txns[h]
  }

  function EndpointFor(clients: map<Id, Client>, client: Id, channel: Channel): Id {
    if client !in clients then NONE
    else match channel
      case Backchannel => clients[client].metadata.backchannelUri
      case Frontchannel => clients[client].metadata.frontchannelUri
      case _ => NONE
  }

  /** Which notices ending an app session of `client` queues: one per configured channel, or a single
      "unsupported" record when there is none. */
  predicate Notified(clients: map<Id, Client>, client: Id, channel: Channel) {
    match channel
    case Local => false
    case NoChannel =>
      EndpointFor(clients, client, Backchannel) == NONE && EndpointFor(clients, client, Frontchannel) == NONE
    case _ => EndpointFor(clients, client, channel) != NONE
  }

  function AppDelivery(clients: map<Id, Client>, a: App, channel: Channel, reason: Reason, now: Time): Delivery {
    var status :=
      match channel
      case Backchannel => Pending
      case Frontchannel => BrowserUnavailable
      case _ => Unsupported;
    var next := if channel == NoChannel then None else Some(now);
    Delivery(a.opSessionId, a.clientId, reason, status, EndpointFor(clients, a.clientId, channel), now, now, next, None,
             NONE, 0, 0, NoError, [])
  }

  function OpDelivery(session: Id, reason: Reason, now: Time): Delivery {
    Delivery(session, NONE, reason, Ended, NONE, now, now, None, None, NONE, 0, 0, NoError, [])
  }

  const CHANNELS: set<Channel> := {Local, Backchannel, Frontchannel, NoChannel}

  ghost function NoticeIds(apps: set<Id>): (r: set<DeliveryId>)
    ensures forall d :: d in r <==> d.AppNotice? && d.app in apps
  {
    var r := set a, ch | a in apps && ch in CHANNELS :: AppNotice(a, ch);
    forall d: DeliveryId | d.AppNotice? && d.app in apps ensures d in r {
      assert d.channel.Local? || d.channel.Backchannel? || d.channel.Frontchannel? || d.channel.NoChannel?;
      assert d.channel in CHANNELS && d == AppNotice(d.app, d.channel);
    }
    r
  }

  ghost function Notices(
    clients: map<Id, Client>, apps: map<Id, App>, ended: set<Id>, reason: Reason, now: Time): map<DeliveryId, Delivery>
  {
    map d | d in NoticeIds(ended) && d.app in apps && Notified(clients, apps[d.app].clientId, d.channel) ::
      AppDelivery(clients, apps[d.app], d.channel, reason, now)
  }

  /** `EndAppSession` on every id of `ids`, in any order. */
  ghost function EndApps(s: State, ids: set<Id>, reason: Reason, now: Time): State {
    var live := LiveApps(s.apps, ids);
    s.(apps := AppsEnded(s.apps, live, reason, now),
       tokens := TokensEnded(s.tokens, live),
       codes := CodesEnded(s.codes, s.apps, live),
       txns := TxnsEnded(s.txns, s.apps, live),
       deliveries := s.deliveries + Notices(s.clients, s.apps, live, reason, now))
  }

  /** A notice not yet sent, about this app session and why it ended. */
  predicate NewFor(d: Delivery, app: App, reason: Reason, now: Time) {
    && d.opSessionId == app.opSessionId && d.clientId == app.clientId && d.reason == reason && d.createdAt == now
    && d.leaseId == NONE && d.leaseUntil.None? && d.attempts == 0 && d.history == []
    && d.updatedAt == now && d.httpStatus == 0 && d.error == NoError
  }

  /** What the client's metadata asks for when its app session ends: a notice to its back-channel endpoint, due
      at once, one to its front-channel endpoint, which waits for a page, or else the "unsupported" record. */
  ghost predicate Queued(
    ds: map<DeliveryId, Delivery>, clients: map<Id, Client>, a: Id, app: App, reason: Reason, now: Time)
  {
    var back := if app.clientId in clients then clients[app.clientId].metadata.backchannelUri else NONE;
    var front := if app.clientId in clients then clients[app.clientId].metadata.frontchannelUri else NONE;
    && (back != NONE ==>
          && AppNotice(a, Backchannel) in ds
          && var d := ds[AppNotice(a, Backchannel)];
          NewFor(d, app, reason, now) && d.status == Pending && d.endpoint == back && d.nextAttempt == Some(now))
    && (front != NONE ==>
          && AppNotice(a, Frontchannel) in ds
          && var d := ds[AppNotice(a, Frontchannel)];
          NewFor(d, app, reason, now) && d.status == BrowserUnavailable && d.endpoint == front)
    && (back == NONE && front == NONE ==>
          && AppNotice(a, NoChannel) in ds
          && var d := ds[AppNotice(a, NoChannel)];
          NewFor(d, app, reason, now) && d.status == Unsupported && d.endpoint == NONE)
  }

  /** Ending an app session queues what its client's metadata asks for. */
  lemma EndingQueues(s: State, ids: set<Id>, reason: Reason, now: Time, a: Id)
    requires a in ids && a in s.apps && s.apps[a].endedAt.None?
    ensures Queued(EndApps(s, ids, reason, now).deliveries, s.clients, a, s.apps[a], reason, now)
  {
    assert a in LiveApps(s.apps, ids);
    hide AppsEnded, TokensEnded, CodesEnded, TxnsEnded, LiveApps, Notices, Queued;
    NoticesQueued(s.deliveries, s.clients, s.apps, LiveApps(s.apps, ids), reason, now, a);
  }

  lemma NoticesQueued(
    ds: map<DeliveryId, Delivery>, clients: map<Id, Client>, apps: map<Id, App>, ended: set<Id>, reason: Reason,
    now: Time, a: Id)
    requires a in ended && a in apps
    ensures Queued(ds + Notices(clients, apps, ended, reason, now), clients, a, apps[a], reason, now)
  {
    forall channel
      ensures AppNotice(a, channel) in Notices(clients, apps, ended, reason, now) <==>
                Notified(clients, apps[a].clientId, channel)
      ensures AppNotice(a, channel) in Notices(clients, apps, ended, reason, now) ==>
                Notices(clients, apps, ended, reason, now)[AppNotice(a, channel)]
                  == AppDelivery(clients, apps[a], channel, reason, now)
    {
    }
    hide Notices;
  }

  lemma EndAppsNone(s: State, reason: Reason, now: Time)
    ensures EndApps(s, {}, reason, now) == s
  {
    assert LiveApps(s.apps, {}) == {};
    AppsNone(s.apps, reason, now);
    TokensNone(s.tokens);
    CodesNone(s.codes, s.apps);
    TxnsNone(s.txns, s.apps);
    NoticesNone(s.deliveries, s.clients, s.apps, reason, now);
  }

  lemma AppsNone(apps: map<Id, App>, reason: Reason, now: Time)
    ensures AppsEnded(apps, {}, reason, now) == apps
  {
  }

  lemma TokensNone(tokens: map<Id, Token>)
    ensures TokensEnded(tokens, {}) == tokens
  {
  }

  lemma NoticesNone(
    deliveries: map<DeliveryId, Delivery>, clients: map<Id, Client>, apps: map<Id, App>, reason: Reason, now: Time)
    ensures deliveries + Notices(clients, apps, {}, reason, now) == deliveries
  {
  }

  lemma CodesNone(codes: map<Id, Code>, apps: map<Id, App>)
    ensures CodesEnded(codes, apps, {}) == codes
  {
    forall h | h in codes ensures CodesEnded(codes, apps, {})[h] == codes[h] {
      assert !Touches(apps, {}, codes[h].opSessionId, codes[h].clientId);
    }
  }

  lemma TxnsNone(txns: map<Id, Txn>, apps: map<Id, App>)
    ensures TxnsEnded(txns, apps, {}) == txns
  {
    forall h | h in txns ensures TxnsEnded(txns, apps, {})[h] == txns[h] {
      assert !Touches(apps, {}, txns[h].opSessionId, txns[h].clientId);
    }
  }

  lemma TouchesUnion(apps: map<Id, App>, a: set<Id>, b: set<Id>, reason: Reason, now: Time, op: Id, client: Id)
    ensures Touches(apps, a + b, op, client) == (Touches(apps, a, op, client)
                                                 || Touches(AppsEnded(apps, a, reason, now), b, op, client))
  {
  }

  lemma CodesUnion(codes: map<Id, Code>, apps: map<Id, App>, a: set<Id>, b: set<Id>, reason: Reason, now: Time)
    ensures CodesEnded(CodesEnded(codes, apps, a), AppsEnded(apps, a, reason, now), b) == CodesEnded(codes, apps, a + b)
  {
    forall h | h in codes { TouchesUnion(apps, a, b, reason, now, codes[h].opSessionId, codes[h].clientId); }
  }

  lemma TxnsUnion(txns: map<Id, Txn>, apps: map<Id, App>, a: set<Id>, b: set<Id>, reason: Reason, now: Time)
    ensures TxnsEnded(TxnsEnded(txns, apps, a), AppsEnded(apps, a, reason, now), b) == TxnsEnded(txns, apps, a + b)
  {
    forall h | h in txns { TouchesUnion(apps, a, b, reason, now, txns[h].opSessionId, txns[h].clientId); }
  }

  lemma AppsUnion(apps: map<Id, App>, a: set<Id>, b: set<Id>, reason: Reason, now: Time)
    requires a !! b
    ensures AppsEnded(AppsEnded(apps, a, reason, now), b, reason, now) == AppsEnded(apps, a + b, reason, now)
  {
  }

  lemma TokensUnion(tokens: map<Id, Token>, a: set<Id>, b: set<Id>)
    ensures TokensEnded(TokensEnded(tokens, a), b) == TokensEnded(tokens, a + b)
  {
  }

  lemma NoticesUnion(
    ds: map<DeliveryId, Delivery>, clients: map<Id, Client>, apps: map<Id, App>, a: set<Id>, b: set<Id>, reason: Reason,
    now: Time)
    requires a !! b
    ensures (ds + Notices(clients, apps, a, reason, now))
              + Notices(clients, AppsEnded(apps, a, reason, now), b, reason, now)
            == ds + Notices(clients, apps, a + b, reason, now)
  {
    var na, nb, n := Notices(clients, apps, a, reason, now),
                     Notices(clients, AppsEnded(apps, a, reason, now), b, reason, now),
                     Notices(clients, apps, a + b, reason, now);
    NoticesSplit(clients, apps, a, b, reason, now);
    PlusPlus(ds, na, nb, n);
  }

  lemma NoticesSplit(clients: map<Id, Client>, apps: map<Id, App>, a: set<Id>, b: set<Id>, reason: Reason, now: Time)
    requires a !! b
    ensures Notices(clients, apps, a, reason, now) + Notices(clients, AppsEnded(apps, a, reason, now), b, reason, now)
            == Notices(clients, apps, a + b, reason, now)
  {
  }

  lemma PlusPlus<K, V>(m: map<K, V>, a: map<K, V>, b: map<K, V>, c: map<K, V>)
    requires a + b == c
    ensures (m + a) + b == m + c
  {
  }

  lemma LiveUnion(apps: map<Id, App>, a: set<Id>, b: set<Id>, reason: Reason, now: Time)
    ensures var la := LiveApps(apps, a);
            var lb := LiveApps(AppsEnded(apps, la, reason, now), b);
            la !! lb && LiveApps(apps, a + b) == la + lb
  {
    var la := LiveApps(apps, a);
    assert forall x <- la :: AppsEnded(apps, la, reason, now)[x].endedAt.Some?;
  }

  /** Ending two groups one after the other is ending their union: the order does not matter. */
  lemma EndAppsUnion(s: State, a: set<Id>, b: set<Id>, reason: Reason, now: Time)
    ensures EndApps(EndApps(s, a, reason, now), b, reason, now) == EndApps(s, a + b, reason, now)
  {
    var s1 := EndApps(s, a, reason, now);
    var la, lb := LiveApps(s.apps, a), LiveApps(s1.apps, b);
    LiveUnion(s.apps, a, b, reason, now);
    AppsUnion(s.apps, la, lb, reason, now);
    TokensUnion(s.tokens, la, lb);
    CodesUnion(s.codes, s.apps, la, lb, reason, now);
    TxnsUnion(s.txns, s.apps, la, lb, reason, now);
    NoticesUnion(s.deliveries, s.clients, s.apps, la, lb, reason, now);
  }

  // ---------- Ending provider sessions ----------

  ghost function RowsWithIds(sessions: map<Id, Session>, ids: set<Id>): set<Id> {
    set h | h in sessions && sessions[h].id in ids
  }

  ghost function LiveRows(sessions: map<Id, Session>, rows: set<Id>): set<Id> {
    set h | h in rows && h in sessions && Live(sessions[h])
  }

  /** The logical session ids of some rows. */
  ghost function IdsOf(sessions: map<Id, Session>, rows: set<Id>): set<Id> {
    set h | h in rows && h in sessions :: sessions[h].id
  }

  function EndedSession(r: Session, reason: Reason, now: Time): Session {
    r.(endedAt := Some(now), endReason := reason, csrf := NONE)
  }

  ghost function SessionsEnded(sessions: map<Id, Session>, rows: set<Id>, reason: Reason, now: Time): map<Id, Session> {
    map h | h in sessions :: if h in rows then EndedSession(sessions[h], reason, now) else sessions[h]
  }

  ghost function CodesOfSessions(codes: map<Id, Code>, ids: set<Id>): map<Id, Code> {
    map h | h in codes :: if codes[h].opSessionId in ids then codes[h].(revoked := true) else codes[h]
  }

  ghost function TxnsOfSessions(txns: map<Id, Txn>, ids: set<Id>): map<Id, Txn> {
    map h | h in txns :: if txns[h].opSessionId in ids then txns[h].(revoked := true) else txns[h]
  }

  ghost function OpNoticeIds(ids: set<Id>): (r: set<DeliveryId>)
    ensures forall d :: d in r <==> d.OpNotice? && d.session in ids
  {
    var r := set i | i in ids :: OpNotice(i);
    assert forall d: DeliveryId | d.OpNotice? && d.session in ids :: d == OpNotice(d.session);
    r
  }

  ghost function OpNotices(ids: set<Id>, reason: Reason, now: Time): map<DeliveryId, Delivery> {
    map d | d in OpNoticeIds(ids) && d.OpNotice? :: OpDelivery(d.session, reason, now)
  }

  /** The body of `EndSession`'s loop on every row of `rows`, in any order: each live row is ended with
      its local notice, and with it every live app session, code and transaction of its logical id.
      Refresh families and family-backed tokens do not change. */
  ghost function EndRows(s: State, rows: set<Id>, reason: Reason, now: Time): State {
    var live := LiveRows(s.sessions, rows);
    var ids := IdsOf(s.sessions, live);
    var apps := LiveApps(s.apps, AppsOfSessions(s.apps, ids));
    s.(sessions := SessionsEnded(s.sessions, live, reason, now),
       apps := AppsEnded(s.apps, apps, reason, now),
       tokens := TokensEnded(s.tokens, apps),
       codes := CodesOfSessions(s.codes, ids),
       txns := TxnsOfSessions(s.txns, ids),
       deliveries := s.deliveries + OpNotices(ids, reason, now) + Notices(s.clients, s.apps, apps, reason, now))
  }

  ghost function EndSessions(s: State, ids: set<Id>, reason: Reason, now: Time): State {
    EndRows(s, RowsWithIds(s.sessions, ids), reason, now)
  }

  /** Exactly the live rows of these sessions end. */
  ghost predicate OnlyEnded(
    before: map<Id, Session>, after: map<Id, Session>, ids: set<Id>, reason: Reason, now: Time)
  {
    && after.Keys == before.Keys
    && forall h <- before ::
         after[h] == if before[h].id in ids && before[h].endedAt.None?
                     then before[h].(endedAt := Some(now), endReason := reason, csrf := NONE)
                     else before[h]
  }

  lemma EndSessionsOnly(s: State, ids: set<Id>, reason: Reason, now: Time)
    ensures OnlyEnded(s.sessions, EndSessions(s, ids, reason, now).sessions, ids, reason, now)
  {
    hide AppsEnded, TokensEnded, CodesOfSessions, TxnsOfSessions, Notices, OpNotices, LiveApps, AppsOfSessions;
  }

  lemma RowsUnion(sessions: map<Id, Session>, x: set<Id>, y: set<Id>, reason: Reason, now: Time)
    ensures var lx := LiveRows(sessions, x);
            var s1 := SessionsEnded(sessions, lx, reason, now);
            var ly := LiveRows(s1, y);
            && LiveRows(sessions, x + y) == lx + ly
            && SessionsEnded(s1, ly, reason, now) == SessionsEnded(sessions, lx + ly, reason, now)
            && IdsOf(sessions, lx + ly) == IdsOf(sessions, lx) + IdsOf(s1, ly)
  {
    var lx := LiveRows(sessions, x);
    var s1 := SessionsEnded(sessions, lx, reason, now);
    assert forall h <- lx :: !Live(s1[h]);
    assert forall h <- sessions :: s1[h].id == sessions[h].id;
  }

  lemma SessionAppsUnion(apps: map<Id, App>, i: set<Id>, j: set<Id>, reason: Reason, now: Time)
    ensures var la := LiveApps(apps, AppsOfSessions(apps, i));
            var apps1 := AppsEnded(apps, la, reason, now);
            var lb := LiveApps(apps1, AppsOfSessions(apps1, j));
            la !! lb && LiveApps(apps, AppsOfSessions(apps, i + j)) == la + lb
  {
    var la := LiveApps(apps, AppsOfSessions(apps, i));
    var apps1 := AppsEnded(apps, la, reason, now);
    assert forall x <- la :: apps1[x].endedAt.Some?;
    assert forall x <- apps :: apps1[x].opSessionId == apps[x].opSessionId;
    assert AppsOfSessions(apps1, j) == AppsOfSessions(apps, j);
    assert AppsOfSessions(apps, i + j) == AppsOfSessions(apps, i) + AppsOfSessions(apps, j);
  }

  lemma SessionCodesUnion(codes: map<Id, Code>, i: set<Id>, j: set<Id>)
    ensures CodesOfSessions(CodesOfSessions(codes, i), j) == CodesOfSessions(codes, i + j)
  {
  }

  lemma SessionTxnsUnion(txns: map<Id, Txn>, i: set<Id>, j: set<Id>)
    ensures TxnsOfSessions(TxnsOfSessions(txns, i), j) == TxnsOfSessions(txns, i + j)
  {
  }

  lemma OpNoticesUnion(i: set<Id>, j: set<Id>, reason: Reason, now: Time)
    ensures OpNotices(i, reason, now) + OpNotices(j, reason, now) == OpNotices(i + j, reason, now)
  {
  }

  /** Op notices and app notices are filed under different ids, so they commute. */
  lemma DeliveriesUnion(
    ds: map<DeliveryId, Delivery>, clients: map<Id, Client>, apps: map<Id, App>, i: set<Id>, j: set<Id>, a: set<Id>,
    b: set<Id>, reason: Reason, now: Time)
    requires a !! b
    ensures ds + OpNotices(i, reason, now) + Notices(clients, apps, a, reason, now) + OpNotices(j, reason, now)
              + Notices(clients, AppsEnded(apps, a, reason, now), b, reason, now)
         == ds + OpNotices(i + j, reason, now) + Notices(clients, apps, a + b, reason, now)
  {
    var oi, oj, o := OpNotices(i, reason, now), OpNotices(j, reason, now), OpNotices(i + j, reason, now);
    var na, nb, n := Notices(clients, apps, a, reason, now),
                     Notices(clients, AppsEnded(apps, a, reason, now), b, reason, now),
                     Notices(clients, apps, a + b, reason, now);
    OpNoticesUnion(i, j, reason, now);
    NoticesSplit(clients, apps, a, b, reason, now);
    assert na.Keys !! oj.Keys;
    Commute(ds + oi, na, oj);
    PlusPlus(ds, oi, oj, o);
    PlusPlus(ds + o, na, nb, n);
  }

  lemma Commute<K, V>(m: map<K, V>, a: map<K, V>, b: map<K, V>)
    requires a.Keys !! b.Keys
    ensures (m + a) + b == (m + b) + a
  {
  }

  /** Ending rows one group after another is ending their union, for any grouping and order. */
  lemma EndRowsUnion(s: State, x: set<Id>, y: set<Id>, reason: Reason, now: Time)
    ensures EndRows(EndRows(s, x, reason, now), y, reason, now) == EndRows(s, x + y, reason, now)
  {
    var s1 := EndRows(s, x, reason, now);
    var lx, ly := LiveRows(s.sessions, x), LiveRows(s1.sessions, y);
    var ix, iy := IdsOf(s.sessions, lx), IdsOf(s1.sessions, ly);
    var ax, ay := LiveApps(s.apps, AppsOfSessions(s.apps, ix)), LiveApps(s1.apps, AppsOfSessions(s1.apps, iy));
    RowsUnion(s.sessions, x, y, reason, now);
    SessionAppsUnion(s.apps, ix, iy, reason, now);
    AppsUnion(s.apps, ax, ay, reason, now);
    TokensUnion(s.tokens, ax, ay);
    SessionCodesUnion(s.codes, ix, iy);
    SessionTxnsUnion(s.txns, ix, iy);
    DeliveriesUnion(s.deliveries, s.clients, s.apps, ix, iy, ax, ay, reason, now);
  }

  lemma EndRowsNone(s: State, reason: Reason, now: Time)
    ensures EndRows(s, {}, reason, now) == s
  {
    assert LiveRows(s.sessions, {}) == {} && IdsOf(s.sessions, {}) == {}
           && LiveApps(s.apps, AppsOfSessions(s.apps, {})) == {};
    SessionsNone(s.sessions, reason, now);
    AppsNone(s.apps, reason, now);
    TokensNone(s.tokens);
    SessionCodesNone(s.codes);
    SessionTxnsNone(s.txns);
    OpNoticesNone(s.deliveries, reason, now);
    NoticesNone(s.deliveries, s.clients, s.apps, reason, now);
  }

  lemma SessionsNone(sessions: map<Id, Session>, reason: Reason, now: Time)
    ensures SessionsEnded(sessions, {}, reason, now) == sessions
  {
  }

  lemma SessionCodesNone(codes: map<Id, Code>)
    ensures CodesOfSessions(codes, {}) == codes
  {
  }

  lemma SessionTxnsNone(txns: map<Id, Txn>)
    ensures TxnsOfSessions(txns, {}) == txns
  {
  }

  lemma OpNoticesNone(ds: map<DeliveryId, Delivery>, reason: Reason, now: Time)
    ensures ds + OpNotices({}, reason, now) == ds
  {
  }

  lemma EndSessionsUnion(s: State, i: set<Id>, j: set<Id>, reason: Reason, now: Time)
    ensures EndSessions(EndSessions(s, i, reason, now), j, reason, now) == EndSessions(s, i + j, reason, now)
  {
    var rows := RowsWithIds(s.sessions, i);
    SameIds(s, rows, j, reason, now);
    hide EndRows;
    assert RowsWithIds(s.sessions, i + j) == rows + RowsWithIds(s.sessions, j);
    EndRowsUnion(s, rows, RowsWithIds(s.sessions, j), reason, now);
  }

  lemma SameIds(s: State, rows: set<Id>, j: set<Id>, reason: Reason, now: Time)
    ensures RowsWithIds(EndRows(s, rows, reason, now).sessions, j) == RowsWithIds(s.sessions, j)
  {
    var s1 := SessionsEnded(s.sessions, LiveRows(s.sessions, rows), reason, now);
    assert forall h <- s.sessions :: s1[h].id == s.sessions[h].id;
  }

  // ---------- Revocation ----------

  ghost function FamiliesRevoked(families: map<Id, Family>, ids: set<Id>): map<Id, Family> {
    map f | f in families :: if f in ids then families[f].(revoked := true) else families[f]
  }

  ghost function TokensRevoked(tokens: map<Id, Token>, families: set<Id>, hashes: set<Id>): map<Id, Token> {
    map h | h in tokens ::
      if tokens[h].familyId in families || h in hashes then tokens[h].(revoked := true) else tokens[h]
  }

  /** `RevokeRefreshFamily` on the stored families of `families` and `RevokeAccessToken` on `hashes`. */
  ghost function RevokeGrants(s: State, families: set<Id>, hashes: set<Id>): State {
    s.(families := FamiliesRevoked(s.families, families),
       tokens := TokensRevoked(s.tokens, families * s.families.Keys, hashes))
  }

  lemma RevokeUnion(s: State, f: set<Id>, g: set<Id>, h: set<Id>, k: set<Id>)
    ensures RevokeGrants(RevokeGrants(s, f, h), g, k) == RevokeGrants(s, f + g, h + k)
  {
  }

  ghost function RevokeFamily(s: State, id: Id): State { RevokeGrants(s, {id}, {}) }

  ghost function RevokeToken(s: State, hash: Id): State { RevokeGrants(s, {}, {hash}) }

  ghost function RevokeForUser(s: State, user: Id): State {
    RevokeGrants(s, FamiliesOfUser(s.families, user), TokensOfUser(s.tokens, user))
  }

  ghost function RevokeForClient(s: State, client: Id): State {
    RevokeGrants(s, FamiliesOfClient(s.families, client), TokensOfClient(s.tokens, client))
  }

  ghost function RevokeForCode(s: State, code: Id): State {
    RevokeGrants(s, FamiliesOfCode(s.families, code), TokensOfCode(s.tokens, code))
  }

  // ---------- Security changes ----------

  ghost function DropUserGrants(s: State, user: Id): State {
    s.(codes := s.codes - CodesOfUser(s.codes, user),
       txns := s.txns - TxnsOfUser(s.txns, user),
       consents := s.consents - ConsentsOfUser(s.consents, user))
  }

  ghost function DropClientGrants(s: State, client: Id): State {
    s.(codes := s.codes - CodesOfClient(s.codes, client),
       txns := s.txns - TxnsOfClient(s.txns, client),
       consents := s.consents - ConsentsOfClient(s.consents, client))
  }

  /** `DeleteUserSessions`. */
  ghost function PurgeUser(s: State, user: Id, now: Time): State {
    EndSessions(DropUserGrants(RevokeForUser(s, user), user), SessionIdsOfUser(s.sessions, user), SecurityChange, now)
  }

  /** `invalidateClientGrants`. */
  ghost function PurgeClient(s: State, client: Id, now: Time): State {
    DropClientGrants(RevokeForClient(EndApps(s, AppsOfClient(s.apps, client), ClientChanged, now), client), client)
  }

  predicate EmailTaken(users: map<Id, User>, id: Id, email: Id) {
    exists u <- users :: u != id && users[u].email == email
  }

  predicate SecurityRelevant(before: User, after: User) {
    before.password != after.password || before.email != after.email || before.role != after.role
    || before.active != after.active
  }

  /** `SaveUser`; `None` is the email conflict. */
  ghost function SaveUser(s: State, id: Id, user: User, now: Time): Option<State> {
    if EmailTaken(s.users, id, user.email) then None
    else
      var s1 := if id in s.users && SecurityRelevant(s.users[id], user) then PurgeUser(s, id, now) else s;
      Some(s1.(users := s1.users[id := user]))
  }

  ghost function DeleteUser(s: State, id: Id, now: Time): State {
    PurgeUser(s.(users := s.users - {id}, access := s.access - {id}), id, now)
  }

  /** A new revision always moves forward, even on an unchanged clock. */
  function NextRevision(previous: Client, c: Client): Client {
    if c.updatedAt <= previous.updatedAt then c.(updatedAt := previous.updatedAt + 1) else c
  }

  ghost function SaveClient(s: State, id: Id, c: Client, now: Time): State {
    if id !in s.clients then s.(clients := s.clients[id := c])
    else
      var s1 := PurgeClient(s, id, now);
      s1.(clients := s1.clients[id := NextRevision(s.clients[id], c)])
  }

  ghost function DeleteClient(s: State, id: Id, now: Time): State {
    var s1 := PurgeClient(s.(policies := s.policies - {id}), id, now);
    s1.(clients := s1.clients - {id})
  }

  ghost function SavePolicy(s: State, id: Id, p: Policy, now: Time): State {
    PurgeClient(s.(policies := s.policies[id := p]), id, now)
  }

  ghost function SaveAccess(s: State, id: Id, a: Access, now: Time): State {
    RevokeForUser(EndApps(s.(access := s.access[id := a]), AppsOfUser(s.apps, id), AccessPolicyChanged, now), id)
  }

  /** `SaveConsent`: a revoked consent takes its app sessions and refresh families with it. */
  ghost function RevokeConsentGrants(s: State, k: ConsentKey, now: Time): State {
    RevokeGrants(EndApps(s, AppsOfGrant(s.apps, k.userId, k.clientId), AccessRevoked, now),
                 FamiliesOfGrant(s.families, k.userId, k.clientId), {})
  }

  ghost function SaveConsent(s: State, k: ConsentKey, c: Consent, now: Time): State {
    var s1 := if c.revoked then RevokeConsentGrants(s, k, now) else s;
    s1.(consents := s1.consents[k := c])
  }

  // ---------- Pruning ----------

  /** `PruneOIDCState`. */
  ghost function PruneGrants(s: State, now: Time): State {
    s.(families := s.families - ExpiredFamilies(s.families, now),
       refreshes := s.refreshes - RefreshesOf(s.refreshes, ExpiredFamilies(s.families, now)),
       txns := s.txns - ExpiredTxns(s.txns, now),
       codes := s.codes - ExpiredCodes(s.codes, now),
       tokens := s.tokens - ExpiredTokens(s.tokens, now))
  }

  ghost function PruneSessions(s: State, now: Time): State {
    EndSessions(s, ExpiredIds(s.sessions, now), Expired, now)
  }

  /** The retention half of `PruneLogoutState`. */
  ghost function DropStale(s: State, now: Time): State {
    s.(operations := s.operations - StaleOperations(s.operations, now),
       interactions := s.interactions - ExpiredInteractions(s.interactions, now),
       deliveries := s.deliveries - StaleDeliveries(s.deliveries, now),
       apps := s.apps - StaleApps(s.apps, now),
       sessions := s.sessions - StaleSessions(s.sessions, now))
  }

  ghost function PruneLogoutState(s: State, now: Time): State {
    DropStale(PruneSessions(s, now), now)
  }

  predicate RowsDue(sessions: map<Id, Session>, now: Time) {
    exists h <- sessions :: ExpiredRow(sessions[h], now) || Stale(sessions[h].endedAt, now)
  }

  predicate InteractionsDue(interactions: map<Id, Interaction>, now: Time) {
    exists i <- interactions :: interactions[i].expiresAt <= now
  }

  predicate DeliveriesDue(deliveries: map<DeliveryId, Delivery>, now: Time) {
    exists d <- deliveries :: deliveries[d].createdAt < now - RETENTION
  }

  predicate OperationsDue(operations: map<Id, Time>, now: Time) {
    exists o <- operations :: operations[o] < now - RETENTION
  }

  predicate AppsDue(apps: map<Id, App>, now: Time) {
    exists a <- apps :: Stale(apps[a].endedAt, now)
  }

  /** `LogoutMaintenanceDue`. */
  predicate MaintenanceDue(s: State, now: Time) {
    RowsDue(s.sessions, now) || InteractionsDue(s.interactions, now) || DeliveriesDue(s.deliveries, now)
    || OperationsDue(s.operations, now) || AppsDue(s.apps, now)
  }
}
