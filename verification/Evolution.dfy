/** What one transaction may do to the records that existed before it. `used` holds the identifiers
    drawn before the transaction; records filed under other identifiers are new. */
module Evolution {
  import opened Records
  import opened Cascades
  import opened Outbox
  import opened Invariants

  ghost predicate TokenFlagged(t: Token, u: Token) { u == t || u == t.(revoked := true) }

  ghost predicate TokensEvolve(before: map<Id, Token>, after: map<Id, Token>, used: set<Id>) {
    forall h :: h in after && h in used ==> h in before && TokenFlagged(before[h], after[h])
  }

  /** The same revision is the same record. */
  ghost predicate ClientNewer(c: Client, d: Client) {
    d == c || c.updatedAt < d.updatedAt
  }

  ghost predicate ClientsEvolve(before: map<Id, Client>, after: map<Id, Client>, used: set<Id>) {
    forall c :: c in after && c in used ==> c in before && ClientNewer(before[c], after[c])
  }

  /** The live row a live row of an old session comes from. */
  ghost predicate RowFrom(sessions: map<Id, Session>, r: Session, now: Time) {
    exists k ::
      k in sessions && IsLiveRow(sessions[k], r.id, r.userId) && (now < r.expiresAt ==> now < sessions[k].expiresAt)
  }

  ghost predicate SessionsEvolve(before: map<Id, Session>, after: map<Id, Session>, used: set<Id>, now: Time) {
    forall h :: h in after && Live(after[h]) && after[h].id in used ==> RowFrom(before, after[h], now)
  }

  /** A session association keeps its parties, and once ended changes no more. */
  ghost predicate AppContinues(a: App, b: App) {
    && b.opSessionId == a.opSessionId && b.clientId == a.clientId && b.userId == a.userId && b.createdAt == a.createdAt
    && (a.endedAt.Some? ==> b == a)
  }

  ghost predicate AppsEvolve(before: map<Id, App>, after: map<Id, App>, used: set<Id>) {
    forall a :: a in after && a in used ==> a in before && AppContinues(before[a], after[a])
  }

  ghost predicate AppsJoined(before: map<Id, App>, after: map<Id, App>, joins: bool) {
    joins || after.Keys <= before.Keys
  }

  ghost predicate CodeContinues(c: Code, d: Code) {
    && d == c.(revoked := d.revoked, consumed := d.consumed, appSessionId := d.appSessionId,
               retainUntil := d.retainUntil)
    && (c.revoked ==> d.revoked)
    && (c.consumed ==> d.consumed && d.appSessionId == c.appSessionId && d.retainUntil == c.retainUntil)
  }

  ghost predicate CodesEvolve(before: map<Id, Code>, after: map<Id, Code>, used: set<Id>) {
    forall h :: h in after && h in used ==> h in before && CodeContinues(before[h], after[h])
  }

  /** Only the revoked flag and the idle expiry move, and an idle family stays idle. */
  ghost predicate FamilyContinues(f: Family, g: Family, now: Time) {
    && g == f.(revoked := g.revoked, idleExpiry := g.idleExpiry)
    && (f.revoked ==> g.revoked)
    && (now < g.idleExpiry ==> now < f.idleExpiry)
  }

  ghost predicate FamiliesEvolve(before: map<Id, Family>, after: map<Id, Family>, used: set<Id>, now: Time) {
    forall f :: f in after && f in used ==> f in before && FamilyContinues(before[f], after[f], now)
  }

  ghost predicate RefreshContinues(r: Refresh, q: Refresh) {
    q == r || q == r.(consumed := true)
  }

  ghost predicate RefreshesEvolve(before: map<Id, Refresh>, after: map<Id, Refresh>, used: set<Id>) {
    forall h :: h in after && h in used ==> h in before && RefreshContinues(before[h], after[h])
  }

  /** A request keeps what it asks for, and stays revoked and answered. */
  ghost predicate TxnContinues(t: Txn, u: Txn) {
    && u.clientId == t.clientId && u.redirectUri == t.redirectUri && u.scopes == t.scopes
    && u.codeChallenge == t.codeChallenge
    && u.bindingHash == t.bindingHash && u.clientUpdatedAt == t.clientUpdatedAt
    && u.reauthenticateAfter == t.reauthenticateAfter
    && u.maxAge == t.maxAge && u.promptConsent == t.promptConsent && u.expiresAt == t.expiresAt
    && (t.userId != NONE ==> u.userId == t.userId) && (t.revoked ==> u.revoked) && (t.consumed ==> u.consumed)
  }

  ghost predicate TxnsEvolve(before: map<Id, Txn>, after: map<Id, Txn>, used: set<Id>) {
    forall t :: t in after && t in used ==> t in before && TxnContinues(before[t], after[t])
  }

  /** Nothing a code led to can be used, and the code cannot be exchanged. */
  ghost predicate CodeSpent(s: State, code: Id) {
    && (code in s.codes ==> s.codes[code].consumed)
    && (forall h <- s.tokens :: s.tokens[h].codeHash == code ==> s.tokens[h].revoked)
    && (forall f <- s.families :: s.families[f].codeHash == code ==> s.families[f].revoked)
  }

  ghost predicate SpentKept(s: State, r: State, used: set<Id>) {
    forall c :: c in used && c != NONE && CodeSpent(s, c) ==> CodeSpent(r, c)
  }

  ghost predicate HasAdmin(users: map<Id, User>) {
    exists u :: u in users && users[u].role == Admin && users[u].active
  }

  /** A store without accounts, or with an active administrator. */
  ghost predicate Administered(users: map<Id, User>) {
    users == map[] || HasAdmin(users)
  }

  ghost predicate AdminKept(before: map<Id, User>, after: map<Id, User>) {
    (HasAdmin(before) ==> HasAdmin(after)) && (Administered(before) ==> Administered(after))
  }

  predicate AppOver(apps: map<Id, App>, a: Id) {
    a in apps ==> apps[a].endedAt.Some?
  }

  /** What a transaction works with: the identifiers drawn before it and by its end, the codes whose
      exhaustion it keeps (all drawn before it, but for the one an exchange consumes), its clock, and what it
      does that others may not: whether it adds an app session, the notices whose lease it grants or settles,
      those it may revive, the sessions it may bind a request to from a row read before, the interactions it
      writes, whether it retries a notice by hand or grants a lease over one without a result, and whether
      the readings it took before are not after its clock. */
  datatype Tx = Tx(
    cfg: Config, used: set<Id>, known: set<Id>, codes: set<Id>, now: Time,
    joins: bool, leases: set<DeliveryId>, revived: set<DeliveryId>, bound: set<Id>, written: set<Id>,
    retried: bool, lost: bool, timely: bool)

  /** A stored notice is moved within the rights of the transaction: leases change by a grant or a result,
      and a failed notice changes only when it is revived. */
  ghost predicate NoticeMoves(id: DeliveryId, a: Delivery, b: Delivery, tx: Tx) {
    && NoticeContinues(a, b)
    && (id !in tx.leases ==> SameLease(a, b))
    && (id !in tx.revived && a.status == Failed ==> b == a)
  }

  /** Notices about app sessions that are over are never added, only moved or deleted. */
  ghost predicate NoticesEvolve(
    before: map<DeliveryId, Delivery>, apps: map<Id, App>, after: map<DeliveryId, Delivery>, tx: Tx)
  {
    forall id: DeliveryId :: id in after && id.AppNotice? && id.app in tx.used && AppOver(apps, id.app) ==>
      id in before && NoticeMoves(id, before[id], after[id], tx)
  }

  ghost predicate OutboxEvolves(
    before: map<DeliveryId, Delivery>, apps: map<Id, App>, after: map<DeliveryId, Delivery>, tx: Tx)
  {
    && NoticesEvolve(before, apps, after, tx) && LeasesKept(before, after, tx.used)
    && (!tx.retried && tx.timely ==> PaceKept(before, after, tx.now, false))
    && (!tx.retried && tx.timely && !tx.lost ==> PaceKept(before, after, tx.now, true))
  }

  // ---------- Endings ----------

  ghost predicate SameClient(before: map<Id, Client>, after: map<Id, Client>, c: Id) {
    (c in before <==> c in after) && (c in before ==> before[c] == after[c])
  }

  /** A client does not change under a live app session. */
  ghost predicate LiveClients(
    apps: map<Id, App>, clients: map<Id, Client>, apps1: map<Id, App>, clients1: map<Id, Client>, used: set<Id>)
  {
    forall a :: a in used && a in apps && a in apps1 && apps[a].endedAt.None? && apps1[a].endedAt.None? ==>
      SameClient(clients, clients1, apps[a].clientId)
  }

  /** The notice goes where the client wants it on this channel, and says which app session ended, when and
      why. */
  ghost predicate NoticeAbout(clients: map<Id, Client>, a: App, channel: Channel, d: Delivery) {
    && d.endpoint == EndpointFor(clients, a.clientId, channel) && d.opSessionId == a.opSessionId
    && d.clientId == a.clientId && d.reason == a.endReason && a.endedAt == Some(d.createdAt)
  }

  /** An app session that ends gets the notices its client has channels for, and no others. */
  ghost predicate EndingsNotified(
    apps: map<Id, App>, clients: map<Id, Client>, apps1: map<Id, App>, after: map<DeliveryId, Delivery>, used: set<Id>)
  {
    forall a, channel ::
      a in used && a in apps && a in apps1 && apps[a].endedAt.None? && apps1[a].endedAt.Some? ==>
        && (AppNotice(a, channel) in after <==> Notified(clients, apps[a].clientId, channel))
        && (AppNotice(a, channel) in after ==> NoticeAbout(clients, apps1[a], channel, after[AppNotice(a, channel)]))
  }

  /** An app session that is still stored has lost none of its notices. */
  ghost predicate NoticesStay(
    before: map<DeliveryId, Delivery>, apps1: map<Id, App>, after: map<DeliveryId, Delivery>, used: set<Id>)
  {
    forall id: DeliveryId :: id in before && id.AppNotice? && id.app in used && id.app in apps1 ==> id in after
  }

  ghost predicate EndingsKept(
    apps: map<Id, App>, clients: map<Id, Client>, before: map<DeliveryId, Delivery>,
    apps1: map<Id, App>, clients1: map<Id, Client>, after: map<DeliveryId, Delivery>, used: set<Id>)
  {
    && LiveClients(apps, clients, apps1, clients1, used)
    && EndingsNotified(apps, clients, apps1, after, used)
    && NoticesStay(before, apps1, after, used)
  }

  // ---------- Requests of ended sessions ----------

  ghost predicate SessionOver(sessions: map<Id, Session>, op: Id) {
    forall h <- sessions :: sessions[h].id == op ==> sessions[h].endedAt.Some?
  }

  /** If the session is over, every request bound to it is flagged. */
  ghost predicate RequestsClosed(sessions: map<Id, Session>, txns: map<Id, Txn>, op: Id) {
    SessionOver(sessions, op) ==> forall t <- txns :: txns[t].opSessionId == op ==> txns[t].revoked
  }

  ghost predicate ClosedKept(
    sessions: map<Id, Session>, txns: map<Id, Txn>, sessions1: map<Id, Session>, txns1: map<Id, Txn>, bound: set<Id>)
  {
    forall op ::
      op != NONE && op !in bound && RequestsClosed(sessions, txns, op) ==> RequestsClosed(sessions1, txns1, op)
  }

  // ---------- Interactions ----------

  /** Only the interactions a transaction writes change, and none is added but under a new identifier. */
  ghost predicate InteractionsKept(
    before: map<Id, Interaction>, after: map<Id, Interaction>, used: set<Id>, written: set<Id>)
  {
    forall i :: i in after && i in used && i !in written ==> i in before && after[i] == before[i]
  }

  ghost predicate Evolves(s: State, r: State, tx: Tx) {
    && TokensEvolve(s.tokens, r.tokens, tx.used) && ClientsEvolve(s.clients, r.clients, tx.used)
    && SessionsEvolve(s.sessions, r.sessions, tx.used, tx.now) && AppsEvolve(s.apps, r.apps, tx.used)
    && AppsJoined(s.apps, r.apps, tx.joins) && CodesEvolve(s.codes, r.codes, tx.used)
    && FamiliesEvolve(s.families, r.families, tx.used, tx.now)
    && RefreshesEvolve(s.refreshes, r.refreshes, tx.used) && TxnsEvolve(s.txns, r.txns, tx.used)
    && SpentKept(s, r, tx.codes) && AdminKept(s.users, r.users)
    && OutboxEvolves(s.deliveries, s.apps, r.deliveries, tx)
    && EndingsKept(s.apps, s.clients, s.deliveries, r.apps, r.clients, r.deliveries, tx.used)
    && ClosedKept(s.sessions, s.txns, r.sessions, r.txns, tx.bound)
    && InteractionsKept(s.interactions, r.interactions, tx.used, tx.written)
  }

  lemma Still(s: State, tx: Tx)
    ensures Evolves(s, s, tx)
  {
  }

  lemma SessionsThen(a: map<Id, Session>, b: map<Id, Session>, c: map<Id, Session>, used: set<Id>, now: Time)
    requires SessionsEvolve(a, b, used, now) && SessionsEvolve(b, c, used, now)
    ensures SessionsEvolve(a, c, used, now)
  {
  }

  lemma CodesThen(a: map<Id, Code>, b: map<Id, Code>, c: map<Id, Code>, used: set<Id>)
    requires CodesEvolve(a, b, used) && CodesEvolve(b, c, used)
    ensures CodesEvolve(a, c, used)
  {
  }

  lemma TxnsThen(a: map<Id, Txn>, b: map<Id, Txn>, c: map<Id, Txn>, used: set<Id>)
    requires TxnsEvolve(a, b, used) && TxnsEvolve(b, c, used)
    ensures TxnsEvolve(a, c, used)
  {
  }

  lemma FamiliesThen(a: map<Id, Family>, b: map<Id, Family>, c: map<Id, Family>, used: set<Id>, now: Time)
    requires FamiliesEvolve(a, b, used, now) && FamiliesEvolve(b, c, used, now)
    ensures FamiliesEvolve(a, c, used, now)
  {
  }

  lemma OutboxThen(
    a: map<DeliveryId, Delivery>, apps: map<Id, App>, b: map<DeliveryId, Delivery>, apps1: map<Id, App>,
    c: map<DeliveryId, Delivery>, tx: Tx)
    requires OutboxEvolves(a, apps, b, tx) && OutboxEvolves(b, apps1, c, tx) && AppsEvolve(apps, apps1, tx.used)
    ensures OutboxEvolves(a, apps, c, tx)
  {
  }

  lemma SameNotified(before: map<Id, Client>, after: map<Id, Client>, c: Id, channel: Channel)
    requires SameClient(before, after, c)
    ensures Notified(before, c, channel) == Notified(after, c, channel)
    ensures EndpointFor(before, c, channel) == EndpointFor(after, c, channel)
  {
  }

  /** An app session that ends in one of two changes is notified once, by that change. */
  lemma EndingThen(s: State, m: State, r: State, tx: Tx, a: Id, channel: Channel)
    requires EndingsKept(s.apps, s.clients, s.deliveries, m.apps, m.clients, m.deliveries, tx.used)
    requires EndingsKept(m.apps, m.clients, m.deliveries, r.apps, r.clients, r.deliveries, tx.used)
    requires AppsEvolve(s.apps, m.apps, tx.used) && AppsEvolve(m.apps, r.apps, tx.used)
    requires OutboxEvolves(m.deliveries, m.apps, r.deliveries, tx)
    requires a in tx.used && a in s.apps && a in r.apps && s.apps[a].endedAt.None? && r.apps[a].endedAt.Some?
    ensures AppNotice(a, channel) in r.deliveries <==> Notified(s.clients, s.apps[a].clientId, channel)
    ensures AppNotice(a, channel) in r.deliveries ==>
              NoticeAbout(s.clients, r.apps[a], channel, r.deliveries[AppNotice(a, channel)])
  {
    hide Notified, EndpointFor, LeasesKept, PaceKept;
    assert a in m.apps && AppContinues(s.apps[a], m.apps[a]) && AppContinues(m.apps[a], r.apps[a]);
    if m.apps[a].endedAt.None? {
      SameNotified(s.clients, m.clients, s.apps[a].clientId, channel);
    } else {
      NoticeCarried(m, r, tx, a, channel);
    }
  }

  lemma NoticeCarried(m: State, r: State, tx: Tx, a: Id, channel: Channel)
    requires OutboxEvolves(m.deliveries, m.apps, r.deliveries, tx) && a in tx.used && AppOver(m.apps, a)
    ensures AppNotice(a, channel) in r.deliveries ==>
              && AppNotice(a, channel) in m.deliveries
              && NoticeContinues(m.deliveries[AppNotice(a, channel)], r.deliveries[AppNotice(a, channel)])
  {
  }

  lemma EndingsThen(s: State, m: State, r: State, tx: Tx)
    requires EndingsKept(s.apps, s.clients, s.deliveries, m.apps, m.clients, m.deliveries, tx.used)
    requires EndingsKept(m.apps, m.clients, m.deliveries, r.apps, r.clients, r.deliveries, tx.used)
    requires AppsEvolve(s.apps, m.apps, tx.used) && AppsEvolve(m.apps, r.apps, tx.used)
    requires OutboxEvolves(m.deliveries, m.apps, r.deliveries, tx)
    ensures EndingsKept(s.apps, s.clients, s.deliveries, r.apps, r.clients, r.deliveries, tx.used)
  {
    hide Notified, NoticeAbout, OutboxEvolves;
    forall a, channel | a in tx.used && a in s.apps && a in r.apps && s.apps[a].endedAt.None? && r.apps[a].endedAt.Some?
      ensures AppNotice(a, channel) in r.deliveries <==> Notified(s.clients, s.apps[a].clientId, channel)
      ensures AppNotice(a, channel) in r.deliveries ==>
                NoticeAbout(s.clients, r.apps[a], channel, r.deliveries[AppNotice(a, channel)])
    {
      EndingThen(s, m, r, tx, a, channel);
    }
    forall a | a in tx.used && a in s.apps && a in r.apps && s.apps[a].endedAt.None? && r.apps[a].endedAt.None?
      ensures SameClient(s.clients, r.clients, s.apps[a].clientId)
    {
      assert a in m.apps && AppContinues(s.apps[a], m.apps[a]) && AppContinues(m.apps[a], r.apps[a]);
    }
  }

  /** Two changes within one transaction. */
  lemma Then(s: State, m: State, r: State, tx: Tx)
    requires Evolves(s, m, tx) && Evolves(m, r, tx)
    ensures Evolves(s, r, tx)
  {
    hide SessionsEvolve, CodesEvolve, FamiliesEvolve, TxnsEvolve, CodeSpent, HasAdmin, Administered;
    hide OutboxEvolves, EndingsKept, RequestsClosed;
    EndingsThen(s, m, r, tx);
    OutboxThen(s.deliveries, s.apps, m.deliveries, m.apps, r.deliveries, tx);
    SessionsThen(s.sessions, m.sessions, r.sessions, tx.used, tx.now);
    CodesThen(s.codes, m.codes, r.codes, tx.used);
    TxnsThen(s.txns, m.txns, r.txns, tx.used);
    FamiliesThen(s.families, m.families, r.families, tx.used, tx.now);
  }

  // ---------- Keeping the invariant and evolving ----------

  ghost predicate Sound(s: State, r: State, tx: Tx) {
    Evolves(s, r, tx) && Inv(r, tx.cfg, tx.known)
  }

  lemma SoundThen(s: State, m: State, r: State, tx: Tx)
    requires Sound(s, m, tx) && Sound(m, r, tx)
    ensures Sound(s, r, tx)
  {
    hide Evolves, Inv;
    Then(s, m, r, tx);
  }

  /** The outbox of a change that leaves deliveries alone or deletes some. */
  lemma FewerNotices(before: map<DeliveryId, Delivery>, apps: map<Id, App>, after: map<DeliveryId, Delivery>, tx: Tx)
    requires forall id <- after :: id in before && after[id] == before[id]
    ensures OutboxEvolves(before, apps, after, tx)
  {
  }

  lemma SoundStill(s: State, tx: Tx)
    requires Inv(s, tx.cfg, tx.known)
    ensures Sound(s, s, tx)
  {
    hide Evolves, Inv;
    Still(s, tx);
  }
}
