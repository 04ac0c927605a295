/** Changes that only end sessions and raise `revoked` flags. Every cascade that deletes nothing is one,
    and one argument shows that all of them are sound. */
module Flags {
  import opened Records
  import opened Cascades
  import opened Outbox
  import opened Invariants
  import opened Evolution

  // ---------- The relation ----------

  ghost predicate CodeFlagged(c: Code, d: Code) { d == c || d == c.(revoked := true) }

  ghost predicate TxnFlagged(t: Txn, u: Txn) { u == t || u == t.(revoked := true) }

  ghost predicate FamilyFlagged(f: Family, g: Family) { g == f || g == f.(revoked := true) }

  ghost predicate RowFlagged(r: Session, q: Session) {
    q == r || (q.id == r.id && q.userId == r.userId && q.endedAt.Some?)
  }

  ghost predicate AppFlagged(a: App, b: App) {
    b == a || (a.endedAt.None? && b.endedAt.Some? && AppContinues(a, b))
  }

  ghost predicate RowsFlagged(a: map<Id, Session>, b: map<Id, Session>) {
    b.Keys == a.Keys && forall h <- a :: RowFlagged(a[h], b[h])
  }

  ghost predicate AppsFlagged(a: map<Id, App>, b: map<Id, App>) {
    b.Keys == a.Keys && forall h <- a :: AppFlagged(a[h], b[h])
  }

  ghost predicate FamiliesFlagged(a: map<Id, Family>, b: map<Id, Family>) {
    b.Keys == a.Keys && forall h <- a :: FamilyFlagged(a[h], b[h])
  }

  ghost predicate TokensFlagged(a: map<Id, Token>, b: map<Id, Token>) {
    b.Keys == a.Keys && forall h <- a :: TokenFlagged(a[h], b[h])
  }

  ghost predicate CodesFlagged(a: map<Id, Code>, b: map<Id, Code>) {
    b.Keys == a.Keys && forall h <- a :: CodeFlagged(a[h], b[h])
  }

  ghost predicate TxnsFlagged(a: map<Id, Txn>, b: map<Id, Txn>) {
    b.Keys == a.Keys && forall h <- a :: TxnFlagged(a[h], b[h])
  }

  ghost predicate FlagsOnly(s: State, r: State) {
    && SameGrants(s, r) && r.consents == s.consents && r.refreshes == s.refreshes && r.interactions == s.interactions
    && RowsFlagged(s.sessions, r.sessions) && AppsFlagged(s.apps, r.apps)
    && FamiliesFlagged(s.families, r.families) && TokensFlagged(s.tokens, r.tokens)
    && CodesFlagged(s.codes, r.codes) && TxnsFlagged(s.txns, r.txns)
  }

  /** No flag was forgotten: what is still unflagged is still linked to something live. */
  ghost predicate Linked(r: State) {
    && AppsLinked(r.apps, r.sessions) && CodesLinked(r.codes, r.sessions)
    && TokensLinked(r.tokens, r.apps) && TokensInFamilies(r.tokens, r.families)
    && OutboxOk(r.deliveries, r.apps)
  }

  // ---------- What it keeps ----------

  lemma KeepSessions(a: map<Id, Session>, b: map<Id, Session>, used: set<Id>, now: Time)
    requires RowsFlagged(a, b)
    ensures SessionsEvolve(a, b, used, now)
    ensures RowsUnique(a) ==> RowsUnique(b)
  {
  }

  lemma KeepApps(a: map<Id, App>, b: map<Id, App>, used: set<Id>)
    requires AppsFlagged(a, b)
    ensures AppsEvolve(a, b, used) && AppsJoined(a, b, false)
    ensures AppsUnique(a) ==> AppsUnique(b)
  {
  }

  lemma KeepCodes(a: map<Id, Code>, b: map<Id, Code>, clients: map<Id, Client>, used: set<Id>)
    requires CodesFlagged(a, b)
    ensures CodesEvolve(a, b, used)
    ensures CodesPinned(a, clients) ==> CodesPinned(b, clients)
  {
  }

  lemma KeepTxns(a: map<Id, Txn>, b: map<Id, Txn>, clients: map<Id, Client>, used: set<Id>)
    requires TxnsFlagged(a, b) && TxnsOk(a, clients)
    ensures TxnsOk(b, clients) && TxnsEvolve(a, b, used)
  {
  }

  lemma KeepTokens(a: map<Id, Token>, b: map<Id, Token>, c: map<Id, Code>, d: map<Id, Code>, used: set<Id>)
    requires TokensFlagged(a, b) && CodesFlagged(c, d) && TokensProven(a, c)
    ensures TokensEvolve(a, b, used) && TokensFewer(a, b) && TokensProven(b, d)
  {
  }

  lemma KeepFamilies(
    a: map<Id, Family>, b: map<Id, Family>, c: map<Id, Code>, d: map<Id, Code>, cfg: Config, used: set<Id>, now: Time)
    requires FamiliesFlagged(a, b) && CodesFlagged(c, d) && FamiliesProven(a, c) && FamiliesShaped(a, cfg)
    ensures FamiliesEvolve(a, b, used, now) && FamiliesFewer(a, b) && FamiliesProven(b, d) && FamiliesShaped(b, cfg)
  {
  }

  lemma KeepRefreshes(refreshes: map<Id, Refresh>, a: map<Id, Family>, b: map<Id, Family>)
    requires FamiliesFlagged(a, b) && RefreshesOk(refreshes, a) && ChainsOpen(refreshes, a)
    ensures RefreshesOk(refreshes, b) && ChainsOpen(refreshes, b)
  {
  }

  lemma KeepSpent(s: State, r: State, used: set<Id>)
    requires FamiliesFlagged(s.families, r.families) && TokensFlagged(s.tokens, r.tokens)
             && CodesFlagged(s.codes, r.codes)
    ensures SpentKept(s, r, used)
  {
  }

  lemma KeepIds(s: State, r: State, known: set<Id>)
    requires FlagsOnly(s, r) && KnownIds(s, known)
    ensures KnownIds(r, known)
  {
  }

  lemma KeepNotices(before: map<DeliveryId, Delivery>, apps: map<Id, App>, after: map<DeliveryId, Delivery>, tx: Tx)
    requires OnlyNew(before, after, apps, tx.now, tx.timely)
    ensures OutboxEvolves(before, apps, after, tx)
  {
  }

  /** No notice and no request was forgotten either. */
  ghost predicate NothingMissed(s: State, r: State, tx: Tx) {
    && OnlyNew(s.deliveries, r.deliveries, s.apps, tx.now, tx.timely)
    && EndingsKept(s.apps, s.clients, s.deliveries, r.apps, r.clients, r.deliveries, tx.used)
    && ClosedKept(s.sessions, s.txns, r.sessions, r.txns, tx.bound)
  }

  lemma FlagsSound(s: State, r: State, tx: Tx)
    requires Inv(s, tx.cfg, tx.known) && FlagsOnly(s, r) && Linked(r) && NothingMissed(s, r, tx)
    ensures Sound(s, r, tx)
  {
    KeepIds(s, r, tx.known);
    hide KnownIds, RowsFlagged, AppsFlagged, FamiliesFlagged, TokensFlagged, CodesFlagged, TxnsFlagged;
    hide RowsUnique, AppsLinked, AppsUnique, CodesPinned, CodesLinked, ConsentsOk, TxnsOk, TokensGranted, TokensLinked,
         TokensProven, TokensInFamilies;
    hide FamiliesShaped, FamiliesGranted, FamiliesProven, RefreshesOk, ChainsOpen, ChainsNarrow, OutboxOk, TokensFewer,
         FamiliesFewer;
    hide TokensEvolve, ClientsEvolve, SessionsEvolve, AppsEvolve, CodesEvolve, FamiliesEvolve, RefreshesEvolve,
         TxnsEvolve, SpentKept, AdminKept, OutboxEvolves, ClosedKept, InteractionsKept, EndingsKept, OnlyNew;
    Still(s, tx);
    KeepNotices(s.deliveries, s.apps, r.deliveries, tx);
    KeepSessions(s.sessions, r.sessions, tx.used, tx.now);
    KeepApps(s.apps, r.apps, tx.used);
    KeepCodes(s.codes, r.codes, s.clients, tx.used);
    KeepTxns(s.txns, r.txns, s.clients, tx.used);
    KeepTokens(s.tokens, r.tokens, s.codes, r.codes, tx.used);
    KeepFamilies(s.families, r.families, s.codes, r.codes, tx.cfg, tx.used, tx.now);
    KeepRefreshes(s.refreshes, s.families, r.families);
    KeepSpent(s, r, tx.codes);
    TokensGrantedFrame(s, r, tx.cfg);
    FamiliesGrantedFrame(s, r);
  }

  // ---------- Ending app sessions ----------

  lemma LiveAppsEnd(apps: map<Id, App>, ids: set<Id>, reason: Reason, now: Time)
    ensures var live := LiveApps(apps, ids);
            AppsFlagged(apps, AppsEnded(apps, live, reason, now)) && live <= apps.Keys
            && forall a <- live :: apps[a].endedAt.None?
  {
  }

  lemma EndedTokens(
    tokens: map<Id, Token>, apps: map<Id, App>, families: map<Id, Family>, live: set<Id>, reason: Reason, now: Time)
    requires TokensLinked(tokens, apps) && TokensInFamilies(tokens, families)
    ensures var after := TokensEnded(tokens, live);
            TokensFlagged(tokens, after) && TokensLinked(after, AppsEnded(apps, live, reason, now))
            && TokensInFamilies(after, families)
  {
  }

  lemma EndedCodes(codes: map<Id, Code>, apps: map<Id, App>, sessions: map<Id, Session>, live: set<Id>)
    requires CodesLinked(codes, sessions)
    ensures var after := CodesEnded(codes, apps, live);
            CodesFlagged(codes, after) && CodesLinked(after, sessions)
  {
  }

  lemma EndedTxns(txns: map<Id, Txn>, apps: map<Id, App>, live: set<Id>)
    ensures TxnsFlagged(txns, TxnsEnded(txns, apps, live))
  {
  }

  lemma EndedAppsLinked(apps: map<Id, App>, sessions: map<Id, Session>, live: set<Id>, reason: Reason, now: Time)
    requires AppsLinked(apps, sessions)
    ensures AppsLinked(AppsEnded(apps, live, reason, now), sessions)
  {
  }

  lemma NoticesKeepOutbox(
    ds: map<DeliveryId, Delivery>, clients: map<Id, Client>, apps: map<Id, App>, live: set<Id>, reason: Reason,
    now: Time)
    requires OutboxOk(ds, apps) && live <= apps.Keys && forall a <- live :: apps[a].endedAt.None?
    ensures OutboxOk(ds + Notices(clients, apps, live, reason, now), AppsEnded(apps, live, reason, now))
  {
    hide EndpointFor, Noticed;
    var apps1 := AppsEnded(apps, live, reason, now);
    var ds1 := ds + Notices(clients, apps, live, reason, now);
    forall d | d in ds1 ensures NoticeOk(apps1, d, ds1[d].createdAt) {
      assert d in ds ==> NoticeOk(apps, d, ds[d].createdAt);
    }
    forall a | a in apps1 && apps1[a].endedAt.Some? ensures Noticed(ds1, a) {
      if a in live {
        NoticedFirst(ds, clients, apps, live, reason, now, a);
      } else {
        NoticedStill(ds, clients, apps, live, reason, now, a);
      }
    }
  }

  lemma NoticedFirst(
    ds: map<DeliveryId, Delivery>, clients: map<Id, Client>, apps: map<Id, App>, live: set<Id>, reason: Reason,
    now: Time, a: Id)
    requires OutboxOk(ds, apps) && a in live && a in apps && apps[a].endedAt.None?
    ensures Noticed(ds + Notices(clients, apps, live, reason, now), a)
  {
  }

  lemma NoticedStill(
    ds: map<DeliveryId, Delivery>, clients: map<Id, Client>, apps: map<Id, App>, live: set<Id>, reason: Reason,
    now: Time, a: Id)
    requires Noticed(ds, a) && a !in live
    ensures Noticed(ds + Notices(clients, apps, live, reason, now), a)
  {
  }

  lemma NoticesAreNew(
    ds: map<DeliveryId, Delivery>, clients: map<Id, Client>, apps: map<Id, App>, live: set<Id>, reason: Reason,
    at: Time,
    now: Time, timely: bool)
    requires OutboxOk(ds, apps) && live <= apps.Keys && (forall a <- live :: apps[a].endedAt.None?)
             && (timely ==> at <= now)
    ensures OnlyNew(ds, ds + Notices(clients, apps, live, reason, at), apps, now, timely)
  {
  }

  lemma RowNoticesAreNew(
    ds: map<DeliveryId, Delivery>, clients: map<Id, Client>, apps: map<Id, App>, ids: set<Id>, live: set<Id>,
    reason: Reason, at: Time, now: Time, timely: bool)
    requires OutboxOk(ds, apps) && live <= apps.Keys && (forall a <- live :: apps[a].endedAt.None?)
             && (timely ==> at <= now)
    ensures OnlyNew(ds, ds + OpNotices(ids, reason, at) + Notices(clients, apps, live, reason, at), apps, now, timely)
  {
    var mid := ds + OpNotices(ids, reason, at);
    OpNoticesKeepOutbox(ds, apps, ids, reason, at);
    NoticesAreNew(mid, clients, apps, live, reason, at, now, timely);
    OpNoticesNew(ds, apps, ids, reason, at, now, timely);
    hide OutboxOk, Notices, OpNotices, NewNotice;
  }

  lemma OpNoticesNew(
    ds: map<DeliveryId, Delivery>, apps: map<Id, App>, ids: set<Id>, reason: Reason, at: Time, now: Time, timely: bool)
    requires timely ==> at <= now
    ensures OnlyNew(ds, ds + OpNotices(ids, reason, at), apps, now, timely)
  {
  }

  /** Flagging requests while no session and no app session ends. */
  lemma FlagsMissNothing(s: State, r: State, tx: Tx)
    requires r.sessions == s.sessions && r.apps == s.apps && r.clients == s.clients && r.deliveries == s.deliveries
    requires TxnsFlagged(s.txns, r.txns)
    ensures NothingMissed(s, r, tx)
  {
  }

  /** An app session that ends had no notice, and gets those its client has channels for. */
  lemma EndingsQueued(
    ds: map<DeliveryId, Delivery>, mid: map<DeliveryId, Delivery>, clients: map<Id, Client>, apps: map<Id, App>,
    live: set<Id>, reason: Reason, now: Time, used: set<Id>)
    requires OutboxOk(ds, apps) && live <= apps.Keys && forall a <- live :: apps[a].endedAt.None?
    requires forall id: DeliveryId :: id.AppNotice? ==> (id in mid <==> id in ds)
    ensures EndingsKept(apps, clients, ds, AppsEnded(apps, live, reason, now), clients,
                        mid + Notices(clients, apps, live, reason, now), used)
  {
    hide Notified, EndpointFor, Noticed, Settled;
    forall id | id in ds ensures NoticeOk(apps, id, ds[id].createdAt) {}
  }

  /** Only flags were added to the requests. */
  lemma FlaggedClosed(sessions: map<Id, Session>, txns: map<Id, Txn>, txns1: map<Id, Txn>, bound: set<Id>)
    requires TxnsFlagged(txns, txns1)
    ensures ClosedKept(sessions, txns, sessions, txns1, bound)
  {
  }

  /** A session that ends takes the requests bound to it along. */
  lemma EndedRowsClosed(
    sessions: map<Id, Session>, txns: map<Id, Txn>, rows: set<Id>, reason: Reason, now: Time, bound: set<Id>)
    ensures var ended := LiveRows(sessions, rows);
            ClosedKept(sessions, txns, SessionsEnded(sessions, ended, reason, now),
                       TxnsOfSessions(txns, IdsOf(sessions, ended)), bound)
  {
    var ended := LiveRows(sessions, rows);
    var ids := IdsOf(sessions, ended);
    var after := SessionsEnded(sessions, ended, reason, now);
    forall op | op !in ids && SessionOver(after, op) ensures SessionOver(sessions, op) {
      forall h | h in sessions && sessions[h].id == op ensures sessions[h].endedAt.Some? {
        assert h in after && after[h].id == op && h !in ended;
      }
    }
  }

  lemma EndAppsFlags(s: State, tx: Tx, ids: set<Id>, reason: Reason, now: Time)
    requires (tx.timely ==> now <= tx.now) && SessionsInv(s) && CodesLinked(s.codes, s.sessions)
    requires TokensLinked(s.tokens, s.apps) && TokensInFamilies(s.tokens, s.families)
    ensures var r := EndApps(s, ids, reason, now);
            FlagsOnly(s, r) && Linked(r) && NothingMissed(s, r, tx)
  {
    hide OnlyNew, EndingsKept, ClosedKept, LiveApps, AppsEnded, TokensEnded, CodesEnded, TxnsEnded, Notices;
    hide AppsFlagged, TokensFlagged, CodesFlagged, TxnsFlagged, AppsLinked, CodesLinked, TokensLinked, TokensInFamilies,
         OutboxOk;
    var live := LiveApps(s.apps, ids);
    LiveAppsEnd(s.apps, ids, reason, now);
    EndedTokens(s.tokens, s.apps, s.families, live, reason, now);
    EndedCodes(s.codes, s.apps, s.sessions, live);
    EndedTxns(s.txns, s.apps, live);
    EndedAppsLinked(s.apps, s.sessions, live, reason, now);
    NoticesKeepOutbox(s.deliveries, s.clients, s.apps, live, reason, now);
    NoticesAreNew(s.deliveries, s.clients, s.apps, live, reason, now, tx.now, tx.timely);
    EndingsQueued(s.deliveries, s.deliveries, s.clients, s.apps, live, reason, now, tx.used);
    FlaggedClosed(s.sessions, s.txns, TxnsEnded(s.txns, s.apps, live), tx.bound);
  }

  lemma EndAppsSound(s: State, tx: Tx, ids: set<Id>, reason: Reason, now: Time)
    requires tx.timely ==> now <= tx.now
    requires Inv(s, tx.cfg, tx.known)
    ensures Sound(s, EndApps(s, ids, reason, now), tx)
  {
    EndAppsFlags(s, tx, ids, reason, now);
    hide NothingMissed, Inv, FlagsOnly, Linked, EndApps;
    FlagsSound(s, EndApps(s, ids, reason, now), tx);
  }

  // ---------- Ending provider sessions ----------

  lemma EndedRowsFlagged(sessions: map<Id, Session>, rows: set<Id>, reason: Reason, now: Time)
    ensures RowsFlagged(sessions, SessionsEnded(sessions, rows, reason, now))
  {
  }

  /** The session a live row belongs to survives unless that row itself is ended. */
  lemma LiveRowSurvives(sessions: map<Id, Session>, rows: set<Id>, reason: Reason, now: Time, id: Id, user: Id)
    requires HasLiveRow(sessions, id, user) && id !in IdsOf(sessions, LiveRows(sessions, rows))
    ensures HasLiveRow(SessionsEnded(sessions, LiveRows(sessions, rows), reason, now), id, user)
  {
    var live := LiveRows(sessions, rows);
    var h :| h in sessions && IsLiveRow(sessions[h], id, user);
    var r := SessionsEnded(sessions, live, reason, now);
    assert h !in live;
    assert h in r && IsLiveRow(r[h], id, user);
  }

  lemma EndedSessionsApps(apps: map<Id, App>, sessions: map<Id, Session>, rows: set<Id>, reason: Reason, now: Time)
    requires AppsLinked(apps, sessions)
    ensures var ended := LiveRows(sessions, rows);
            var live := LiveApps(apps, AppsOfSessions(apps, IdsOf(sessions, ended)));
            AppsLinked(AppsEnded(apps, live, reason, now), SessionsEnded(sessions, ended, reason, now))
  {
    hide HasLiveRow, IdsOf, LiveRows, SessionsEnded;
    var ended := LiveRows(sessions, rows);
    var ids := IdsOf(sessions, ended);
    var live := LiveApps(apps, AppsOfSessions(apps, ids));
    var after := AppsEnded(apps, live, reason, now);
    forall a | a in after && after[a].endedAt.None?
      ensures HasLiveRow(SessionsEnded(sessions, ended, reason, now), after[a].opSessionId, after[a].userId)
    {
      assert apps[a].opSessionId !in ids;
      LiveRowSurvives(sessions, rows, reason, now, apps[a].opSessionId, apps[a].userId);
    }
  }

  lemma EndedSessionsCodes(codes: map<Id, Code>, sessions: map<Id, Session>, rows: set<Id>, reason: Reason, now: Time)
    requires CodesLinked(codes, sessions)
    ensures var ended := LiveRows(sessions, rows);
            var after := CodesOfSessions(codes, IdsOf(sessions, ended));
            CodesFlagged(codes, after) && CodesLinked(after, SessionsEnded(sessions, ended, reason, now))
  {
    hide HasLiveRow, IdsOf, LiveRows, SessionsEnded;
    var ended := LiveRows(sessions, rows);
    var after := CodesOfSessions(codes, IdsOf(sessions, ended));
    forall h | h in after ensures CodeLinked(after[h], SessionsEnded(sessions, ended, reason, now)) {
      assert CodeLinked(codes[h], sessions);
      if !after[h].revoked && after[h].opSessionId != NONE {
        LiveRowSurvives(sessions, rows, reason, now, codes[h].opSessionId, codes[h].userId);
      }
    }
  }

  lemma EndedSessionsTxns(txns: map<Id, Txn>, ids: set<Id>)
    ensures TxnsFlagged(txns, TxnsOfSessions(txns, ids))
  {
  }

  lemma OpNoticesKeepOutbox(ds: map<DeliveryId, Delivery>, apps: map<Id, App>, ids: set<Id>, reason: Reason, now: Time)
    requires OutboxOk(ds, apps)
    ensures OutboxOk(ds + OpNotices(ids, reason, now), apps)
  {
  }

  lemma OpNoticesBeside(ds: map<DeliveryId, Delivery>, ids: set<Id>, reason: Reason, now: Time)
    ensures forall id: DeliveryId :: id.AppNotice? ==> (id in ds + OpNotices(ids, reason, now) <==> id in ds)
  {
  }

  lemma EndRowsFlags(s: State, tx: Tx, rows: set<Id>, reason: Reason, now: Time)
    requires (tx.timely ==> now <= tx.now) && SessionsInv(s)
    requires CodesLinked(s.codes, s.sessions) && TokensLinked(s.tokens, s.apps)
             && TokensInFamilies(s.tokens, s.families)
    ensures var r := EndRows(s, rows, reason, now);
            FlagsOnly(s, r) && Linked(r) && NothingMissed(s, r, tx)
  {
    hide OnlyNew, EndingsKept, ClosedKept, LiveRows, IdsOf, LiveApps, AppsOfSessions, SessionsEnded, AppsEnded,
         TokensEnded, CodesOfSessions, TxnsOfSessions, Notices, OpNotices;
    hide RowsFlagged, AppsFlagged, TokensFlagged, CodesFlagged, TxnsFlagged, AppsLinked, CodesLinked, TokensLinked,
         TokensInFamilies, OutboxOk;
    var ended := LiveRows(s.sessions, rows);
    var ids := IdsOf(s.sessions, ended);
    var live := LiveApps(s.apps, AppsOfSessions(s.apps, ids));
    EndedRowsFlagged(s.sessions, ended, reason, now);
    LiveAppsEnd(s.apps, AppsOfSessions(s.apps, ids), reason, now);
    EndedTokens(s.tokens, s.apps, s.families, live, reason, now);
    EndedSessionsCodes(s.codes, s.sessions, rows, reason, now);
    EndedSessionsTxns(s.txns, ids);
    EndedSessionsApps(s.apps, s.sessions, rows, reason, now);
    OpNoticesKeepOutbox(s.deliveries, s.apps, ids, reason, now);
    NoticesKeepOutbox(s.deliveries + OpNotices(ids, reason, now), s.clients, s.apps, live, reason, now);
    RowNoticesAreNew(s.deliveries, s.clients, s.apps, ids, live, reason, now, tx.now, tx.timely);
    OpNoticesBeside(s.deliveries, ids, reason, now);
    EndingsQueued(s.deliveries, s.deliveries + OpNotices(ids, reason, now), s.clients, s.apps, live, reason, now,
                  tx.used);
    EndedRowsClosed(s.sessions, s.txns, rows, reason, now, tx.bound);
  }

  lemma EndRowsSound(s: State, tx: Tx, rows: set<Id>, reason: Reason, now: Time)
    requires tx.timely ==> now <= tx.now
    requires Inv(s, tx.cfg, tx.known)
    ensures Sound(s, EndRows(s, rows, reason, now), tx)
  {
    EndRowsFlags(s, tx, rows, reason, now);
    hide NothingMissed, Inv, FlagsOnly, Linked, EndRows;
    FlagsSound(s, EndRows(s, rows, reason, now), tx);
  }

  // ---------- Revocation ----------

  lemma RevokedTokens(
    tokens: map<Id, Token>, apps: map<Id, App>, families: map<Id, Family>, ids: set<Id>, hashes: set<Id>)
    requires TokensLinked(tokens, apps) && TokensInFamilies(tokens, families)
    ensures var after := TokensRevoked(tokens, ids * families.Keys, hashes);
            TokensFlagged(tokens, after) && TokensLinked(after, apps)
            && TokensInFamilies(after, FamiliesRevoked(families, ids))
  {
  }

  lemma RevokedFamilies(families: map<Id, Family>, ids: set<Id>)
    ensures FamiliesFlagged(families, FamiliesRevoked(families, ids))
  {
  }

  lemma RevokeSound(s: State, tx: Tx, families: set<Id>, hashes: set<Id>)
    requires Inv(s, tx.cfg, tx.known)
    ensures Sound(s, RevokeGrants(s, families, hashes), tx)
  {
    var r := RevokeGrants(s, families, hashes);
    assert FlagsOnly(s, r) && Linked(r) by {
      hide KnownIds, TokensRevoked, FamiliesRevoked, FamiliesInv, TokensFlagged, FamiliesFlagged;
      hide AppsLinked, CodesLinked, TokensLinked, TokensInFamilies, OutboxOk;
      RevokedTokens(s.tokens, s.apps, s.families, families, hashes);
      RevokedFamilies(s.families, families);
    }
    assert NothingMissed(s, r, tx) by { FlagsMissNothing(s, r, tx); }
    hide NothingMissed, Inv, FlagsOnly, Linked;
    FlagsSound(s, r, tx);
  }

  lemma MarkedCodes(codes: map<Id, Code>, sessions: map<Id, Session>, selected: set<Id>)
    requires CodesLinked(codes, sessions)
    ensures CodesFlagged(codes, CodesMarked(codes, selected)) && CodesLinked(CodesMarked(codes, selected), sessions)
  {
  }

  lemma MarkedTxns(txns: map<Id, Txn>, selected: set<Id>)
    ensures TxnsFlagged(txns, TxnsMarked(txns, selected))
  {
  }

  /** Flagging selected codes and requests, as revocation by hand does. */
  lemma MarkSound(s: State, tx: Tx, codes: set<Id>, txns: set<Id>)
    requires Inv(s, tx.cfg, tx.known)
    ensures Sound(s, s.(codes := CodesMarked(s.codes, codes), txns := TxnsMarked(s.txns, txns)), tx)
  {
    var r := s.(codes := CodesMarked(s.codes, codes), txns := TxnsMarked(s.txns, txns));
    assert FlagsOnly(s, r) && Linked(r) by {
      hide KnownIds, CodesMarked, TxnsMarked, FamiliesInv, CodesFlagged, TxnsFlagged;
      hide AppsLinked, CodesLinked, TokensLinked, TokensInFamilies, OutboxOk;
      MarkedCodes(s.codes, s.sessions, codes);
      MarkedTxns(s.txns, txns);
    }
    assert NothingMissed(s, r, tx) by { FlagsMissNothing(s, r, tx); }
    hide NothingMissed, Inv, FlagsOnly, Linked;
    FlagsSound(s, r, tx);
  }
}
