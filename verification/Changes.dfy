/** The changes that are not cascades of flags: saving one record, deleting records, and pruning. Each
    lemma names the condition under which the change is sound. */
module Changes {
  import opened Records
  import opened Validity
  import opened Cascades
  import opened Outbox
  import opened Invariants
  import opened Evolution

  // ---------- Deleting grants ----------

  /** No unrevoked credential rests on these codes and consents. */
  ghost predicate Unneeded(s: State, codes: set<Id>, consents: set<ConsentKey>) {
    && (forall h <- s.tokens :: !s.tokens[h].revoked && s.tokens[h].codeHash != NONE ==> s.tokens[h].codeHash !in codes)
    && (forall f <- s.families :: !s.families[f].revoked ==>
          s.families[f].codeHash !in codes && ConsentKey(s.families[f].userId, s.families[f].clientId) !in consents)
  }

  lemma DropTokensProven(s: State, codes: set<Id>, consents: set<ConsentKey>)
    requires Unneeded(s, codes, consents) && TokensProven(s.tokens, s.codes)
    ensures TokensProven(s.tokens, s.codes - codes)
  {
  }

  lemma DropFamiliesProven(s: State, codes: set<Id>, consents: set<ConsentKey>)
    requires Unneeded(s, codes, consents) && FamiliesProven(s.families, s.codes)
    ensures FamiliesProven(s.families, s.codes - codes)
  {
  }

  lemma DropFamiliesGranted(s: State, r: State, codes: set<Id>, consents: set<ConsentKey>)
    requires Unneeded(s, codes, consents) && FamiliesGranted(s)
    requires SameGrants(s, r) && r.families == s.families && r.consents == s.consents - consents
    ensures FamiliesGranted(r)
  {
  }

  lemma DropSpent(s: State, r: State, used: set<Id>)
    requires r.tokens.Keys <= s.tokens.Keys && forall h <- r.tokens :: r.tokens[h] == s.tokens[h]
    requires r.families.Keys <= s.families.Keys && forall f <- r.families :: r.families[f] == s.families[f]
    requires r.codes.Keys <= s.codes.Keys && forall c <- r.codes :: r.codes[c] == s.codes[c]
    ensures SpentKept(s, r, used)
  {
  }

  lemma DropSound(s: State, r: State, tx: Tx, codes: set<Id>, txns: set<Id>, consents: set<ConsentKey>)
    requires Inv(s, tx.cfg, tx.known) && Unneeded(s, codes, consents)
    requires r == s.(codes := s.codes - codes, txns := s.txns - txns, consents := s.consents - consents)
    ensures Sound(s, r, tx)
  {
    hide Unneeded, RowsUnique, AppsLinked, AppsUnique, TokensGranted, TokensLinked, TokensProven, TokensInFamilies;
    hide FamiliesShaped, FamiliesGranted, FamiliesProven, RefreshesOk, ChainsOpen, ChainsNarrow, OutboxOk, CodePinned,
         CodeLinked, TxnOk;
    hide TokensEvolve, ClientsEvolve, SessionsEvolve, AppsEvolve, FamiliesEvolve, RefreshesEvolve, TxnsEvolve,
         SpentKept, AdminKept, OutboxEvolves, ClosedKept, InteractionsKept, EndingsKept;
    Still(s, tx);
    DropTokensProven(s, codes, consents);
    DropFamiliesProven(s, codes, consents);
    DropFamiliesGranted(s, r, codes, consents);
    DropSpent(s, r, tx.codes);
    FewerClosed(s.sessions, s.txns, txns, tx.bound);
    assert TxnsEvolve(s.txns, r.txns, tx.used) by { TxnsFewer(s.txns, txns, tx.used); }
    assert TokensFewer(s.tokens, r.tokens);
    TokensGrantedFrame(s, r, tx.cfg);
  }

  lemma FewerClosed(sessions: map<Id, Session>, txns: map<Id, Txn>, gone: set<Id>, bound: set<Id>)
    ensures ClosedKept(sessions, txns, sessions, txns - gone, bound)
  {
  }

  lemma TxnsFewer(txns: map<Id, Txn>, gone: set<Id>, used: set<Id>)
    ensures TxnsEvolve(txns, txns - gone, used)
  {
  }

  // ---------- Pruning ----------

  lemma PruneTokens(
    tokens: map<Id, Token>, families: map<Id, Family>, apps: map<Id, App>, codes: map<Id, Code>, now: Time)
    requires TokensLinked(tokens, apps) && TokensInFamilies(tokens, families) && TokensProven(tokens, codes)
    ensures var after := tokens - ExpiredTokens(tokens, now);
            TokensLinked(after, apps) && TokensInFamilies(after, families - ExpiredFamilies(families, now))
            && TokensProven(after, codes - ExpiredCodes(codes, now))
  {
  }

  lemma PruneFamilies(families: map<Id, Family>, codes: map<Id, Code>, now: Time)
    requires FamiliesProven(families, codes)
    ensures FamiliesProven(families - ExpiredFamilies(families, now), codes - ExpiredCodes(codes, now))
  {
  }

  lemma PruneChains(refreshes: map<Id, Refresh>, families: map<Id, Family>, gone: set<Id>)
    requires RefreshesOk(refreshes, families) && ChainsOpen(refreshes, families) && ChainsNarrow(refreshes)
    ensures var after := refreshes - RefreshesOf(refreshes, gone);
            RefreshesOk(after, families - gone) && ChainsOpen(after, families - gone) && ChainsNarrow(after)
  {
    var after := refreshes - RefreshesOf(refreshes, gone);
    forall h | h in after ensures RefreshOk(after[h], families - gone) {
      assert RefreshOk(refreshes[h], families);
    }
    forall f | f in families - gone ensures exists h :: Usable(after, h, f) {
      var h :| Usable(refreshes, h, f);
      assert Usable(after, h, f);
    }
    forall h, f | Usable(after, h, f) ensures Usable(refreshes, h, f) {}
  }

  lemma PrunePinned(s: State, at: Time)
    requires CodesInv(s)
    ensures CodesInv(PruneGrants(s, at))
  {
  }

  lemma PruneEvolves(s: State, used: set<Id>, now: Time, at: Time)
    ensures var r := PruneGrants(s, at);
            && TokensEvolve(s.tokens, r.tokens, used) && CodesEvolve(s.codes, r.codes, used)
            && FamiliesEvolve(s.families, r.families, used, now) && RefreshesEvolve(s.refreshes, r.refreshes, used)
            && SpentKept(s, r, used) && TokensFewer(s.tokens, r.tokens) && FamiliesFewer(s.families, r.families)
  {
  }

  lemma PruneShaped(families: map<Id, Family>, cfg: Config, gone: set<Id>)
    requires FamiliesShaped(families, cfg)
    ensures FamiliesShaped(families - gone, cfg)
  {
  }

  lemma PruneSound(s: State, tx: Tx, at: Time)
    requires Inv(s, tx.cfg, tx.known)
    ensures Sound(s, PruneGrants(s, at), tx)
  {
    var r := PruneGrants(s, at);
    PrunePinned(s, at);
    PruneEvolves(s, tx.used, tx.now, at);
    hide CodesInv, SessionsInv, TokensGranted, TokensLinked, TokensProven, TokensInFamilies, TokensFewer, FamiliesFewer;
    hide FamiliesShaped, FamiliesGranted, FamiliesProven, RefreshesOk, ChainsOpen, ChainsNarrow;
    hide TokensEvolve, ClientsEvolve, SessionsEvolve, AppsEvolve, CodesEvolve, FamiliesEvolve, RefreshesEvolve,
         TxnsEvolve, SpentKept, AdminKept, OutboxEvolves, ClosedKept, InteractionsKept, EndingsKept;
    hide ExpiredFamilies, ExpiredCodes, ExpiredTokens, ExpiredTxns, RefreshesOf;
    Still(s, tx);
    PruneTokens(s.tokens, s.families, s.apps, s.codes, at);
    PruneFamilies(s.families, s.codes, at);
    PruneChains(s.refreshes, s.families, ExpiredFamilies(s.families, at));
    PruneShaped(s.families, tx.cfg, ExpiredFamilies(s.families, at));
    TxnsFewer(s.txns, ExpiredTxns(s.txns, at), tx.used);
    FewerClosed(s.sessions, s.txns, ExpiredTxns(s.txns, at), tx.bound);
    TokensGrantedFrame(s, r, tx.cfg);
    FamiliesGrantedFrame(s, r);
    assert SessionsInv(r) by { SessionsFrame(s, r); }
  }

  lemma SessionsFrame(s: State, r: State)
    requires SessionsInv(s) && r.sessions == s.sessions && r.apps == s.apps && r.deliveries == s.deliveries
    ensures SessionsInv(r)
  {
  }

  /** Retention removes an ended app session together with its notices. */
  lemma StaleOutbox(deliveries: map<DeliveryId, Delivery>, apps: map<Id, App>, now: Time)
    requires OutboxOk(deliveries, apps)
    ensures OutboxOk(deliveries - StaleDeliveries(deliveries, now), apps - StaleApps(apps, now))
  {
  }

  /** An app session that stays keeps its notices: they were created when it ended. */
  lemma StaleEndings(s: State, at: Time, used: set<Id>)
    requires OutboxOk(s.deliveries, s.apps)
    ensures EndingsKept(s.apps, s.clients, s.deliveries, s.apps - StaleApps(s.apps, at), s.clients,
                        s.deliveries - StaleDeliveries(s.deliveries, at), used)
  {
    hide Noticed, Settled;
    forall id | id in s.deliveries ensures NoticeOk(s.apps, id, s.deliveries[id].createdAt) {}
  }

  lemma StaleClosed(sessions: map<Id, Session>, txns: map<Id, Txn>, at: Time, bound: set<Id>)
    ensures ClosedKept(sessions, txns, sessions - StaleSessions(sessions, at), txns, bound)
  {
    var after := sessions - StaleSessions(sessions, at);
    forall op | SessionOver(after, op) ensures SessionOver(sessions, op) {
      forall h | h in sessions && sessions[h].id == op ensures sessions[h].endedAt.Some? {
        assert h !in after ==> Stale(sessions[h].endedAt, at);
      }
    }
  }

  lemma InteractionsFewer(interactions: map<Id, Interaction>, gone: set<Id>, used: set<Id>, written: set<Id>)
    ensures InteractionsKept(interactions, interactions - gone, used, written)
  {
  }

  lemma StaleRows(sessions: map<Id, Session>, now: Time)
    ensures forall id, user ::
              HasLiveRow(sessions, id, user) ==> HasLiveRow(sessions - StaleSessions(sessions, now), id, user)
  {
    var after := sessions - StaleSessions(sessions, now);
    forall id, user | HasLiveRow(sessions, id, user) ensures HasLiveRow(after, id, user) {
      var h :| h in sessions && IsLiveRow(sessions[h], id, user);
      assert h in after && IsLiveRow(after[h], id, user);
    }
  }

  lemma StaleEvolve(
    sessions: map<Id, Session>, apps: map<Id, App>, tokens: map<Id, Token>, used: set<Id>, now: Time, at: Time)
    requires TokensLinked(tokens, apps)
    ensures var gone := apps - StaleApps(apps, at);
            TokensLinked(tokens, gone) && AppsEvolve(apps, gone, used) && (AppsUnique(apps) ==> AppsUnique(gone))
    ensures SessionsEvolve(sessions, sessions - StaleSessions(sessions, at), used, now)
    ensures RowsUnique(sessions) ==> RowsUnique(sessions - StaleSessions(sessions, at))
  {
  }

  lemma DropStaleSound(s: State, tx: Tx, at: Time)
    requires Inv(s, tx.cfg, tx.known)
    ensures Sound(s, DropStale(s, at), tx)
  {
    var r := DropStale(s, at);
    hide TokensGranted, TokensLinked, TokensProven, TokensInFamilies, CodesPinned, ConsentsOk, TxnsOk, RowsUnique,
         AppsUnique;
    hide FamiliesShaped, FamiliesGranted, FamiliesProven, RefreshesOk, ChainsOpen, ChainsNarrow, OutboxOk, HasLiveRow;
    hide TokensEvolve, ClientsEvolve, SessionsEvolve, AppsEvolve, CodesEvolve, FamiliesEvolve, RefreshesEvolve,
         TxnsEvolve, SpentKept, AdminKept, OutboxEvolves, ClosedKept, InteractionsKept, EndingsKept;
    hide StaleOperations, ExpiredInteractions, StaleDeliveries, StaleSessions, StaleApps;
    Still(s, tx);
    FewerNotices(s.deliveries, s.apps, r.deliveries, tx);
    StaleOutbox(s.deliveries, s.apps, at);
    StaleEndings(s, at, tx.used);
    StaleClosed(s.sessions, s.txns, at, tx.bound);
    InteractionsFewer(s.interactions, ExpiredInteractions(s.interactions, at), tx.used, tx.written);
    StaleRows(s.sessions, at);
    StaleEvolve(s.sessions, s.apps, s.tokens, tx.used, tx.now, at);
    DropSpent(s, r, tx.codes);
    assert TokensFewer(s.tokens, r.tokens) && FamiliesFewer(s.families, r.families);
    TokensGrantedFrame(s, r, tx.cfg);
    FamiliesGrantedFrame(s, r);
  }

  // ---------- Saving session rows ----------

  ghost predicate RowsKept(before: map<Id, Session>, after: map<Id, Session>) {
    forall id, user :: HasLiveRow(before, id, user) ==> HasLiveRow(after, id, user)
  }

  lemma KeptRowsClosed(before: map<Id, Session>, after: map<Id, Session>, txns: map<Id, Txn>, bound: set<Id>)
    requires RowsKept(before, after)
    ensures ClosedKept(before, txns, after, txns, bound)
  {
    hide RowsKept;
    forall op | SessionOver(after, op) ensures SessionOver(before, op) {
      forall h | h in before && before[h].id == op ensures before[h].endedAt.Some? {
        if before[h].endedAt.None? {
          assert IsLiveRow(before[h], op, before[h].userId);
          KeptRow(before, after, op, before[h].userId);
        }
      }
    }
  }

  lemma KeptRow(before: map<Id, Session>, after: map<Id, Session>, id: Id, user: Id)
    requires RowsKept(before, after) && HasLiveRow(before, id, user)
    ensures !SessionOver(after, id)
  {
  }

  lemma SessionsSound(s: State, r: State, tx: Tx)
    requires Inv(s, tx.cfg, tx.known) && KnownIds(r, tx.known) && r == s.(sessions := r.sessions)
    requires RowsUnique(r.sessions) && RowsKept(s.sessions, r.sessions)
             && SessionsEvolve(s.sessions, r.sessions, tx.used, tx.now)
    ensures Sound(s, r, tx)
  {
    hide KnownIds, TokensGranted, TokensLinked, TokensProven, TokensInFamilies, CodesPinned, ConsentsOk, TxnsOk,
         RowsUnique, AppsUnique;
    hide FamiliesShaped, FamiliesGranted, FamiliesProven, RefreshesOk, ChainsOpen, ChainsNarrow, OutboxOk, HasLiveRow;
    hide TokensEvolve, ClientsEvolve, SessionsEvolve, AppsEvolve, CodesEvolve, FamiliesEvolve, RefreshesEvolve,
         TxnsEvolve, SpentKept, AdminKept, OutboxEvolves, ClosedKept, InteractionsKept, EndingsKept;
    Still(s, tx);
    KeptRowsClosed(s.sessions, r.sessions, s.txns, tx.bound);
    DropSpent(s, r, tx.codes);
    assert TokensFewer(s.tokens, r.tokens) && FamiliesFewer(s.families, r.families);
    TokensGrantedFrame(s, r, tx.cfg);
    FamiliesGrantedFrame(s, r);
  }

  // ---------- Saving an app session ----------

  lemma AppEndings(s: State, id: Id, a: App, used: set<Id>)
    requires a.endedAt.None?
    requires if id in s.apps then s.apps[id].endedAt.None? else id !in used
    ensures EndingsKept(s.apps, s.clients, s.deliveries, s.apps[id := a], s.clients, s.deliveries, used)
  {
  }

  lemma AppTokens(tokens: map<Id, Token>, apps: map<Id, App>, id: Id, a: App)
    requires TokensLinked(tokens, apps) && a.endedAt.None? && (id in apps ==> AppContinues(apps[id], a))
    ensures TokensLinked(tokens, apps[id := a])
  {
  }

  lemma AppOutbox(deliveries: map<DeliveryId, Delivery>, apps: map<Id, App>, id: Id, a: App)
    requires OutboxOk(deliveries, apps) && a.endedAt.None? && (id in apps ==> apps[id].endedAt.None?)
    ensures OutboxOk(deliveries, apps[id := a])
  {
  }

  lemma AppSound(s: State, r: State, tx: Tx, id: Id, a: App)
    requires Inv(s, tx.cfg, tx.known) && r == s.(apps := s.apps[id := a]) && id in tx.known && id != NONE
    requires a.endedAt.None? && HasLiveRow(s.sessions, a.opSessionId, a.userId) && a.clientId in tx.known && tx.joins
    requires if id in s.apps then s.apps[id].endedAt.None? && AppContinues(s.apps[id], a)
             else id !in tx.used && forall b <- s.apps :: !SameLiveLink(a, s.apps[b])
    ensures Sound(s, r, tx)
  {
    hide TokensGranted, TokensLinked, TokensProven, TokensInFamilies, CodesPinned, CodesLinked, ConsentsOk, TxnsOk,
         RowsUnique;
    hide FamiliesShaped, FamiliesGranted, FamiliesProven, RefreshesOk, ChainsOpen, ChainsNarrow, OutboxOk, HasLiveRow;
    hide TokensEvolve, ClientsEvolve, SessionsEvolve, CodesEvolve, FamiliesEvolve, RefreshesEvolve, TxnsEvolve,
         SpentKept, AdminKept, OutboxEvolves, ClosedKept, InteractionsKept, EndingsKept;
    Still(s, tx);
    AppTokens(s.tokens, s.apps, id, a);
    AppOutbox(s.deliveries, s.apps, id, a);
    AppEndings(s, id, a, tx.used);
    AppsStayUnique(s.apps, id, a);
    DropSpent(s, r, tx.codes);
    assert TokensFewer(s.tokens, r.tokens) && FamiliesFewer(s.families, r.families);
    TokensGrantedFrame(s, r, tx.cfg);
    FamiliesGrantedFrame(s, r);
  }

  lemma AppsStayUnique(apps: map<Id, App>, id: Id, a: App)
    requires AppsUnique(apps) && a.endedAt.None?
    requires if id in apps then apps[id].endedAt.None? && AppContinues(apps[id], a)
             else forall b <- apps :: !SameLiveLink(a, apps[b])
    ensures AppsUnique(apps[id := a])
  {
  }

  // ---------- Users, entitlements, policies and clients ----------

  ghost predicate ClientSame(s: State, r: State, c: Id) {
    c in s.clients && c in r.clients && r.clients[c] == s.clients[c] && PolicyOf(r, c) == PolicyOf(s, c)
  }

  ghost predicate UserSame(s: State, r: State, u: Id) {
    AccessOf(r, u) == AccessOf(s, u) && UserHolds(r, u) == UserHolds(s, u)
  }

  /** Every client and user an unrevoked credential rests on is unchanged. */
  ghost predicate RestsKept(s: State, r: State) {
    && (forall h <- s.tokens ::
          !s.tokens[h].revoked ==> ClientSame(s, r, s.tokens[h].clientId) && UserSame(s, r, s.tokens[h].userId))
    && (forall f <- s.families ::
          !s.families[f].revoked ==> ClientSame(s, r, s.families[f].clientId) && UserSame(s, r, s.families[f].userId))
    && (forall h <- s.codes :: ClientSame(s, r, s.codes[h].clientId))
    && (forall k <- s.consents :: ClientSame(s, r, k.clientId))
  }

  lemma RestsTokens(s: State, r: State, cfg: Config)
    requires RestsKept(s, r) && TokensGranted(s, cfg) && r.tokens == s.tokens
    ensures TokensGranted(r, cfg)
  {
  }

  lemma RestsFamilies(s: State, r: State)
    requires RestsKept(s, r) && FamiliesGranted(s) && r.families == s.families && r.consents == s.consents
    ensures FamiliesGranted(r)
  {
  }

  lemma RestsCodes(s: State, r: State)
    requires RestsKept(s, r) && CodesPinned(s.codes, s.clients) && ConsentsOk(s.consents, s.clients)
    ensures CodesPinned(s.codes, r.clients) && ConsentsOk(s.consents, r.clients)
  {
  }

  lemma RestsEndings(s: State, clients: map<Id, Client>, used: set<Id>)
    requires LiveClients(s.apps, s.clients, s.apps, clients, used)
    ensures EndingsKept(s.apps, s.clients, s.deliveries, s.apps, clients, s.deliveries, used)
  {
  }

  lemma RestsSound(s: State, r: State, tx: Tx)
    requires Inv(s, tx.cfg, tx.known) && KnownIds(r, tx.known) && RestsKept(s, r)
    requires r == s.(users := r.users, access := r.access, policies := r.policies, clients := r.clients)
    requires TxnsOk(s.txns, r.clients) && ClientsEvolve(s.clients, r.clients, tx.used) && AdminKept(s.users, r.users)
    requires LiveClients(s.apps, s.clients, s.apps, r.clients, tx.used)
    ensures Sound(s, r, tx)
  {
    hide RestsKept, KnownIds, TokensGranted, TokensLinked, TokensProven, TokensInFamilies, CodesPinned, CodesLinked,
         ConsentsOk, TxnsOk, RowsUnique;
    hide FamiliesShaped, FamiliesGranted, FamiliesProven, RefreshesOk, ChainsOpen, ChainsNarrow, OutboxOk, AppsLinked,
         AppsUnique;
    hide TokensEvolve, ClientsEvolve, SessionsEvolve, AppsEvolve, CodesEvolve, FamiliesEvolve, RefreshesEvolve,
         TxnsEvolve, SpentKept, AdminKept, OutboxEvolves, ClosedKept, InteractionsKept, EndingsKept;
    Still(s, tx);
    RestsTokens(s, r, tx.cfg);
    RestsFamilies(s, r);
    RestsCodes(s, r);
    RestsEndings(s, r.clients, tx.used);
    DropSpent(s, r, tx.codes);
  }

  // ---------- Saving consents, requests, codes ----------

  lemma ConsentFamilies(s: State, r: State, k: ConsentKey, c: Consent)
    requires r == s.(consents := s.consents[k := c]) && FamiliesGranted(s)
    requires c.revoked ==>
               forall f <- s.families ::
                 s.families[f].userId == k.userId && s.families[f].clientId == k.clientId ==> s.families[f].revoked
    requires k.clientId in s.clients && s.clients[k.clientId].updatedAt == c.policyRevision
    ensures FamiliesGranted(r)
  {
  }

  lemma ConsentSound(s: State, r: State, tx: Tx, k: ConsentKey, c: Consent)
    requires Inv(s, tx.cfg, tx.known) && r == s.(consents := s.consents[k := c])
    requires k.clientId in s.clients && s.clients[k.clientId].updatedAt == c.policyRevision
    requires c.revoked ==>
               forall f <- s.families ::
                 s.families[f].userId == k.userId && s.families[f].clientId == k.clientId ==> s.families[f].revoked
    ensures Sound(s, r, tx)
  {
    ConsentFamilies(s, r, k, c);
    hide TokensGranted, TokensLinked, TokensProven, TokensInFamilies, CodesPinned, CodesLinked, TxnsOk, RowsUnique;
    hide FamiliesShaped, FamiliesGranted, FamiliesProven, RefreshesOk, ChainsOpen, ChainsNarrow, OutboxOk, AppsLinked,
         AppsUnique;
    hide TokensEvolve, ClientsEvolve, SessionsEvolve, AppsEvolve, CodesEvolve, FamiliesEvolve, RefreshesEvolve,
         TxnsEvolve, SpentKept, AdminKept, OutboxEvolves, ClosedKept, InteractionsKept, EndingsKept;
    Still(s, tx);
    DropSpent(s, r, tx.codes);
    assert TokensFewer(s.tokens, r.tokens);
    TokensGrantedFrame(s, r, tx.cfg);
  }

  lemma TxnPut(s: State, r: State, known: set<Id>, used: set<Id>, id: Id, t: Txn)
    requires r == s.(txns := s.txns[id := t]) && KnownIds(s, known) && CodesInv(s)
    requires id in known && t.clientId in known && TxnOk(t, s.clients)
    requires if id in s.txns then TxnContinues(s.txns[id], t) else id !in used
    ensures KnownIds(r, known) && CodesInv(r) && TxnsEvolve(s.txns, r.txns, used) && TokensFewer(s.tokens, r.tokens)
            && FamiliesFewer(s.families, r.families)
  {
    hide CodesPinned, CodesLinked, ConsentsOk, TxnOk;
  }

  /** A request is bound to a live session, or to one the transaction read before. */
  ghost predicate MayBind(sessions: map<Id, Session>, t: Txn, bound: set<Id>) {
    t.opSessionId == NONE || t.revoked || t.opSessionId in bound || !SessionOver(sessions, t.opSessionId)
  }

  lemma TxnClosed(sessions: map<Id, Session>, txns: map<Id, Txn>, id: Id, t: Txn, bound: set<Id>)
    requires MayBind(sessions, t, bound)
    ensures ClosedKept(sessions, txns, sessions, txns[id := t], bound)
  {
  }

  lemma TxnSound(s: State, r: State, tx: Tx, id: Id, t: Txn)
    requires Inv(s, tx.cfg, tx.known) && r == s.(txns := s.txns[id := t])
    requires id in tx.known && t.clientId in tx.known && TxnOk(t, s.clients)
    requires if id in s.txns then TxnContinues(s.txns[id], t) else id !in tx.used
    requires MayBind(s.sessions, t, tx.bound)
    ensures Sound(s, r, tx)
  {
    hide KnownIds, SessionsInv, CodesInv, TokensGranted, TokensLinked, TokensProven, TokensInFamilies, TxnOk,
         TokensFewer, FamiliesFewer, TxnContinues, MayBind;
    hide FamiliesShaped, FamiliesGranted, FamiliesProven, RefreshesOk, ChainsOpen, ChainsNarrow;
    hide TokensEvolve, ClientsEvolve, SessionsEvolve, AppsEvolve, CodesEvolve, FamiliesEvolve, RefreshesEvolve,
         TxnsEvolve, SpentKept, AdminKept, OutboxEvolves, ClosedKept, InteractionsKept, EndingsKept;
    Still(s, tx);
    TxnPut(s, r, tx.known, tx.used, id, t);
    TxnClosed(s.sessions, s.txns, id, t, tx.bound);
    DropSpent(s, r, tx.codes);
    TokensGrantedFrame(s, r, tx.cfg);
    FamiliesGrantedFrame(s, r);
    assert SessionsInv(r) by { SessionsFrame(s, r); }
  }

  /** A code may be saved over an unused one: nothing rests on an unused code. */
  lemma CodeProofs(s: State, h: Id, c: Code)
    requires TokensProven(s.tokens, s.codes) && FamiliesProven(s.families, s.codes)
             && (h in s.codes ==> !s.codes[h].consumed)
    ensures TokensProven(s.tokens, s.codes[h := c]) && FamiliesProven(s.families, s.codes[h := c])
  {
  }

  lemma CodeSpentKept(s: State, r: State, used: set<Id>, h: Id, c: Code)
    requires r == s.(codes := s.codes[h := c]) && (if h in s.codes then !s.codes[h].consumed else h !in used)
    ensures SpentKept(s, r, used)
  {
  }

  lemma CodePut(
    codes: map<Id, Code>, clients: map<Id, Client>, sessions: map<Id, Session>, used: set<Id>, h: Id, c: Code)
    requires CodesPinned(codes, clients) && CodesLinked(codes, sessions) && CodePinned(c, clients)
             && CodeLinked(c, sessions)
    requires if h in codes then CodeContinues(codes[h], c) else h !in used
    ensures var after := codes[h := c];
            CodesPinned(after, clients) && CodesLinked(after, sessions) && CodesEvolve(codes, after, used)
  {
  }

  lemma CodeSound(s: State, r: State, tx: Tx, h: Id, c: Code)
    requires Inv(s, tx.cfg, tx.known) && r == s.(codes := s.codes[h := c]) && h in tx.known && h != NONE
    requires CodePinned(c, s.clients) && CodeLinked(c, s.sessions)
    requires if h in s.codes then !s.codes[h].consumed && CodeContinues(s.codes[h], c) else h !in tx.used + tx.codes
    ensures Sound(s, r, tx)
  {
    CodeProofs(s, h, c);
    CodeSpentKept(s, r, tx.codes, h, c);
    CodePut(s.codes, s.clients, s.sessions, tx.used, h, c);
    hide SessionsInv, TokensGranted, TokensLinked, TokensProven, TokensInFamilies, CodesPinned, CodesLinked, ConsentsOk,
         TxnsOk;
    hide FamiliesShaped, FamiliesGranted, FamiliesProven, RefreshesOk, ChainsOpen, ChainsNarrow;
    hide TokensEvolve, ClientsEvolve, SessionsEvolve, AppsEvolve, CodesEvolve, FamiliesEvolve, RefreshesEvolve,
         TxnsEvolve, SpentKept, AdminKept, OutboxEvolves, ClosedKept, InteractionsKept, EndingsKept;
    hide CodePinned, CodeLinked, CodeContinues;
    Still(s, tx);
    assert TokensFewer(s.tokens, r.tokens) && FamiliesFewer(s.families, r.families);
    TokensGrantedFrame(s, r, tx.cfg);
    FamiliesGrantedFrame(s, r);
    assert SessionsInv(r) by { SessionsFrame(s, r); }
  }

  // ---------- Issuing ----------

  lemma TokensPut(s: State, r: State, cfg: Config, h: Id, t: Token)
    requires TokensInv(s, cfg) && r == s.(tokens := s.tokens[h := t])
    requires TokenGranted(s, cfg, t) && TokenLinked(t, s.apps) && TokenProven(t, s.codes)
             && TokenInFamily(t, s.families)
    ensures TokensInv(r, cfg)
  {
    hide GrantHolds, Evidence;
    forall k | k in r.tokens ensures TokenGranted(r, cfg, r.tokens[k]) {
      if k == h {
        TokenGrantedFrame(s, r, cfg, t);
      } else {
        assert TokenGranted(s, cfg, s.tokens[k]);
        TokenGrantedFrame(s, r, cfg, s.tokens[k]);
      }
    }
  }

  /** A token can be issued from a code only while the code still yields credentials. */
  lemma TokenSpentKept(s: State, r: State, used: set<Id>, h: Id, t: Token)
    requires r == s.(tokens := s.tokens[h := t])
             && (t.codeHash != NONE && t.codeHash in used ==> !CodeSpent(s, t.codeHash))
    ensures SpentKept(s, r, used)
  {
  }

  lemma CodesFrame(s: State, r: State)
    requires CodesInv(s) && r.codes == s.codes && r.clients == s.clients && r.sessions == s.sessions
             && r.consents == s.consents && r.txns == s.txns
    ensures CodesInv(r)
  {
  }

  lemma TokenPut(s: State, r: State, used: set<Id>, known: set<Id>, h: Id, t: Token)
    requires KnownIds(s, known) && r == s.(tokens := s.tokens[h := t]) && h in known && h !in used
    ensures KnownIds(r, known) && TokensEvolve(s.tokens, r.tokens, used) && FamiliesFewer(s.families, r.families)
  {
  }

  lemma TokenSound(s: State, r: State, tx: Tx, h: Id, t: Token)
    requires Inv(s, tx.cfg, tx.known) && r == s.(tokens := s.tokens[h := t]) && h in tx.known && h !in tx.used
    requires TokenGranted(s, tx.cfg, t) && TokenLinked(t, s.apps) && TokenProven(t, s.codes)
             && TokenInFamily(t, s.families)
    requires SpentKept(s, r, tx.codes)
    ensures Sound(s, r, tx)
  {
    TokensPut(s, r, tx.cfg, h, t);
    TokenPut(s, r, tx.used, tx.known, h, t);
    hide KnownIds, TokensInv, SessionsInv, CodesInv, TokenGranted, TokenLinked, TokenProven, TokenInFamily;
    hide FamiliesShaped, FamiliesGranted, FamiliesProven, RefreshesOk, ChainsOpen, ChainsNarrow;
    hide TokensFewer, FamiliesFewer, TokensEvolve, ClientsEvolve, SessionsEvolve, AppsEvolve, CodesEvolve,
         FamiliesEvolve, RefreshesEvolve, TxnsEvolve, SpentKept, AdminKept, OutboxEvolves, ClosedKept, InteractionsKept,
         EndingsKept;
    Still(s, tx);
    FamiliesGrantedFrame(s, r);
    assert CodesInv(r) by { CodesFrame(s, r); }
    assert SessionsInv(r) by { SessionsFrame(s, r); }
  }

  // ---------- Refresh families ----------

  lemma ChainStarts(refreshes: map<Id, Refresh>, families: map<Id, Family>, f: Id, fam: Family, h: Id, first: Refresh)
    requires RefreshesOk(refreshes, families) && ChainsOpen(refreshes, families) && ChainsNarrow(refreshes)
    requires f !in families && h !in refreshes && first.familyId == f && !first.consumed && first.scopes == fam.scopes
    ensures var after, fams := refreshes[h := first], families[f := fam];
            RefreshesOk(after, fams) && ChainsOpen(after, fams) && ChainsNarrow(after)
  {
    var after, fams := refreshes[h := first], families[f := fam];
    assert forall k <- refreshes :: RefreshOk(refreshes[k], families);
    forall k | k in after ensures RefreshOk(after[k], fams) {}
    forall g | g in fams ensures exists k :: Usable(after, k, g) {
      if g == f {
        assert Usable(after, h, g);
      } else {
        var k :| Usable(refreshes, k, g);
        assert Usable(after, k, g);
      }
    }
    forall k, g | Usable(after, k, g) && k != h ensures Usable(refreshes, k, g) {}
  }

  lemma ChainMoves(
    refreshes: map<Id, Refresh>, families: map<Id, Family>, f: Id, fam: Family, previous: Id, next: Id, r: Refresh)
    requires RefreshesOk(refreshes, families) && ChainsOpen(refreshes, families) && ChainsNarrow(refreshes)
    requires f in families && fam.scopes == families[f].scopes && Usable(refreshes, previous, f) && next !in refreshes
    requires r.familyId == f && !r.consumed && ScopeSubset(r.scopes, refreshes[previous].scopes)
    ensures var after, fams := refreshes[previous := refreshes[previous].(consumed := true)][next := r],
                               families[f := fam];
            RefreshesOk(after, fams) && ChainsOpen(after, fams) && ChainsNarrow(after)
  {
    var after, fams := refreshes[previous := refreshes[previous].(consumed := true)][next := r], families[f := fam];
    assert forall k <- refreshes :: RefreshOk(refreshes[k], families);
    assert RefreshOk(refreshes[previous], families);
    forall k | k in after ensures RefreshOk(after[k], fams) {}
    forall g | g in fams ensures exists k :: Usable(after, k, g) {
      if g == f {
        assert Usable(after, next, g);
      } else {
        var k :| Usable(refreshes, k, g);
        assert Usable(after, k, g);
      }
    }
    forall k, g | Usable(after, k, g) && k != next ensures Usable(refreshes, k, g) && g != f {
      assert g == f ==> Usable(refreshes, k, f);
    }
    forall k | k in after && after[k].familyId == f ensures ScopeSubset(r.scopes, after[k].scopes) {
      if k != next {
        assert Usable(refreshes, previous, f) && k in refreshes && refreshes[k].familyId == f;
      }
    }
  }

  lemma StartFamilies(s: State, r: State, cfg: Config, f: Id, fam: Family)
    requires r == s.(families := s.families[f := fam], refreshes := r.refreshes) && f !in s.families
    requires FamiliesShaped(s.families, cfg) && FamiliesGranted(s) && FamiliesProven(s.families, s.codes)
    requires FamilyShape(fam, cfg) && FamilyGranted(s, fam) && FamilyProven(fam, s.codes)
    ensures FamiliesShaped(r.families, cfg) && FamiliesGranted(r) && FamiliesProven(r.families, r.codes)
  {
  }

  lemma StartTokens(tokens: map<Id, Token>, families: map<Id, Family>, f: Id, fam: Family)
    requires TokensInFamilies(tokens, families) && f !in families
    ensures TokensInFamilies(tokens, families[f := fam])
  {
  }

  lemma StartEvolves(s: State, r: State, tx: Tx, f: Id, fam: Family, h: Id, first: Refresh)
    requires r == s.(families := s.families[f := fam], refreshes := s.refreshes[h := first])
    requires f != NONE && f in tx.known && h in tx.known && f !in tx.used && h !in tx.used && fam.codeHash !in tx.codes
             && KnownIds(s, tx.known) && f !in s.families
    ensures KnownIds(r, tx.known) && FamiliesEvolve(s.families, r.families, tx.used, tx.now)
            && RefreshesEvolve(s.refreshes, r.refreshes, tx.used)
    ensures SpentKept(s, r, tx.codes) && TokensFewer(s.tokens, r.tokens)
  {
  }

  /** A family starts with its first refresh token. */
  lemma FamilySound(s: State, r: State, tx: Tx, f: Id, fam: Family, h: Id, first: Refresh)
    requires Inv(s, tx.cfg, tx.known) && r == s.(families := s.families[f := fam], refreshes := s.refreshes[h := first])
    requires f != NONE && f in tx.known && h in tx.known && f !in tx.used && h !in tx.used && fam.codeHash !in tx.codes
    requires f !in s.families && h !in s.refreshes && first.familyId == f && !first.consumed
             && first.scopes == fam.scopes
    requires FamilyShape(fam, tx.cfg) && FamilyGranted(s, fam) && FamilyProven(fam, s.codes)
    ensures Sound(s, r, tx)
  {
    StartEvolves(s, r, tx, f, fam, h, first);
    ChainStarts(s.refreshes, s.families, f, fam, h, first);
    StartFamilies(s, r, tx.cfg, f, fam);
    StartTokens(s.tokens, s.families, f, fam);
    hide KnownIds, SessionsInv, CodesInv, FamilyShape, FamilyGranted, FamilyProven, TokensGranted, TokensLinked,
         TokensProven, TokensInFamilies, TokensFewer;
    hide FamiliesShaped, FamiliesGranted, FamiliesProven, RefreshesOk, ChainsOpen, ChainsNarrow;
    hide TokensEvolve, ClientsEvolve, SessionsEvolve, AppsEvolve, CodesEvolve, FamiliesEvolve, RefreshesEvolve,
         TxnsEvolve, SpentKept, AdminKept, OutboxEvolves, ClosedKept, InteractionsKept, EndingsKept;
    Still(s, tx);
    TokensGrantedFrame(s, r, tx.cfg);
    assert CodesInv(r) by { CodesFrame(s, r); }
    assert SessionsInv(r) by { SessionsFrame(s, r); }
  }

  lemma MoveFamilies(s: State, r: State, cfg: Config, f: Id, idle: Time)
    requires f in s.families
             && r == s.(families := s.families[f := s.families[f].(idleExpiry := idle)], refreshes := r.refreshes)
    requires idle <= s.families[f].absoluteExpiry
    requires FamiliesShaped(s.families, cfg) && FamiliesGranted(s) && FamiliesProven(s.families, s.codes)
             && TokensInFamilies(s.tokens, s.families)
    ensures FamiliesShaped(r.families, cfg) && FamiliesGranted(r) && FamiliesProven(r.families, r.codes)
            && TokensInFamilies(r.tokens, r.families)
  {
    hide Evidence;
    forall g | g in r.families ensures FamilyGranted(r, r.families[g]) && FamilyProven(r.families[g], r.codes) {
      assert FamilyGranted(s, s.families[g]) && FamilyProven(s.families[g], s.codes);
    }
    forall h | h in r.tokens ensures TokenInFamily(r.tokens[h], r.families) {
      assert TokenInFamily(s.tokens[h], s.families);
    }
  }

  lemma MoveEvolves(s: State, r: State, tx: Tx, f: Id, idle: Time, previous: Id, next: Id, q: Refresh)
    requires f in s.families && previous in s.refreshes && next in tx.known && next !in tx.used && KnownIds(s, tx.known)
    requires tx.now < s.families[f].idleExpiry
    requires r == s.(families := s.families[f := s.families[f].(idleExpiry := idle)],
                     refreshes := s.refreshes[previous := s.refreshes[previous].(consumed := true)][next := q])
    ensures KnownIds(r, tx.known) && FamiliesEvolve(s.families, r.families, tx.used, tx.now)
            && RefreshesEvolve(s.refreshes, r.refreshes, tx.used)
    ensures SpentKept(s, r, tx.codes) && TokensFewer(s.tokens, r.tokens)
  {
  }

  /** A rotation consumes the family's usable token, adds a narrower one and moves the idle expiry. */
  lemma RotationSound(s: State, r: State, tx: Tx, f: Id, idle: Time, previous: Id, next: Id, q: Refresh)
    requires Inv(s, tx.cfg, tx.known) && f in s.families && Usable(s.refreshes, previous, f)
    requires r == s.(families := s.families[f := s.families[f].(idleExpiry := idle)],
                     refreshes := s.refreshes[previous := s.refreshes[previous].(consumed := true)][next := q])
    requires next in tx.known && next !in tx.used && next !in s.refreshes
    requires tx.now < s.families[f].idleExpiry && idle <= s.families[f].absoluteExpiry
    requires q.familyId == f && !q.consumed && ScopeSubset(q.scopes, s.refreshes[previous].scopes)
    ensures Sound(s, r, tx)
  {
    var fam := s.families[f].(idleExpiry := idle);
    MoveEvolves(s, r, tx, f, idle, previous, next, q);
    ChainMoves(s.refreshes, s.families, f, fam, previous, next, q);
    MoveFamilies(s, r, tx.cfg, f, idle);
    hide KnownIds, SessionsInv, CodesInv, TokensGranted, TokensLinked, TokensProven, TokensInFamilies, TokensFewer;
    hide FamiliesShaped, FamiliesGranted, FamiliesProven, RefreshesOk, ChainsOpen, ChainsNarrow;
    hide TokensEvolve, ClientsEvolve, SessionsEvolve, AppsEvolve, CodesEvolve, FamiliesEvolve, RefreshesEvolve,
         TxnsEvolve, SpentKept, AdminKept, OutboxEvolves, ClosedKept, InteractionsKept, EndingsKept;
    Still(s, tx);
    TokensGrantedFrame(s, r, tx.cfg);
    assert CodesInv(r) by { CodesFrame(s, r); }
    assert SessionsInv(r) by { SessionsFrame(s, r); }
  }

  // ---------- Deliveries, interactions, operations ----------

  /** The same notices, created at the same times. */
  ghost predicate SameNotices(a: map<DeliveryId, Delivery>, b: map<DeliveryId, Delivery>) {
    b.Keys == a.Keys && forall d <- a :: b[d].createdAt == a[d].createdAt
  }

  /** Working on the outbox touches no grant. */
  lemma OutboxSound(s: State, r: State, tx: Tx)
    requires Inv(s, tx.cfg, tx.known) && SameNotices(s.deliveries, r.deliveries)
             && OutboxEvolves(s.deliveries, s.apps, r.deliveries, tx)
    requires forall d <- r.deliveries :: Settled(d, r.deliveries[d])
    requires r == s.(deliveries := r.deliveries, interactions := r.interactions, operations := r.operations)
    requires r.interactions == s.interactions
             || (InteractionsKept(s.interactions, r.interactions, tx.used, tx.written)
                 && r.interactions.Keys <= tx.known)
    ensures Sound(s, r, tx)
  {
    OutboxSessions(s, r);
    hide SameNotices, Settled, KnownIds, SessionsInv, CodesInv, TokensGranted, TokensLinked, TokensProven,
         TokensInFamilies, TokensFewer, FamiliesFewer;
    hide FamiliesShaped, FamiliesGranted, FamiliesProven, RefreshesOk, ChainsOpen, ChainsNarrow;
    hide TokensEvolve, ClientsEvolve, SessionsEvolve, AppsEvolve, CodesEvolve, FamiliesEvolve, RefreshesEvolve,
         TxnsEvolve, SpentKept, AdminKept, OutboxEvolves, ClosedKept, InteractionsKept, EndingsKept;
    Still(s, tx);
    DropSpent(s, r, tx.codes);
    AllSame(s, r, tx.known);
    SameEndings(s, r, tx.used);
    TokensGrantedFrame(s, r, tx.cfg);
    FamiliesGrantedFrame(s, r);
    assert CodesInv(r) by { CodesFrame(s, r); }
  }

  lemma OutboxSessions(s: State, r: State)
    requires SessionsInv(s) && SameNotices(s.deliveries, r.deliveries)
             && forall d <- r.deliveries :: Settled(d, r.deliveries[d])
    requires r.sessions == s.sessions && r.apps == s.apps
    ensures SessionsInv(r)
  {
  }

  lemma SameEndings(s: State, r: State, used: set<Id>)
    requires SameNotices(s.deliveries, r.deliveries) && r.apps == s.apps && r.clients == s.clients
    ensures EndingsKept(s.apps, s.clients, s.deliveries, r.apps, r.clients, r.deliveries, used)
  {
  }

  lemma AllSame(s: State, r: State, known: set<Id>)
    requires KnownIds(s, known)
             && r == s.(deliveries := r.deliveries, interactions := r.interactions, operations := r.operations)
    requires r.interactions == s.interactions || r.interactions.Keys <= known
    ensures KnownIds(r, known) && TokensFewer(s.tokens, r.tokens) && FamiliesFewer(s.families, r.families)
  {
  }
}
