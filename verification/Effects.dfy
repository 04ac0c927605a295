/** What a purge, a sign-in, a revocation and a logout bring about, and whom they spare. */
module Effects {
  import opened Records
  import opened Validity
  import opened Cascades
  import opened Invariants
  import opened Evolution
  import opened Flags
  import opened Purges
  import opened Steps
  import opened TokenEndpoint
  import opened Machine
  import opened Finality
  import opened Replay
  import Accounts
  import Logouts
  import Maintenance
  import Monitor
  import Terminations

  // ---------- A purge spares everyone else ----------

  /** The token's family, if both are unrevoked, is of the same client and user. */
  lemma FamilyOfToken(s: State, cfg: Config, h: Id)
    requires TokensInv(s, cfg) && FamiliesInv(s, cfg) && h in s.tokens && !s.tokens[h].revoked
             && s.tokens[h].familyId != NONE
    ensures var t := s.tokens[h];
            t.familyId in s.families && s.families[t.familyId].clientId == t.clientId
            && s.families[t.familyId].userId == t.userId
  {
    var t := s.tokens[h];
    assert TokenInFamily(t, s.families) && TokenProven(t, s.codes);
    assert FamilyProven(s.families[t.familyId], s.codes) && FamilyShape(s.families[t.familyId], cfg);
  }

  /** Neither the token's family nor its app session is among those of another client or user. */
  predicate Elsewhere(s: State, t: Token, families: set<Id>, apps: set<Id>) {
    && (t.familyId in families && t.familyId in s.families ==>
          s.families[t.familyId].clientId != t.clientId || s.families[t.familyId].userId != t.userId)
    && (t.appSessionId in apps && t.appSessionId in s.apps ==>
          s.apps[t.appSessionId].clientId != t.clientId || s.apps[t.appSessionId].userId != t.userId)
  }

  lemma RevokeSpares(s: State, cfg: Config, used: set<Id>, families: set<Id>, hashes: set<Id>, h: Id)
    requires Inv(s, cfg, used) && h in s.tokens && h !in hashes && Elsewhere(s, s.tokens[h], families, {})
    ensures h in RevokeGrants(s, families, hashes).tokens && RevokeGrants(s, families, hashes).tokens[h] == s.tokens[h]
  {
    ElsewhereFamily(s, cfg, used, families, h);
    hide Inv, Elsewhere, FamiliesRevoked, TokensRevoked;
    TokenSpared(s.tokens, families * s.families.Keys, hashes, h);
  }

  lemma ElsewhereFamily(s: State, cfg: Config, used: set<Id>, families: set<Id>, h: Id)
    requires Inv(s, cfg, used) && h in s.tokens && Elsewhere(s, s.tokens[h], families, {})
    ensures s.tokens[h].revoked || s.tokens[h].familyId !in families * s.families.Keys
  {
    hide KnownIds, SessionsInv, CodesInv, TokensInv, FamiliesInv;
    KnownFamily(s, cfg, used);
    if !s.tokens[h].revoked && s.tokens[h].familyId != NONE {
      FamilyOfToken(s, cfg, h);
    }
  }

  lemma TokenSpared(tokens: map<Id, Token>, families: set<Id>, hashes: set<Id>, h: Id)
    requires h in tokens && h !in hashes && (tokens[h].revoked || tokens[h].familyId !in families)
    ensures h in TokensRevoked(tokens, families, hashes) && TokensRevoked(tokens, families, hashes)[h] == tokens[h]
  {
  }

  lemma EndAppsSpares(s: State, cfg: Config, used: set<Id>, ids: set<Id>, reason: Reason, now: Time, h: Id)
    requires Inv(s, cfg, used) && h in s.tokens && Elsewhere(s, s.tokens[h], {}, LiveApps(s.apps, ids))
    ensures h in EndApps(s, ids, reason, now).tokens && EndApps(s, ids, reason, now).tokens[h] == s.tokens[h]
  {
    assert TokenLinked(s.tokens[h], s.apps);
    hide SessionsInv, CodesInv, FamiliesInv, CodesEnded, TxnsEnded, Notices, AppsEnded;
  }

  /** Changing a client's record or policy leaves every other client's tokens, families, codes, consents,
      requests and app sessions as they were, and every browser session. */
  lemma PurgeClientSpares(s: State, tx: Tx, client: Id, now: Time)
    requires Inv(s, tx.cfg, tx.known) && (tx.timely ==> now <= tx.now)
    ensures var r := PurgeClient(s, client, now);
            && (forall h <- s.tokens :: s.tokens[h].clientId != client ==> h in r.tokens && r.tokens[h] == s.tokens[h])
            && (forall f <- s.families ::
                  s.families[f].clientId != client ==> f in r.families && r.families[f] == s.families[f])
            && (forall c <- s.codes :: s.codes[c].clientId != client ==> c in r.codes && r.codes[c] == s.codes[c])
            && (forall t <- s.txns :: s.txns[t].clientId != client ==> t in r.txns && r.txns[t] == s.txns[t])
            && (forall k <- s.consents :: k.clientId != client ==> k in r.consents && r.consents[k] == s.consents[k])
            && (forall a <- s.apps :: s.apps[a].clientId != client ==> a in r.apps && r.apps[a] == s.apps[a])
            && r.sessions == s.sessions
  {
    hide Inv, EndApps, RevokeForClient, DropClientGrants, AppsOfClient;
    var m := EndApps(s, AppsOfClient(s.apps, client), ClientChanged, now);
    ClientAppsOnly(s, client, now);
    RevokeClientOnly(m, client);
    PurgeClientEnds(m, RevokeForClient(m, client), client);
    forall h | h in s.tokens && s.tokens[h].clientId != client
      ensures h in RevokeForClient(m, client).tokens && RevokeForClient(m, client).tokens[h] == s.tokens[h]
    {
      ClientTokenSpared(s, m, tx, client, now, h);
    }
  }

  lemma ClientTokenSpared(s: State, m: State, tx: Tx, client: Id, now: Time, h: Id)
    requires Inv(s, tx.cfg, tx.known) && (tx.timely ==> now <= tx.now) && h in s.tokens
             && s.tokens[h].clientId != client
    requires m == EndApps(s, AppsOfClient(s.apps, client), ClientChanged, now)
    ensures h in RevokeForClient(m, client).tokens && RevokeForClient(m, client).tokens[h] == s.tokens[h]
  {
    hide Inv, Evolves, EndApps, RevokeGrants;
    EndAppsSound(s, tx, AppsOfClient(s.apps, client), ClientChanged, now);
    EndAppsSpares(s, tx.cfg, tx.known, AppsOfClient(s.apps, client), ClientChanged, now, h);
    RevokeSpares(m, tx.cfg, tx.known, FamiliesOfClient(m.families, client), TokensOfClient(m.tokens, client), h);
  }

  lemma ClientAppsOnly(s: State, client: Id, now: Time)
    ensures var m := EndApps(s, AppsOfClient(s.apps, client), ClientChanged, now);
            && m.families == s.families && m.consents == s.consents && m.sessions == s.sessions
            && m.codes.Keys == s.codes.Keys && m.txns.Keys == s.txns.Keys && m.apps.Keys == s.apps.Keys
            && (forall c <- s.codes :: s.codes[c].clientId != client ==> m.codes[c] == s.codes[c])
            && (forall t <- s.txns :: s.txns[t].clientId != client ==> m.txns[t] == s.txns[t])
            && (forall a <- s.apps :: s.apps[a].clientId != client ==> m.apps[a] == s.apps[a])
  {
    hide TokensEnded, Notices;
  }

  lemma RevokeClientOnly(s: State, client: Id)
    ensures var m := RevokeForClient(s, client);
            && m.codes == s.codes && m.txns == s.txns && m.consents == s.consents && m.apps == s.apps
            && m.sessions == s.sessions
            && m.families.Keys == s.families.Keys
            && (forall f <- s.families :: s.families[f].clientId != client ==> m.families[f] == s.families[f])
  {
    hide TokensRevoked;
  }

  lemma PurgeClientEnds(m: State, v: State, client: Id)
    requires v == RevokeForClient(m, client)
    ensures var r := DropClientGrants(v, client);
            && r.tokens == v.tokens && r.families == v.families && r.apps == v.apps && r.sessions == v.sessions
            && (forall c <- v.codes :: v.codes[c].clientId != client ==> c in r.codes && r.codes[c] == v.codes[c])
            && (forall t <- v.txns :: v.txns[t].clientId != client ==> t in r.txns && r.txns[t] == v.txns[t])
            && (forall k <- v.consents :: k.clientId != client ==> k in r.consents && r.consents[k] == v.consents[k])
  {
    hide RevokeForClient;
  }

  // ---------- Purging a user ----------

  /** The sessions ended with a user's are the user's. */
  ghost predicate OwnIds(s: State, ids: set<Id>, user: Id) {
    forall h <- s.sessions :: s.sessions[h].id in ids ==> s.sessions[h].userId == user
  }

  lemma UserIdsOwn(s: State, cfg: Config, used: set<Id>, user: Id)
    requires Inv(s, cfg, used)
    ensures OwnIds(s, SessionIdsOfUser(s.sessions, user), user)
  {
    hide KnownIds, CodesInv, TokensInv, FamiliesInv, AppsLinked, AppsUnique, OutboxOk;
  }

  lemma EndedAppsOwn(s: State, ids: set<Id>, user: Id, a: Id)
    requires AppsLinked(s.apps, s.sessions) && OwnIds(s, ids, user)
    requires a in LiveApps(s.apps,
                           AppsOfSessions(s.apps,
                                          IdsOf(s.sessions, LiveRows(s.sessions, RowsWithIds(s.sessions, ids)))))
    ensures s.apps[a].userId == user
  {
    var h :| h in s.sessions && IsLiveRow(s.sessions[h], s.apps[a].opSessionId, s.apps[a].userId);
  }

  lemma EndSessionsSparesToken(
    s: State, cfg: Config, used: set<Id>, ids: set<Id>, user: Id, reason: Reason, now: Time, h: Id)
    requires Inv(s, cfg, used) && OwnIds(s, ids, user) && h in s.tokens && s.tokens[h].userId != user
    ensures h in EndSessions(s, ids, reason, now).tokens && EndSessions(s, ids, reason, now).tokens[h] == s.tokens[h]
  {
    TokenElsewhere(s, cfg, used, ids, user, h);
    hide Inv, IdsOf, LiveRows, RowsWithIds, SessionsEnded, AppsEnded, CodesOfSessions, LiveApps, AppsOfSessions,
         TxnsOfSessions, Notices, OpNotices, OwnIds;
  }

  lemma TokenElsewhere(s: State, cfg: Config, used: set<Id>, ids: set<Id>, user: Id, h: Id)
    requires Inv(s, cfg, used) && OwnIds(s, ids, user) && h in s.tokens && s.tokens[h].userId != user
    ensures var live := LiveApps(s.apps,
                                 AppsOfSessions(s.apps,
                                                IdsOf(s.sessions, LiveRows(s.sessions, RowsWithIds(s.sessions, ids)))));
            s.tokens[h].revoked || s.tokens[h].familyId != NONE || s.tokens[h].appSessionId !in live
  {
    var live := LiveApps(s.apps,
                         AppsOfSessions(s.apps, IdsOf(s.sessions, LiveRows(s.sessions, RowsWithIds(s.sessions, ids)))));
    assert TokenLinked(s.tokens[h], s.apps) && AppsLinked(s.apps, s.sessions) && NONE !in s.apps;
    assert forall a <- live :: a in s.apps;
    hide Inv, LiveApps, AppsOfSessions, IdsOf, LiveRows, RowsWithIds, OwnIds, AppsLinked;
    if s.tokens[h].appSessionId in live {
      EndedAppsOwn(s, ids, user, s.tokens[h].appSessionId);
    }
  }

  lemma EndSessionsSparesCode(
    s: State, cfg: Config, used: set<Id>, ids: set<Id>, user: Id, reason: Reason, now: Time, c: Id)
    requires Inv(s, cfg, used) && OwnIds(s, ids, user) && c in s.codes && s.codes[c].userId != user
    ensures c in EndSessions(s, ids, reason, now).codes && EndSessions(s, ids, reason, now).codes[c] == s.codes[c]
  {
    var ended := IdsOf(s.sessions, LiveRows(s.sessions, RowsWithIds(s.sessions, ids)));
    CodeElsewhere(s, cfg, used, ids, user, c);
    hide Inv, IdsOf, LiveRows, RowsWithIds, SessionsEnded, AppsEnded, TokensEnded, LiveApps, TxnsOfSessions, Notices,
         OpNotices, OwnIds;
  }

  lemma CodeElsewhere(s: State, cfg: Config, used: set<Id>, ids: set<Id>, user: Id, c: Id)
    requires Inv(s, cfg, used) && OwnIds(s, ids, user) && c in s.codes && s.codes[c].userId != user
    ensures s.codes[c].revoked
            || s.codes[c].opSessionId !in IdsOf(s.sessions, LiveRows(s.sessions, RowsWithIds(s.sessions, ids)))
  {
    assert CodeLinked(s.codes[c], s.sessions) && RowsUnique(s.sessions);
    hide SessionsInv, CodesInv, TokensInv, FamiliesInv;
  }

  lemma EndSessionsSparesRest(s: State, cfg: Config, used: set<Id>, ids: set<Id>, user: Id, reason: Reason, now: Time)
    requires Inv(s, cfg, used) && OwnIds(s, ids, user)
    ensures var r := EndSessions(s, ids, reason, now);
            && r.families == s.families && r.consents == s.consents
            && (forall h <- s.sessions ::
                  s.sessions[h].userId != user ==> h in r.sessions && r.sessions[h] == s.sessions[h])
            && (forall a <- s.apps :: s.apps[a].userId != user ==> a in r.apps && r.apps[a] == s.apps[a])
  {
    assert AppsLinked(s.apps, s.sessions);
    hide Inv;
    var live := LiveApps(s.apps,
                         AppsOfSessions(s.apps, IdsOf(s.sessions, LiveRows(s.sessions, RowsWithIds(s.sessions, ids)))));
    forall a | a in live ensures s.apps[a].userId == user {
      EndedAppsOwn(s, ids, user, a);
    }
    hide AppsLinked, LiveApps, AppsOfSessions, IdsOf, TokensEnded, CodesOfSessions, TxnsOfSessions, Notices, OpNotices;
  }

  lemma RevokeUserOnly(s: State, user: Id)
    ensures var v := DropUserGrants(RevokeForUser(s, user), user);
            && v.apps == s.apps && v.sessions == s.sessions && v.tokens == RevokeForUser(s, user).tokens
            && (forall f <- s.families ::
                  s.families[f].userId != user ==> f in v.families && v.families[f] == s.families[f])
            && (forall c <- s.codes :: s.codes[c].userId != user ==> c in v.codes && v.codes[c] == s.codes[c])
            && (forall k <- s.consents :: k.userId != user ==> k in v.consents && v.consents[k] == s.consents[k])
  {
    hide TokensRevoked;
  }

  lemma DroppedInv(s: State, tx: Tx, user: Id)
    requires Inv(s, tx.cfg, tx.known)
    ensures Inv(DropUserGrants(RevokeForUser(s, user), user), tx.cfg, tx.known)
  {
    hide Inv, Evolves, RevokeForUser, DropUserGrants, UserQuiet;
    RevokeForUserSound(s, tx, user);
    RevokeForUserQuiet(s, user);
    DropUserSound(RevokeForUser(s, user), tx, user);
  }

  lemma UserTokenSpared(s: State, tx: Tx, user: Id, now: Time, h: Id)
    requires Inv(s, tx.cfg, tx.known) && h in s.tokens && s.tokens[h].userId != user
    ensures h in PurgeUser(s, user, now).tokens && PurgeUser(s, user, now).tokens[h] == s.tokens[h]
  {
    var d := DropUserGrants(RevokeForUser(s, user), user);
    UserIdsOwn(s, tx.cfg, tx.known, user);
    RevokeUserOnly(s, user);
    DroppedInv(s, tx, user);
    hide Inv, EndSessions, DropUserGrants, RevokeGrants, SessionIdsOfUser;
    RevokeSpares(s, tx.cfg, tx.known, FamiliesOfUser(s.families, user), TokensOfUser(s.tokens, user), h);
    EndSessionsSparesToken(d, tx.cfg, tx.known, SessionIdsOfUser(s.sessions, user), user, SecurityChange, now, h);
  }

  lemma UserCodeSpared(s: State, tx: Tx, user: Id, now: Time, c: Id)
    requires Inv(s, tx.cfg, tx.known) && c in s.codes && s.codes[c].userId != user
    ensures c in PurgeUser(s, user, now).codes && PurgeUser(s, user, now).codes[c] == s.codes[c]
  {
    var d := DropUserGrants(RevokeForUser(s, user), user);
    UserIdsOwn(s, tx.cfg, tx.known, user);
    RevokeUserOnly(s, user);
    DroppedInv(s, tx, user);
    hide Inv, EndSessions, DropUserGrants, RevokeForUser, SessionIdsOfUser;
    EndSessionsSparesCode(d, tx.cfg, tx.known, SessionIdsOfUser(s.sessions, user), user, SecurityChange, now, c);
  }

  lemma UserRestSpared(s: State, tx: Tx, user: Id, now: Time)
    requires Inv(s, tx.cfg, tx.known)
    ensures var r := PurgeUser(s, user, now);
            && (forall f <- s.families ::
                  s.families[f].userId != user ==> f in r.families && r.families[f] == s.families[f])
            && (forall k <- s.consents :: k.userId != user ==> k in r.consents && r.consents[k] == s.consents[k])
            && (forall h <- s.sessions ::
                  s.sessions[h].userId != user ==> h in r.sessions && r.sessions[h] == s.sessions[h])
            && (forall a <- s.apps :: s.apps[a].userId != user ==> a in r.apps && r.apps[a] == s.apps[a])
  {
    var d := DropUserGrants(RevokeForUser(s, user), user);
    UserIdsOwn(s, tx.cfg, tx.known, user);
    RevokeUserOnly(s, user);
    DroppedInv(s, tx, user);
    hide Inv, EndSessions, DropUserGrants, RevokeForUser, SessionIdsOfUser;
    EndSessionsSparesRest(d, tx.cfg, tx.known, SessionIdsOfUser(s.sessions, user), user, SecurityChange, now);
  }

  /** A security change to one account leaves everyone else's tokens, families, codes, consents, browser
      sessions and app sessions as they were. */
  lemma PurgeUserSpares(s: State, tx: Tx, user: Id, now: Time)
    requires Inv(s, tx.cfg, tx.known)
    ensures var r := PurgeUser(s, user, now);
            && (forall h <- s.tokens :: s.tokens[h].userId != user ==> h in r.tokens && r.tokens[h] == s.tokens[h])
            && (forall f <- s.families ::
                  s.families[f].userId != user ==> f in r.families && r.families[f] == s.families[f])
            && (forall c <- s.codes :: s.codes[c].userId != user ==> c in r.codes && r.codes[c] == s.codes[c])
            && (forall k <- s.consents :: k.userId != user ==> k in r.consents && r.consents[k] == s.consents[k])
            && (forall h <- s.sessions ::
                  s.sessions[h].userId != user ==> h in r.sessions && r.sessions[h] == s.sessions[h])
            && (forall a <- s.apps :: s.apps[a].userId != user ==> a in r.apps && r.apps[a] == s.apps[a])
  {
    hide Inv, PurgeUser;
    UserRestSpared(s, tx, user, now);
    forall h | h in s.tokens && s.tokens[h].userId != user
      ensures h in PurgeUser(s, user, now).tokens && PurgeUser(s, user, now).tokens[h] == s.tokens[h]
    {
      UserTokenSpared(s, tx, user, now, h);
    }
    forall c | c in s.codes && s.codes[c].userId != user
      ensures c in PurgeUser(s, user, now).codes && PurgeUser(s, user, now).codes[c] == s.codes[c]
    {
      UserCodeSpared(s, tx, user, now, c);
    }
  }

  // ---------- Signing in ----------

  /** A committed sign-in takes over a live session of the same account, or starts a new one. */
  predicate TakesOver(m: State, previous: Id, user: Id, t0: Time) {
    HasSession(m, previous) && m.sessions[previous].userId == user && m.sessions[previous].expiresAt > t0
  }

  lemma LoginReuses(
    s: State, cfg: Config, user: Id, found: User, t0: Time, hash: Id, csrf: Id, id: Id, previous: Id, now: Time)
    requires Accounts.Login(s, cfg, user, found, t0, hash, csrf, id, previous, now).Committed?
             && TakesOver(PruneLogoutState(s, now), previous, user, t0)
    ensures var was := PruneLogoutState(s, now).sessions[previous];
            var row := Accounts.SignInRow(cfg, user, was.id, csrf, was.device, was.createdAt, t0);
            Accounts.Login(s, cfg, user, found, t0, hash, csrf, id, previous, now).state.sessions
              == (PruneLogoutState(s, now).sessions - {previous})[hash := row]
  {
    hide PruneLogoutState, EndSessions;
  }

  lemma LoginStarts(
    s: State, cfg: Config, user: Id, found: User, t0: Time, hash: Id, csrf: Id, id: Id, previous: Id, now: Time)
    requires Accounts.Login(s, cfg, user, found, t0, hash, csrf, id, previous, now).Committed?
             && !TakesOver(PruneLogoutState(s, now), previous, user, t0)
    ensures var m := PruneLogoutState(s, now);
            var e := if HasSession(m, previous) then EndSessions(m, {m.sessions[previous].id}, AccountSwitch, t0)
                     else m;
            Accounts.Login(s, cfg, user, found, t0, hash, csrf, id, previous, now).state.sessions
            == e.sessions[hash := Accounts.SignInRow(cfg, user, id, csrf, NONE, t0, t0)]
  {
    hide PruneLogoutState, EndSessions;
  }

  /** A sign-in leaves the browser one live credential, of the account whose password was checked and is
      still current, and none under the old one; a kept session identifier was the same account's. */
  lemma LoginSignsIn(
    s: State, cfg: Config, user: Id, found: User, t0: Time, hash: Id, csrf: Id, id: Id, previous: Id, now: Time)
    requires Accounts.Login(s, cfg, user, found, t0, hash, csrf, id, previous, now).Committed? && hash != previous
    ensures var r := Accounts.Login(s, cfg, user, found, t0, hash, csrf, id, previous, now).state;
            && HasSession(r, hash) && r.sessions[hash].userId == user && r.sessions[hash].authTime == Some(t0)
            && r.sessions[hash].expiresAt == t0 + cfg.sessionTtl && r.sessions[hash].csrf == csrf
            && !HasSession(r, previous)
            && (forall at :: SignedIn(r, hash, at) <==> at < t0 + cfg.sessionTtl)
            && (r.sessions[hash].id != id ==>
                  HasSession(s, previous) && s.sessions[previous].userId == user
                  && s.sessions[previous].id == r.sessions[hash].id && now < s.sessions[previous].expiresAt)
  {
    hide PruneLogoutState, EndSessions, Accounts.Login;
    LoginHolds(s, cfg, user, found, t0, hash, csrf, id, previous, now);
    var m := PruneLogoutState(s, now);
    if TakesOver(m, previous, user, t0) {
      LoginReuses(s, cfg, user, found, t0, hash, csrf, id, previous, now);
      SweptOld(s, previous, now);
    } else {
      LoginStarts(s, cfg, user, found, t0, hash, csrf, id, previous, now);
      if HasSession(m, previous) {
        OldRowEnded(m, previous, AccountSwitch, t0);
      }
    }
  }

  lemma LoginHolds(
    s: State, cfg: Config, user: Id, found: User, t0: Time, hash: Id, csrf: Id, id: Id, previous: Id, now: Time)
    requires Accounts.Login(s, cfg, user, found, t0, hash, csrf, id, previous, now).Committed?
    ensures UserHolds(Accounts.Login(s, cfg, user, found, t0, hash, csrf, id, previous, now).state, user)
  {
    SweepUsers(s, now);
    hide PruneLogoutState, EndSessions;
    var m := PruneLogoutState(s, now);
    if HasSession(m, previous) {
      Terminations.SessionsStopFrame(m, {m.sessions[previous].id}, AccountSwitch, t0);
    }
  }

  lemma SweepUsers(s: State, now: Time)
    ensures PruneLogoutState(s, now).users == s.users
  {
  }

  /** A password is accepted exactly if it was checked against what the active account still has, and there is
      room after the sweep. */
  lemma LoginCommits(
    s: State, cfg: Config, user: Id, found: User, t0: Time, hash: Id, csrf: Id, id: Id, previous: Id, now: Time)
    ensures Accounts.Login(s, cfg, user, found, t0, hash, csrf, id, previous, now).Committed? <==>
              && user in s.users && s.users[user].active && s.users[user].password == found.password
              && s.users[user].email == found.email && |PruneLogoutState(s, now).sessions| < 10000
  {
    hide PruneLogoutState, EndSessions;
  }

  /** A sign-in leaves every other browser's unexpired session as it was. */
  lemma LoginSpares(
    s: State, cfg: Config, user: Id, found: User, t0: Time, hash: Id, csrf: Id, id: Id, previous: Id, now: Time, h: Id)
    requires Accounts.Login(s, cfg, user, found, t0, hash, csrf, id, previous, now).Committed?
    requires RowsUnique(s.sessions) && HasSession(s, h) && now < s.sessions[h].expiresAt && h != previous && h != hash
    ensures var r := Accounts.Login(s, cfg, user, found, t0, hash, csrf, id, previous, now).state;
            h in r.sessions && r.sessions[h] == s.sessions[h]
  {
    hide PruneLogoutState, EndSessions, Accounts.Login, Maintenance.LongOver;
    var m := PruneLogoutState(s, now);
    Maintenance.SweptExactly(s, now);
    Maintenance.NotLongOver(now);
    if TakesOver(m, previous, user, t0) {
      LoginReuses(s, cfg, user, found, t0, hash, csrf, id, previous, now);
    } else {
      LoginStarts(s, cfg, user, found, t0, hash, csrf, id, previous, now);
      if HasSession(m, previous) {
        EndSessionsOnly(m, {m.sessions[previous].id}, AccountSwitch, t0);
      }
    }
  }

  lemma SweptOld(s: State, hash: Id, now: Time)
    requires HasSession(PruneLogoutState(s, now), hash)
    ensures HasSession(s, hash) && PruneLogoutState(s, now).sessions[hash] == s.sessions[hash]
            && now < s.sessions[hash].expiresAt
  {
    SweptLive(s, now);
    hide PruneLogoutState;
  }

  // ---------- Logging out ----------

  /** A confirmed browser logout ends exactly the bound session and closes the interaction. */
  lemma ConfirmEnds(s: State, id: Id, v: Interaction, now: Time)
    requires Logouts.ConfirmLogout(s, id, v, now).Committed?
    ensures var r := Logouts.ConfirmLogout(s, id, v, now).state;
            && id in r.interactions && r.interactions[id].completed
            && (v.opSessionId != NONE ==>
                  forall h <- r.sessions :: r.sessions[h].id == v.opSessionId ==> r.sessions[h].endedAt.Some?)
            && (if v.opSessionId == NONE then r.sessions == s.sessions
                else OnlyEnded(s.sessions, r.sessions, {v.opSessionId}, BrowserLogout, now))
            && Logouts.ConfirmLogout(r, id, v, now).Denied?
  {
    EndSessionsOnly(s, {v.opSessionId}, BrowserLogout, now);
    hide OnlyEnded;
    hide AppsEnded, TokensEnded, CodesOfSessions, TxnsOfSessions, Notices, OpNotices, LiveApps, AppsOfSessions;
  }

  // ---------- Revocation ----------

  ghost predicate TokenDead(w: World, h: Id) {
    h in w.used && (h in w.state.tokens ==> w.state.tokens[h].revoked)
  }

  lemma DeadStep(cfg: Config, v: World, e: Event, w: World, h: Id)
    requires Evolves(v.state, w.state, TxOf(cfg, v, e, w)) && v.used <= w.used && TokenDead(v, h)
    ensures TokenDead(w, h)
  {
    assert h in w.state.tokens ==> TokenFlagged(v.state.tokens[h], w.state.tokens[h]);
  }

  lemma {:induction false} DeadForGood(cfg: Config, ws: seq<World>, es: seq<Event>, i: nat, j: nat, h: Id)
    requires Run(cfg, ws, es) && i <= j < |ws| && TokenDead(ws[i], h)
    ensures TokenDead(ws[j], h)
  {
    hide Inv, Evolves, StepAt, TokenDead;
    if i < j {
      DeadForGood(cfg, ws, es, i, j - 1, h);
      Onward(cfg, ws, es, j - 1);
      DeadStep(cfg, ws[j - 1], es[j - 1], ws[j], h);
    }
  }

  /** The i-th step is a revocation request by the current client for this credential. */
  ghost predicate Revokes(ws: seq<World>, es: seq<Event>, i: nat, hash: Id)
    requires |ws| == |es| + 1 && i < |es|
  {
    var e := es[i];
    e.RevokePresented? && e.hash == hash && e.client in ws[i].state.clients
    && ws[i].state.clients[e.client].updatedAt == e.record.updatedAt
  }

  /** A client revokes its own access token for good (section 2.1 of RFC 7009). */
  lemma RevokedForGood(cfg: Config, ws: seq<World>, es: seq<Event>, i: nat, j: nat, hash: Id)
    requires Run(cfg, ws, es) && i < j < |ws| && Revokes(ws, es, i, hash)
    requires hash in ws[i].state.tokens && ws[i].state.tokens[hash].clientId == es[i].client
    ensures !TokenActive(cfg, ws[j], hash)
  {
    hide Inv, Evolves, StepAt, Apply, RevokeGrants, Revokes;
    Onward(cfg, ws, es, i);
    KnownTokens(ws[i].state, cfg, ws[i].used);
    StepStores(cfg, ws, es, i);
    AppliedRevoke(cfg, ws, es, i, hash);
    DeadForGood(cfg, ws, es, i + 1, j, hash);
  }

  lemma AppliedRevoke(cfg: Config, ws: seq<World>, es: seq<Event>, i: nat, hash: Id)
    requires |ws| == |es| + 1 && i < |es| && Revokes(ws, es, i, hash)
    requires hash in ws[i].state.tokens && ws[i].state.tokens[hash].clientId == es[i].client
    ensures var o := Apply(cfg, ws[i].state, es[i], ws[i + 1].clock);
            o.Committed? && (hash in o.state.tokens ==> o.state.tokens[hash].revoked)
  {
  }

  lemma KnownTokens(s: State, cfg: Config, used: set<Id>)
    requires Inv(s, cfg, used)
    ensures s.tokens.Keys <= used
  {
    hide SessionsInv, CodesInv, TokensInv, FamiliesInv;
  }

  /** A client's revocation request is heard exactly if its record is current. It revokes its own token and
      nothing else, or its own refresh token's family and that family's tokens and nothing else. */
  lemma PresentedRevoked(s: State, client: Id, c: Client, hash: Id)
    ensures var o := Revoke(s, client, c, hash);
            && (o.Committed? <==> client in s.clients && s.clients[client].updatedAt == c.updatedAt)
            && (o.Committed? && hash in s.tokens && s.tokens[hash].clientId == client ==>
                  o.state == s.(tokens := s.tokens[hash := s.tokens[hash].(revoked := true)]))
            && (o.Committed? && hash !in s.tokens && hash in s.refreshes && s.refreshes[hash].familyId in s.families
                && s.families[s.refreshes[hash].familyId].clientId == client ==>
                  && o.state == s.(families := o.state.families, tokens := o.state.tokens)
                  && Terminations.OnlyRevoked(s.families, o.state.families, {s.refreshes[hash].familyId})
                  && Terminations.OnlyFlagged(s.tokens, o.state.tokens, {s.refreshes[hash].familyId}, {}))
  {
    hide RevokeGrants, Terminations.OnlyRevoked, Terminations.OnlyFlagged;
    if hash in s.tokens {
      Monitor.TokenRevokedOnly(s, hash);
    } else if hash in s.refreshes && s.refreshes[hash].familyId in s.families {
      var f := {s.refreshes[hash].familyId};
      assert f * s.families.Keys == f;
      Terminations.RevokesExactly(s, f, {});
    }
  }

  /** A credential of another client is left alone. */
  lemma ForeignRevocation(s: State, client: Id, c: Client, hash: Id)
    requires hash in s.tokens ==> s.tokens[hash].clientId != client
    requires hash !in s.tokens && hash in s.refreshes && s.refreshes[hash].familyId in s.families ==>
               s.families[s.refreshes[hash].familyId].clientId != client
    ensures Next(s, Revoke(s, client, c, hash)) == s
  {
  }
}
