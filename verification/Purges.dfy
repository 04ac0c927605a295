/** The compound cascades: what each leaves behind, and that each is sound. */
module Purges {
  import opened Records
  import opened Cascades
  import opened Invariants
  import opened Evolution
  import opened Flags
  import opened Changes

  // ---------- Sessions ----------

  lemma EndSessionsSound(s: State, tx: Tx, ids: set<Id>, reason: Reason, now: Time)
    requires tx.timely ==> now <= tx.now
    requires Inv(s, tx.cfg, tx.known)
    ensures Sound(s, EndSessions(s, ids, reason, now), tx)
  {
    hide Inv, Sound, EndRows;
    EndRowsSound(s, tx, RowsWithIds(s.sessions, ids), reason, now);
  }

  lemma SweepSound(s: State, tx: Tx, at: Time)
    requires tx.timely ==> at <= tx.now
    requires Inv(s, tx.cfg, tx.known)
    ensures Sound(s, PruneLogoutState(s, at), tx)
  {
    hide Inv, Evolves, EndSessions, DropStale;
    var m := PruneSessions(s, at);
    EndSessionsSound(s, tx, ExpiredIds(s.sessions, at), Expired, at);
    DropStaleSound(m, tx, at);
    SoundThen(s, m, PruneLogoutState(s, at), tx);
  }

  lemma EndedOver(s: State, op: Id, reason: Reason, now: Time)
    ensures SessionOver(EndSessions(s, {op}, reason, now).sessions, op)
  {
    hide AppsEnded, TokensEnded, CodesOfSessions, TxnsOfSessions, Notices, OpNotices, LiveApps, AppsOfSessions;
  }

  lemma OldRowEnded(s: State, hash: Id, reason: Reason, now: Time)
    requires HasSession(s, hash)
    ensures !HasSession(EndSessions(s, {s.sessions[hash].id}, reason, now), hash)
  {
    assert hash in LiveRows(s.sessions, RowsWithIds(s.sessions, {s.sessions[hash].id}));
    hide AppsEnded, TokensEnded, CodesOfSessions, TxnsOfSessions, Notices, OpNotices, LiveApps, AppsOfSessions;
  }

  // ---------- What a purge leaves ----------

  /** Every credential issued for the user is revoked. */
  ghost predicate UserQuiet(s: State, user: Id) {
    && (forall h <- s.tokens :: s.tokens[h].userId == user ==> s.tokens[h].revoked)
    && (forall f <- s.families :: s.families[f].userId == user ==> s.families[f].revoked)
  }

  ghost predicate ClientQuiet(s: State, client: Id) {
    && (forall h <- s.tokens :: s.tokens[h].clientId == client ==> s.tokens[h].revoked)
    && (forall f <- s.families :: s.families[f].clientId == client ==> s.families[f].revoked)
  }

  ghost predicate NoUserGrants(s: State, user: Id) {
    && (forall h <- s.codes :: s.codes[h].userId != user)
    && (forall t <- s.txns :: s.txns[t].userId != user)
    && (forall k <- s.consents :: k.userId != user)
  }

  ghost predicate NoClientGrants(s: State, client: Id) {
    && (forall h <- s.codes :: s.codes[h].clientId != client)
    && (forall t <- s.txns :: s.txns[t].clientId != client)
    && (forall k <- s.consents :: k.clientId != client)
  }

  ghost predicate NoClientApps(s: State, client: Id) {
    forall a <- s.apps :: s.apps[a].clientId == client ==> s.apps[a].endedAt.Some?
  }

  ghost predicate NoUserSessions(s: State, user: Id) {
    && (forall h <- s.sessions :: s.sessions[h].userId == user ==> s.sessions[h].endedAt.Some?)
    && (forall a <- s.apps :: s.apps[a].userId == user ==> s.apps[a].endedAt.Some?)
  }

  lemma RevokeForUserQuiet(s: State, user: Id)
    ensures UserQuiet(RevokeForUser(s, user), user)
  {
  }

  lemma RevokeForClientQuiet(s: State, client: Id)
    ensures ClientQuiet(RevokeForClient(s, client), client)
  {
  }

  lemma QuietUnneeded(s: State, cfg: Config, user: Id)
    requires TokensInv(s, cfg) && FamiliesInv(s, cfg) && UserQuiet(s, user)
    ensures Unneeded(s, CodesOfUser(s.codes, user), ConsentsOfUser(s.consents, user))
  {
  }

  lemma QuietUnneededClient(s: State, cfg: Config, client: Id)
    requires TokensInv(s, cfg) && FamiliesInv(s, cfg) && ClientQuiet(s, client)
    ensures Unneeded(s, CodesOfClient(s.codes, client), ConsentsOfClient(s.consents, client))
  {
  }

  // ---------- Purging a user ----------

  lemma RevokeForUserSound(s: State, tx: Tx, user: Id)
    requires Inv(s, tx.cfg, tx.known)
    ensures Sound(s, RevokeForUser(s, user), tx)
  {
    hide Inv, Sound, RevokeGrants;
    RevokeSound(s, tx, FamiliesOfUser(s.families, user), TokensOfUser(s.tokens, user));
  }

  lemma DropUserSound(s: State, tx: Tx, user: Id)
    requires Inv(s, tx.cfg, tx.known) && UserQuiet(s, user)
    ensures Sound(s, DropUserGrants(s, user), tx) && UserQuiet(DropUserGrants(s, user), user)
            && NoUserGrants(DropUserGrants(s, user), user)
  {
    assert Unneeded(s, CodesOfUser(s.codes, user), ConsentsOfUser(s.consents, user)) by {
      hide UserQuiet, Unneeded, TokensInv, FamiliesInv;
      QuietUnneeded(s, tx.cfg, user);
    }
    hide Inv, Sound, Unneeded;
    DropSound(s, DropUserGrants(s, user), tx, CodesOfUser(s.codes, user), TxnsOfUser(s.txns, user),
              ConsentsOfUser(s.consents, user));
  }

  lemma EndSessionsQuiet(s: State, ids: set<Id>, user: Id, reason: Reason, now: Time)
    requires UserQuiet(s, user) && NoUserGrants(s, user)
    ensures var r := EndSessions(s, ids, reason, now);
            UserQuiet(r, user) && NoUserGrants(r, user)
  {
    hide AppsEnded, Notices, OpNotices, LiveRows, IdsOf, LiveApps, SessionsEnded;
  }

  lemma EndSessionsEnds(s: State, ids: set<Id>, user: Id, reason: Reason, now: Time)
    requires SessionIdsOfUser(s.sessions, user) <= ids
    ensures forall h <- EndSessions(s, ids, reason, now).sessions ::
              s.sessions[h].userId == user ==> EndSessions(s, ids, reason, now).sessions[h].endedAt.Some?
    ensures forall h <- EndSessions(s, ids, reason, now).sessions ::
              h in s.sessions && EndSessions(s, ids, reason, now).sessions[h].userId == s.sessions[h].userId
  {
  }

  lemma NoSessionsNoApps(s: State, user: Id)
    requires AppsLinked(s.apps, s.sessions)
             && forall h <- s.sessions :: s.sessions[h].userId == user ==> s.sessions[h].endedAt.Some?
    ensures NoUserSessions(s, user)
  {
  }

  lemma DroppedSessions(s: State, user: Id)
    ensures DropUserGrants(RevokeForUser(s, user), user).sessions == s.sessions
    ensures var r := DropUserGrants(RevokeForUser(s, user), user);
            SameGrants(s, r)
  {
  }

  /** `DeleteUserSessions` leaves nothing of the user usable. */
  lemma PurgeUserSound(s: State, tx: Tx, user: Id, now: Time)
    requires tx.timely ==> now <= tx.now
    requires Inv(s, tx.cfg, tx.known)
    ensures var r := PurgeUser(s, user, now);
            && Sound(s, r, tx) && SameGrants(s, r)
            && UserQuiet(r, user) && NoUserGrants(r, user) && NoUserSessions(r, user)
  {
    var m := RevokeForUser(s, user);
    var d := DropUserGrants(m, user);
    var ids := SessionIdsOfUser(s.sessions, user);
    var r := PurgeUser(s, user, now);
    RevokeForUserQuiet(s, user);
    DroppedSessions(s, user);
    assert SameGrants(d, r) by { EndSessionsGrants(d, ids, now); }
    hide RevokeForUser, DropUserGrants, EndSessions, UserQuiet, NoUserGrants, SessionIdsOfUser, Evolves;
    assert Sound(s, r, tx) && UserQuiet(r, user) && NoUserGrants(r, user) by {
      hide Inv;
      RevokeForUserSound(s, tx, user);
      DropUserSound(m, tx, user);
      SoundThen(s, m, d, tx);
      EndSessionsSound(d, tx, ids, SecurityChange, now);
      SoundThen(s, d, r, tx);
      EndSessionsQuiet(d, ids, user, SecurityChange, now);
    }
    EndSessionsEnds(d, ids, user, SecurityChange, now);
    hide Inv, SessionsInv, CodesInv, TokensInv, FamiliesInv, KnownIds;
    assert AppsLinked(r.apps, r.sessions) by { InvAppsLinked(r, tx.cfg, tx.known); }
    NoSessionsNoApps(r, user);
  }

  lemma InvAppsLinked(s: State, cfg: Config, known: set<Id>)
    requires Inv(s, cfg, known)
    ensures AppsLinked(s.apps, s.sessions)
  {
  }

  lemma EndSessionsGrants(s: State, ids: set<Id>, now: Time)
    ensures SameGrants(s, EndSessions(s, ids, SecurityChange, now))
  {
  }

  /** Nothing issued for the account is usable, and none of its sessions is live. */
  ghost predicate AccountOut(s: State, user: Id) {
    && UserQuiet(s, user) && NoUserGrants(s, user)
    && forall h <- s.sessions :: s.sessions[h].userId == user ==> s.sessions[h].endedAt.Some?
  }

  lemma PurgedUser(s: State, user: Id, now: Time)
    ensures AccountOut(PurgeUser(s, user, now), user) && SameGrants(s, PurgeUser(s, user, now))
  {
    var m := RevokeForUser(s, user);
    var d := DropUserGrants(m, user);
    RevokeForUserQuiet(s, user);
    DroppedSessions(s, user);
    DroppedQuiet(m, user);
    hide EndSessions, DropUserGrants, RevokeForUser, SessionIdsOfUser, UserQuiet, NoUserGrants;
    EndSessionsQuiet(d, SessionIdsOfUser(s.sessions, user), user, SecurityChange, now);
    EndSessionsEnds(d, SessionIdsOfUser(s.sessions, user), user, SecurityChange, now);
    EndSessionsGrants(d, SessionIdsOfUser(s.sessions, user), now);
  }

  lemma DroppedQuiet(s: State, user: Id)
    requires UserQuiet(s, user)
    ensures UserQuiet(DropUserGrants(s, user), user) && NoUserGrants(DropUserGrants(s, user), user)
  {
  }

  /** A saved account has the record it was saved with; if that changed what its credentials rest on, none of
      them is usable. */
  lemma SavedUser(s: State, id: Id, user: User, now: Time)
    ensures Cascades.SaveUser(s, id, user, now).None? <==> EmailTaken(s.users, id, user.email)
    ensures var o := Cascades.SaveUser(s, id, user, now);
            o.Some? ==>
              && o.value.users == s.users[id := user]
              && (id in s.users && SecurityRelevant(s.users[id], user) ==> AccountOut(o.value, id))
  {
    PurgedUser(s, id, now);
    hide PurgeUser, EmailTaken;
  }

  lemma DeletedUser(s: State, id: Id, now: Time)
    ensures var r := Cascades.DeleteUser(s, id, now);
            r.users == s.users - {id} && r.access == s.access - {id} && AccountOut(r, id)
  {
    PurgedUser(s, id, now);
    DeleteUserIs(s, id, now);
    hide PurgeUser, Cascades.DeleteUser;
  }

  /** A saved entitlement takes effect and leaves the account no live app session and no usable credential;
      nobody's browser session and no one else's app session or family changes. */
  lemma SavedAccess(s: State, id: Id, a: Access, now: Time)
    ensures var r := SaveAccess(s, id, a, now);
            && r.access == s.access[id := a] && UserQuiet(r, id) && r.sessions == s.sessions
            && r.apps.Keys == s.apps.Keys && r.families.Keys == s.families.Keys
            && (forall k <- s.apps ::
                  if s.apps[k].userId == id then r.apps[k].endedAt.Some? else r.apps[k] == s.apps[k])
            && (forall f <- s.families :: s.families[f].userId != id ==> r.families[f] == s.families[f])
            && r.users == s.users && r.clients == s.clients && r.policies == s.policies && r.consents == s.consents
  {
    RevokeForUserQuiet(EndApps(s.(access := s.access[id := a]), AppsOfUser(s.apps, id), AccessPolicyChanged, now), id);
    hide UserQuiet, TokensEnded, CodesEnded, TxnsEnded, Notices, TokensRevoked;
  }

  // ---------- Purging a client ----------

  /** Nothing issued to the client is usable. */
  ghost predicate ClientOut(s: State, client: Id) {
    ClientQuiet(s, client) && NoClientGrants(s, client) && NoClientApps(s, client)
  }

  lemma PurgedClient(s: State, client: Id, now: Time)
    ensures ClientOut(PurgeClient(s, client, now), client) && SameGrants(s, PurgeClient(s, client, now))
  {
    var m := EndApps(s, AppsOfClient(s.apps, client), ClientChanged, now);
    EndClientApps(s, client, now);
    RevokeForClientQuiet(m, client);
    DroppedClient(m, client);
    hide EndApps, RevokeForClient;
  }

  /** A saved client has the record it was saved with, at a later revision if there was one, and nothing
      issued under the old record is usable. */
  lemma SavedClient(s: State, id: Id, c: Client, now: Time)
    ensures var r := Cascades.SaveClient(s, id, c, now);
            && id in r.clients && r.clients[id].metadata == c.metadata && r.clients[id].secret == c.secret
            && (forall k <- s.clients :: k != id ==> k in r.clients && r.clients[k] == s.clients[k])
            && (id in s.clients ==> s.clients[id].updatedAt < r.clients[id].updatedAt && ClientOut(r, id))
  {
    PurgedClient(s, id, now);
    hide PurgeClient, ClientQuiet, NoClientGrants, NoClientApps;
    if id in s.clients {
      OutStays(PurgeClient(s, id, now), s.clients[id := NextRevision(s.clients[id], c)], id);
    }
  }

  lemma OutStays(s: State, clients: map<Id, Client>, client: Id)
    requires ClientOut(s, client)
    ensures ClientOut(s.(clients := clients), client)
  {
  }

  /** A deleted client leaves no record, no policy and nothing usable; the others keep theirs. */
  lemma DeletedClient(s: State, id: Id, now: Time)
    ensures var r := Cascades.DeleteClient(s, id, now);
            r.clients == s.clients - {id} && r.policies == s.policies - {id} && ClientOut(r, id)
            && r.users == s.users && r.access == s.access
  {
    PurgedClient(s, id, now);
    DeleteClientIs(s, id, now);
    hide PurgeClient, Cascades.DeleteClient;
  }

  /** A new policy takes effect for its client alone, and nothing issued under the old one is usable. */
  lemma SavedPolicy(s: State, id: Id, p: Policy, now: Time)
    ensures var r := SavePolicy(s, id, p, now);
            && PolicyOf(r, id) == p && ClientOut(r, id) && (forall k :: k != id ==> PolicyOf(r, k) == PolicyOf(s, k))
            && r.clients == s.clients && r.users == s.users && r.access == s.access
  {
    PurgedClient(s, id, now);
    SavePolicyIs(s, id, p, now);
    hide PurgeClient, SavePolicy;
  }

  lemma RevokeForClientSound(s: State, tx: Tx, client: Id)
    requires Inv(s, tx.cfg, tx.known)
    ensures Sound(s, RevokeForClient(s, client), tx)
  {
    hide Inv, Sound, RevokeGrants;
    RevokeSound(s, tx, FamiliesOfClient(s.families, client), TokensOfClient(s.tokens, client));
  }

  lemma DropClientSound(s: State, tx: Tx, client: Id)
    requires Inv(s, tx.cfg, tx.known) && ClientQuiet(s, client)
    ensures Sound(s, DropClientGrants(s, client), tx) && ClientQuiet(DropClientGrants(s, client), client)
            && NoClientGrants(DropClientGrants(s, client), client)
  {
    assert Unneeded(s, CodesOfClient(s.codes, client), ConsentsOfClient(s.consents, client)) by {
      hide ClientQuiet, Unneeded, TokensInv, FamiliesInv;
      QuietUnneededClient(s, tx.cfg, client);
    }
    hide Inv, Sound, Unneeded;
    DropSound(s, DropClientGrants(s, client), tx, CodesOfClient(s.codes, client), TxnsOfClient(s.txns, client),
              ConsentsOfClient(s.consents, client));
  }

  lemma EndClientApps(s: State, client: Id, now: Time)
    ensures var r := EndApps(s, AppsOfClient(s.apps, client), ClientChanged, now);
            SameGrants(s, r) && NoClientApps(r, client)
  {
  }

  lemma DroppedClient(s: State, client: Id)
    ensures var r := DropClientGrants(RevokeForClient(s, client), client);
            SameGrants(s, r) && r.apps == s.apps
  {
  }

  /** `invalidateClientGrants` leaves nothing issued to the client usable. */
  lemma PurgeClientSound(s: State, tx: Tx, client: Id, now: Time)
    requires tx.timely ==> now <= tx.now
    requires Inv(s, tx.cfg, tx.known)
    ensures var r := PurgeClient(s, client, now);
            && Sound(s, r, tx) && SameGrants(s, r)
            && ClientQuiet(r, client) && NoClientGrants(r, client) && NoClientApps(r, client)
  {
    var m := EndApps(s, AppsOfClient(s.apps, client), ClientChanged, now);
    var v := RevokeForClient(m, client);
    var r := PurgeClient(s, client, now);
    EndClientApps(s, client, now);
    RevokeForClientQuiet(m, client);
    DroppedClient(m, client);
    hide RevokeForClient, DropClientGrants, EndApps, ClientQuiet, NoClientGrants, Inv, Evolves;
    EndAppsSound(s, tx, AppsOfClient(s.apps, client), ClientChanged, now);
    RevokeForClientSound(m, tx, client);
    SoundThen(s, m, v, tx);
    DropClientSound(v, tx, client);
    SoundThen(s, v, r, tx);
  }

  // ---------- Saving users, clients, policies, entitlements and consents ----------

  /** Replacing records that no unrevoked credential rests on. */
  lemma QuietRests(s: State, r: State, user: Id, client: Id)
    requires UserQuiet(s, user) || UserSame(s, r, user)
    requires (ClientQuiet(s, client) && NoClientGrants(s, client)) || ClientSame(s, r, client)
    requires forall u :: u != user ==> UserSame(s, r, u)
    requires forall c :: c != client && c in s.clients ==> ClientSame(s, r, c)
    requires forall h <- s.tokens :: !s.tokens[h].revoked ==> s.tokens[h].clientId in s.clients
    requires forall f <- s.families :: !s.families[f].revoked ==> s.families[f].clientId in s.clients
    requires CodesPinned(s.codes, s.clients) && ConsentsOk(s.consents, s.clients)
    ensures RestsKept(s, r)
  {
  }

  lemma ClientsStored(s: State, cfg: Config)
    requires TokensInv(s, cfg) && FamiliesInv(s, cfg)
    ensures forall h <- s.tokens :: !s.tokens[h].revoked ==> s.tokens[h].clientId in s.clients
    ensures forall f <- s.families :: !s.families[f].revoked ==> s.families[f].clientId in s.clients
  {
  }

  /** Changing one user's record or entitlement when nothing of the user's is usable. */
  lemma UserSound(s: State, r: State, tx: Tx, user: Id)
    requires Inv(s, tx.cfg, tx.known) && r == s.(users := r.users, access := r.access)
    requires UserQuiet(s, user) || UserSame(s, r, user)
    requires forall u :: u != user ==> UserSame(s, r, u)
    requires NONE !in r.users && r.users.Keys <= tx.known && AdminKept(s.users, r.users)
    ensures Sound(s, r, tx)
  {
    assert RestsKept(s, r) && TxnsOk(s.txns, r.clients) by {
      hide UserQuiet, UserSame, RestsKept, SessionsInv, KnownIds, TokensInv, FamiliesInv, CodesPinned, ConsentsOk,
           TxnsOk, HasAdmin;
      ClientsStored(s, tx.cfg);
      if c :| c in s.clients {
        forall c | c in s.clients ensures ClientSame(s, r, c) {}
        QuietRests(s, r, user, c);
      } else {
        NoClients(s, r, tx.cfg);
      }
    }
    assert KnownIds(r, tx.known) by { hide SessionsInv, CodesInv, TokensInv, FamiliesInv, RestsKept, TxnsOk; }
    assert ClientsEvolve(s.clients, r.clients, tx.used) && LiveClients(s.apps, s.clients, s.apps, r.clients, tx.used);
    hide Inv, RestsKept, TxnsOk, KnownIds, ClientsEvolve, LiveClients, AdminKept, UserQuiet, UserSame;
    RestsSound(s, r, tx);
  }

  lemma NoClients(s: State, r: State, cfg: Config)
    requires TokensInv(s, cfg) && FamiliesInv(s, cfg) && CodesInv(s) && forall c :: c !in s.clients
    ensures RestsKept(s, r)
  {
  }

  lemma RequestsStay(txns: map<Id, Txn>, before: map<Id, Client>, after: map<Id, Client>, client: Id)
    requires TxnsOk(txns, before) && (forall t <- txns :: txns[t].clientId != client)
    requires forall c :: c != client && c in after ==> c in before && after[c] == before[c]
    ensures TxnsOk(txns, after)
  {
  }

  lemma ClientRests(s: State, r: State, cfg: Config, client: Id)
    requires CodesInv(s) && TokensInv(s, cfg) && FamiliesInv(s, cfg)
             && r == s.(clients := r.clients, policies := r.policies)
    requires ClientQuiet(s, client) && NoClientGrants(s, client)
    requires forall c :: c != client && c in s.clients ==> ClientSame(s, r, c)
    requires forall c :: c != client && c in r.clients ==> c in s.clients && r.clients[c] == s.clients[c]
    ensures RestsKept(s, r) && TxnsOk(s.txns, r.clients)
  {
    assert forall u :: UserSame(s, r, u);
    hide ClientQuiet, ClientSame, UserSame, RestsKept, TokensInv, FamiliesInv, CodesPinned, ConsentsOk, TxnsOk;
    ClientsStored(s, cfg);
    RequestsStay(s.txns, s.clients, r.clients, client);
    QuietRests(s, r, NONE, client);
  }

  lemma OthersLive(s: State, r: State, client: Id, used: set<Id>)
    requires NoClientApps(s, client)
    requires forall c :: c != client && c in s.clients ==> ClientSame(s, r, c)
    requires forall c :: c != client && c in r.clients ==> c in s.clients && r.clients[c] == s.clients[c]
    ensures LiveClients(s.apps, s.clients, s.apps, r.clients, used)
  {
  }

  /** Changing one client's record or policy when nothing issued to it is usable. */
  lemma ClientSound(s: State, r: State, tx: Tx, client: Id)
    requires Inv(s, tx.cfg, tx.known) && r == s.(clients := r.clients, policies := r.policies)
    requires ClientQuiet(s, client) && NoClientGrants(s, client) && NoClientApps(s, client)
    requires forall c :: c != client && c in s.clients ==> ClientSame(s, r, c)
    requires forall c :: c != client && c in r.clients ==> c in s.clients && r.clients[c] == s.clients[c]
    requires r.clients.Keys <= tx.known && ClientsEvolve(s.clients, r.clients, tx.used)
    ensures Sound(s, r, tx)
  {
    hide SessionsInv, CodesInv, TokensInv, FamiliesInv, RestsKept, TxnsOk, ClientsEvolve, ClientQuiet, ClientSame,
         NoClientGrants, HasAdmin;
    hide NoClientApps, LiveClients;
    ClientRests(s, r, tx.cfg, client);
    OthersLive(s, r, client, tx.used);
    assert KnownIds(r, tx.known);
    assert AdminKept(s.users, r.users);
    hide Inv, KnownIds, AdminKept;
    RestsSound(s, r, tx);
  }

  // ---------- Users ----------

  /** An old user's record changes in a way the purge looks at, or not at all where it matters. */
  lemma SaveUserSound(s: State, tx: Tx, id: Id, user: User, now: Time)
    requires tx.timely ==> now <= tx.now
    requires Inv(s, tx.cfg, tx.known) && Cascades.SaveUser(s, id, user, now).Some?
    requires id in tx.known && id != NONE && AdminKept(s.users, s.users[id := user])
    ensures var r := Cascades.SaveUser(s, id, user, now).value;
            Sound(s, r, tx) && r.users == s.users[id := user] && SameGrants(r.(users := s.users), s)
  {
    hide Inv, Evolves, PurgeUser, EmailTaken, UserQuiet, NoUserGrants, NoUserSessions, AdminKept;
    var purged := id in s.users && SecurityRelevant(s.users[id], user);
    var m := if purged then PurgeUser(s, id, now) else s;
    var r := m.(users := m.users[id := user]);
    if purged {
      PurgeUserSound(s, tx, id, now);
    } else {
      SoundStill(s, tx);
    }
    UserPut(m, r, tx, id, user);
    SoundThen(s, m, r, tx);
  }

  lemma UserPut(s: State, r: State, tx: Tx, id: Id, user: User)
    requires Inv(s, tx.cfg, tx.known) && r == s.(users := s.users[id := user])
    requires id in tx.known && id != NONE && AdminKept(s.users, r.users)
    requires UserQuiet(s, id) || (id in s.users && s.users[id].active == user.active) || id !in s.users
    ensures Sound(s, r, tx)
  {
    hide SessionsInv, CodesInv, TokensInv, FamiliesInv, UserQuiet, AdminKept;
    if id !in s.users {
      NewUserQuiet(s, tx.cfg, id);
    }
    assert NONE !in r.users && r.users.Keys <= tx.known;
    hide Inv, KnownIds;
    UserSound(s, r, tx, id);
  }

  /** Nothing usable was ever issued for an account that does not exist. */
  lemma NewUserQuiet(s: State, cfg: Config, id: Id)
    requires TokensInv(s, cfg) && FamiliesInv(s, cfg) && id !in s.users && id != NONE
    ensures UserQuiet(s, id)
  {
  }

  /** Deleting the records before the purge, as the source does, is deleting them after it. */
  lemma DeleteUserIs(s: State, id: Id, now: Time)
    ensures var m := PurgeUser(s, id, now);
            Cascades.DeleteUser(s, id, now) == m.(users := s.users - {id}, access := s.access - {id})
  {
  }

  lemma DeleteUserSound(s: State, tx: Tx, id: Id, now: Time)
    requires tx.timely ==> now <= tx.now
    requires Inv(s, tx.cfg, tx.known) && AdminKept(s.users, s.users - {id})
    ensures var r := Cascades.DeleteUser(s, id, now);
            && Sound(s, r, tx) && id !in r.users && id !in r.access
            && UserQuiet(r, id) && NoUserGrants(r, id) && NoUserSessions(r, id)
  {
    hide Inv, PurgeUser, Evolves, Cascades.DeleteUser, UserQuiet, NoUserGrants, NoUserSessions, AdminKept;
    var m := PurgeUser(s, id, now);
    var r := Cascades.DeleteUser(s, id, now);
    PurgeUserSound(s, tx, id, now);
    DeleteUserIs(s, id, now);
    UserRemoved(m, r, tx, id);
    SoundThen(s, m, r, tx);
    StillPurged(m, r, id);
  }

  lemma StillPurged(s: State, r: State, id: Id)
    requires r == s.(users := r.users, access := r.access) && UserQuiet(s, id) && NoUserGrants(s, id)
             && NoUserSessions(s, id)
    ensures UserQuiet(r, id) && NoUserGrants(r, id) && NoUserSessions(r, id)
  {
  }

  lemma UserRemoved(s: State, r: State, tx: Tx, id: Id)
    requires Inv(s, tx.cfg, tx.known) && r == s.(users := s.users - {id}, access := s.access - {id})
    requires UserQuiet(s, id) && AdminKept(s.users, r.users)
    ensures Sound(s, r, tx)
  {
    hide SessionsInv, CodesInv, TokensInv, FamiliesInv, UserQuiet, AdminKept;
    assert NONE !in r.users && r.users.Keys <= tx.known;
    hide Inv, KnownIds;
    UserSound(s, r, tx, id);
  }

  lemma SaveAccessIs(s: State, e: State, m: State, id: Id, a: Access, now: Time)
    requires e == EndApps(s, AppsOfUser(s.apps, id), AccessPolicyChanged, now) && m == RevokeForUser(e, id)
    ensures SaveAccess(s, id, a, now) == m.(access := m.access[id := a])
  {
  }

  lemma QuietAccess(s: State, r: State, id: Id)
    requires r == s.(access := r.access) && UserQuiet(s, id)
    ensures UserQuiet(r, id)
  {
  }

  lemma SaveAccessSound(s: State, tx: Tx, id: Id, a: Access, now: Time)
    requires tx.timely ==> now <= tx.now
    requires Inv(s, tx.cfg, tx.known) && id in s.users
    ensures Sound(s, SaveAccess(s, id, a, now), tx) && UserQuiet(SaveAccess(s, id, a, now), id)
  {
    hide SaveAccess, EndApps, RevokeForUser, Evolves, AppsOfUser, Inv, UserQuiet;
    var e := EndApps(s, AppsOfUser(s.apps, id), AccessPolicyChanged, now);
    var m := RevokeForUser(e, id);
    var r := SaveAccess(s, id, a, now);
    SaveAccessIs(s, e, m, id, a, now);
    EndAppsSound(s, tx, AppsOfUser(s.apps, id), AccessPolicyChanged, now);
    RevokeForUserSound(e, tx, id);
    SoundThen(s, e, m, tx);
    RevokeForUserQuiet(e, id);
    AccessPut(m, r, tx, id);
    SoundThen(s, m, r, tx);
    QuietAccess(m, r, id);
  }

  lemma AccessPut(s: State, r: State, tx: Tx, id: Id)
    requires Inv(s, tx.cfg, tx.known) && r == s.(access := r.access) && UserQuiet(s, id)
    requires forall u :: u != id ==> AccessOf(r, u) == AccessOf(s, u)
    ensures Sound(s, r, tx)
  {
    hide SessionsInv, CodesInv, TokensInv, FamiliesInv, UserQuiet, HasAdmin;
    assert NONE !in r.users && r.users.Keys <= tx.known && AdminKept(s.users, r.users);
    hide Inv, KnownIds, AdminKept;
    UserSound(s, r, tx, id);
  }

  // ---------- Clients ----------

  lemma SaveClientSound(s: State, tx: Tx, id: Id, c: Client, now: Time)
    requires tx.timely ==> now <= tx.now
    requires Inv(s, tx.cfg, tx.known) && id in tx.known
    requires id !in s.clients ==>
               id !in tx.used && NoClientApps(s, id) && forall t <- s.txns :: s.txns[t].clientId != id
    ensures Sound(s, Cascades.SaveClient(s, id, c, now), tx)
  {
    var r := Cascades.SaveClient(s, id, c, now);
    var m := if id in s.clients then PurgeClient(s, id, now) else s;
    hide Inv, Evolves, ClientQuiet, NoClientGrants, NoClientApps, PurgeClient;
    PurgedFirst(s, tx, id, now);
    ClientPut(m, r, tx, id, if id in s.clients then NextRevision(s.clients[id], c) else c);
    SoundThen(s, m, r, tx);
  }

  /** Before a client is saved, nothing issued to it is left. */
  lemma PurgedFirst(s: State, tx: Tx, id: Id, now: Time)
    requires tx.timely ==> now <= tx.now
    requires Inv(s, tx.cfg, tx.known)
    requires id !in s.clients ==> NoClientApps(s, id) && forall t <- s.txns :: s.txns[t].clientId != id
    ensures var m := if id in s.clients then PurgeClient(s, id, now) else s;
            Sound(s, m, tx) && SameGrants(s, m) && ClientOut(m, id)
  {
    hide Sound, ClientQuiet, NoClientGrants, NoClientApps, PurgeClient;
    if id in s.clients {
      hide Inv;
      PurgeClientSound(s, tx, id, now);
    } else {
      NewClientQuiet(s, tx.cfg, id);
      hide Inv;
      SoundStill(s, tx);
    }
  }

  lemma NewClientQuiet(s: State, cfg: Config, id: Id)
    requires TokensInv(s, cfg) && FamiliesInv(s, cfg) && CodesInv(s) && id !in s.clients
             && forall t <- s.txns :: s.txns[t].clientId != id
    ensures ClientQuiet(s, id) && NoClientGrants(s, id)
  {
  }

  lemma ClientPut(s: State, r: State, tx: Tx, id: Id, c: Client)
    requires Inv(s, tx.cfg, tx.known) && r == s.(clients := s.clients[id := c]) && id in tx.known
    requires ClientQuiet(s, id) && NoClientGrants(s, id) && NoClientApps(s, id)
    requires if id in s.clients then s.clients[id].updatedAt < c.updatedAt else id !in tx.used
    ensures Sound(s, r, tx)
  {
    hide SessionsInv, CodesInv, TokensInv, FamiliesInv, ClientQuiet, NoClientGrants, NoClientApps;
    assert r.clients.Keys <= tx.known && ClientsEvolve(s.clients, r.clients, tx.used);
    hide Inv, KnownIds, ClientsEvolve;
    ClientSound(s, r, tx, id);
  }

  lemma DeleteClientIs(s: State, id: Id, now: Time)
    ensures var m := PurgeClient(s, id, now);
            Cascades.DeleteClient(s, id, now) == m.(policies := s.policies - {id}, clients := s.clients - {id})
  {
  }

  lemma DeleteClientSound(s: State, tx: Tx, id: Id, now: Time)
    requires tx.timely ==> now <= tx.now
    requires Inv(s, tx.cfg, tx.known)
    ensures Sound(s, Cascades.DeleteClient(s, id, now), tx)
  {
    var m := PurgeClient(s, id, now);
    var r := Cascades.DeleteClient(s, id, now);
    DeleteClientIs(s, id, now);
    hide PurgeClient, Evolves, Cascades.DeleteClient, ClientQuiet, NoClientGrants, NoClientApps;
    assert Sound(s, m, tx) && SameGrants(s, m) && ClientQuiet(m, id) && NoClientGrants(m, id)
           && NoClientApps(m, id) by {
      hide Inv;
      PurgeClientSound(s, tx, id, now);
    }
    ClientRemoved(m, r, tx, id);
    hide Inv;
    SoundThen(s, m, r, tx);
  }

  lemma ClientRemoved(s: State, r: State, tx: Tx, id: Id)
    requires Inv(s, tx.cfg, tx.known) && r == s.(policies := s.policies - {id}, clients := s.clients - {id})
    requires ClientQuiet(s, id) && NoClientGrants(s, id) && NoClientApps(s, id)
    ensures Sound(s, r, tx)
  {
    hide SessionsInv, CodesInv, TokensInv, FamiliesInv, ClientQuiet, NoClientGrants, NoClientApps;
    assert r.clients.Keys <= tx.known && ClientsEvolve(s.clients, r.clients, tx.used);
    hide Inv, KnownIds, ClientsEvolve;
    ClientSound(s, r, tx, id);
  }

  lemma SavePolicyIs(s: State, id: Id, p: Policy, now: Time)
    ensures SavePolicy(s, id, p, now) == PurgeClient(s, id, now).(policies := s.policies[id := p])
  {
  }

  lemma SavePolicySound(s: State, tx: Tx, id: Id, p: Policy, now: Time)
    requires tx.timely ==> now <= tx.now
    requires Inv(s, tx.cfg, tx.known)
    ensures Sound(s, SavePolicy(s, id, p, now), tx)
  {
    var m := PurgeClient(s, id, now);
    var r := SavePolicy(s, id, p, now);
    SavePolicyIs(s, id, p, now);
    hide PurgeClient, Evolves, SavePolicy, ClientQuiet, NoClientGrants, NoClientApps;
    assert Sound(s, m, tx) && SameGrants(s, m) && ClientQuiet(m, id) && NoClientGrants(m, id)
           && NoClientApps(m, id) by {
      hide Inv;
      PurgeClientSound(s, tx, id, now);
    }
    PolicyPut(m, r, tx, id);
    hide Inv;
    SoundThen(s, m, r, tx);
  }

  lemma PolicyPut(s: State, r: State, tx: Tx, id: Id)
    requires Inv(s, tx.cfg, tx.known) && r == s.(policies := r.policies)
    requires ClientQuiet(s, id) && NoClientGrants(s, id) && NoClientApps(s, id)
    requires forall c :: c != id ==> PolicyOf(r, c) == PolicyOf(s, c)
    ensures Sound(s, r, tx)
  {
    hide SessionsInv, CodesInv, TokensInv, FamiliesInv, ClientQuiet, NoClientGrants, NoClientApps;
    assert r.clients.Keys <= tx.known && ClientsEvolve(s.clients, r.clients, tx.used);
    hide Inv, KnownIds, ClientsEvolve;
    ClientSound(s, r, tx, id);
  }

  // ---------- Consents ----------

  lemma GrantRevoked(s: State, k: ConsentKey, now: Time)
    ensures var r := RevokeConsentGrants(s, k, now);
            && SameGrants(s, r)
            && (forall f <- r.families ::
                  r.families[f].userId == k.userId && r.families[f].clientId == k.clientId ==> r.families[f].revoked)
            && (forall a <- r.apps ::
                  r.apps[a].userId == k.userId && r.apps[a].clientId == k.clientId ==> r.apps[a].endedAt.Some?)
  {
  }

  lemma RevokeConsentSound(s: State, tx: Tx, k: ConsentKey, now: Time)
    requires tx.timely ==> now <= tx.now
    requires Inv(s, tx.cfg, tx.known)
    ensures Sound(s, RevokeConsentGrants(s, k, now), tx)
  {
    var e := EndApps(s, AppsOfGrant(s.apps, k.userId, k.clientId), AccessRevoked, now);
    assert RevokeConsentGrants(s, k, now) == RevokeGrants(e, FamiliesOfGrant(s.families, k.userId, k.clientId), {});
    hide Inv, Evolves, EndApps, RevokeGrants, RevokeConsentGrants;
    EndAppsSound(s, tx, AppsOfGrant(s.apps, k.userId, k.clientId), AccessRevoked, now);
    RevokeSound(e, tx, FamiliesOfGrant(s.families, k.userId, k.clientId), {});
    SoundThen(s, e, RevokeConsentGrants(s, k, now), tx);
  }

  lemma SaveConsentSound(s: State, tx: Tx, k: ConsentKey, c: Consent, now: Time)
    requires tx.timely ==> now <= tx.now
    requires Inv(s, tx.cfg, tx.known) && k.clientId in s.clients && s.clients[k.clientId].updatedAt == c.policyRevision
    ensures Sound(s, Cascades.SaveConsent(s, k, c, now), tx)
  {
    var m := if c.revoked then RevokeConsentGrants(s, k, now) else s;
    var r := Cascades.SaveConsent(s, k, c, now);
    GrantRevoked(s, k, now);
    hide Inv, Evolves, RevokeConsentGrants;
    if c.revoked {
      RevokeConsentSound(s, tx, k, now);
    } else {
      SoundStill(s, tx);
    }
    ConsentSound(m, r, tx, k, c);
    SoundThen(s, m, r, tx);
  }
}
