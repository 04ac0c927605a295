/** The file-backed store's in-memory state and its mutators (internal/identity/file_store.go,
    internal/identity/sessions.go, internal/identity/oauth_store.go). Every loop ranges over a Go map in
    an order the program does not control: it takes an arbitrary key each time round, and is proved
    equal to a closed form of `Cascades`. All clock reads of one transaction return the same `now`. */
module Store {
  import opened Records
  import opened Cascades

  class FileState {
    var sessions: map<Id, Session>
    var apps: map<Id, App>
    var deliveries: map<DeliveryId, Delivery>
    var interactions: map<Id, Interaction>
    var operations: map<Id, Time>
    var policies: map<Id, Policy>
    var access: map<Id, Access>
    var families: map<Id, Family>
    var refreshes: map<Id, Refresh>
    var clients: map<Id, Client>
    var users: map<Id, User>
    var txns: map<Id, Txn>
    var codes: map<Id, Code>
    var tokens: map<Id, Token>
    var consents: map<ConsentKey, Consent>

    function Abs(): State
      reads this
    {
      State(sessions, apps, deliveries, interactions, operations, policies, access, families, refreshes, clients, users,
            txns, codes, tokens, consents)
    }

    constructor ()
      ensures Abs() == FRESH_STATE
    {
      sessions, apps, deliveries, interactions, operations := map[], map[], map[], map[], map[];
      policies, access, families, refreshes, clients := map[], map[], map[], map[], map[];
      users, txns, codes, tokens, consents := map[], map[], map[], map[], map[];
    }

    /** A transaction whose callback fails is not written back: the state is again what was read. */
    method Rollback(s: State)
      modifies this
      ensures Abs() == s
    {
      RollbackGrants(s);
      sessions, apps, deliveries, interactions, operations := s.sessions, s.apps, s.deliveries, s.interactions,
                                                              s.operations;
      policies, access := s.policies, s.access;
    }

    method RollbackGrants(s: State)
      modifies `families, `refreshes, `clients, `users, `txns, `codes, `tokens, `consents
      ensures families == s.families && refreshes == s.refreshes && clients == s.clients && users == s.users
      ensures txns == s.txns && codes == s.codes && tokens == s.tokens && consents == s.consents
    {
      families, refreshes, clients, users := s.families, s.refreshes, s.clients, s.users;
      txns, codes, tokens, consents := s.txns, s.codes, s.tokens, s.consents;
    }

    // ---------- Saving one record ----------

    method SaveSession(hash: Id, r: Session)
      modifies this
      ensures Abs() == old(Abs()).(sessions := old(Abs()).sessions[hash := r])
    {
      sessions := sessions[hash := r];
    }

    method SaveAppSession(id: Id, a: App)
      modifies this
      ensures Abs() == old(Abs()).(apps := old(Abs()).apps[id := a])
    {
      apps := apps[id := a];
    }

    method SaveLogoutDelivery(id: DeliveryId, d: Delivery)
      modifies this
      ensures Abs() == old(Abs()).(deliveries := old(Abs()).deliveries[id := d])
    {
      deliveries := deliveries[id := d];
    }

    method SaveAuthzTransaction(id: Id, t: Txn)
      modifies this
      ensures Abs() == old(Abs()).(txns := old(Abs()).txns[id := t])
    {
      txns := txns[id := t];
    }

    method SaveAuthorizationCode(hash: Id, c: Code)
      modifies this
      ensures Abs() == old(Abs()).(codes := old(Abs()).codes[hash := c])
    {
      codes := codes[hash := c];
    }

    method SaveAccessToken(hash: Id, t: Token)
      modifies this
      ensures Abs() == old(Abs()).(tokens := old(Abs()).tokens[hash := t])
    {
      tokens := tokens[hash := t];
    }

    method SaveRefreshToken(hash: Id, t: Refresh)
      modifies this
      ensures Abs() == old(Abs()).(refreshes := old(Abs()).refreshes[hash := t])
    {
      refreshes := refreshes[hash := t];
    }

    method SaveLogoutInteraction(id: Id, v: Interaction)
      modifies this
      ensures Abs() == old(Abs()).(interactions := old(Abs()).interactions[id := v])
    {
      interactions := interactions[id := v];
    }

    method SaveLogoutOperation(id: Id, createdAt: Time)
      modifies this
      ensures Abs() == old(Abs()).(operations := old(Abs()).operations[id := createdAt])
    {
      operations := operations[id := createdAt];
    }

    // ---------- Loops over one map ----------
    //
    // Each ranges over its map and flags the entries its condition selects; `selected` is the set of
    // those entries.

    method RevokeTokens(selected: set<Id>)
      modifies this
      ensures Abs() == old(Abs()).(tokens := TokensRevoked(old(Abs()).tokens, {}, selected))
    {
      MarkTokens(selected);
    }

    method MarkTokens(selected: set<Id>)
      modifies `tokens
      ensures tokens == TokensRevoked(old(tokens), {}, selected)
    {
      hide TokensRevoked;
      var todo := tokens.Keys;
      ghost var done := {};
      TokensMarkNone(tokens);
      while todo != {}
        invariant todo <= old(tokens).Keys
        invariant done == (old(tokens).Keys - todo) * selected
        invariant tokens == TokensRevoked(old(tokens), {}, done)
      {
        SomeElement(todo);
        var h :| h in todo;
        todo := todo - {h};
        if h in selected {
          TokensMarkOne(old(tokens), tokens, done, h);
          tokens := tokens[h := tokens[h].(revoked := true)];
          done := done + {h};
        }
      }
      TokensMarkStored(old(tokens), done, selected);
    }

    method RevokeCodes(selected: set<Id>)
      modifies this
      ensures Abs() == old(Abs()).(codes := CodesMarked(old(Abs()).codes, selected))
    {
      MarkCodes(selected);
    }

    method MarkCodes(selected: set<Id>)
      modifies `codes
      ensures codes == CodesMarked(old(codes), selected)
    {
      hide CodesMarked;
      var todo := codes.Keys;
      ghost var done := {};
      CodesMarkNone(codes);
      while todo != {}
        invariant todo <= old(codes).Keys
        invariant done == (old(codes).Keys - todo) * selected
        invariant codes == CodesMarked(old(codes), done)
      {
        SomeElement(todo);
        var h :| h in todo;
        todo := todo - {h};
        if h in selected {
          CodesMarkOne(old(codes), codes, done, h);
          codes := codes[h := codes[h].(revoked := true)];
          done := done + {h};
        }
      }
      CodesMarkStored(old(codes), done, selected);
    }

    method RevokeTxns(selected: set<Id>)
      modifies this
      ensures Abs() == old(Abs()).(txns := TxnsMarked(old(Abs()).txns, selected))
    {
      MarkTxns(selected);
    }

    method MarkTxns(selected: set<Id>)
      modifies `txns
      ensures txns == TxnsMarked(old(txns), selected)
    {
      hide TxnsMarked;
      var todo := txns.Keys;
      ghost var done := {};
      TxnsMarkNone(txns);
      while todo != {}
        invariant todo <= old(txns).Keys
        invariant done == (old(txns).Keys - todo) * selected
        invariant txns == TxnsMarked(old(txns), done)
      {
        SomeElement(todo);
        var h :| h in todo;
        todo := todo - {h};
        if h in selected {
          TxnsMarkOne(old(txns), txns, done, h);
          txns := txns[h := txns[h].(revoked := true)];
          done := done + {h};
        }
      }
      TxnsMarkStored(old(txns), done, selected);
    }

    // ---------- Revocation ----------

    method RevokeAccessToken(hash: Id)
      modifies this
      ensures Abs() == RevokeToken(old(Abs()), hash)
    {
      if hash in tokens {
        tokens := tokens[hash := tokens[hash].(revoked := true)];
      }
      RevokeOneToken(old(Abs()), hash);
    }

    method SaveRefreshFamily(id: Id, f: Family)
      modifies this
      ensures Abs() == old(Abs()).(families := old(Abs()).families[id := f])
    {
      families := families[id := f];
    }

    method RevokeRefreshFamily(id: Id)
      modifies this
      ensures Abs() == RevokeFamily(old(Abs()), id)
    {
      hide *;
      var s := Abs();
      if id !in s.families {
        RevokeUnknownFamily(s, id);
        return;
      }
      SaveRefreshFamily(id, s.families[id].(revoked := true));
      RevokeTokens(TokensOfFamily(s.tokens, id));
      RevokeOneFamily(s, id);
    }

    /** The two loops of revocation for a user, a client or a code. */
    method RevokeSelected(selectedFamilies: set<Id>, selectedTokens: set<Id>)
      modifies this
      ensures Abs() == RevokeGrants(old(Abs()), selectedFamilies, selectedTokens)
    {
      hide *;
      var todo := selectedFamilies;
      ghost var was := Abs();
      ghost var done := {};
      RevokeNone(was);
      while todo != {}
        invariant todo <= selectedFamilies
        invariant done == selectedFamilies - todo
        invariant Abs() == RevokeGrants(was, done, {})
      {
        SomeElement(todo);
        var f :| f in todo;
        todo := todo - {f};
        RevokeRefreshFamily(f);
        RevokeAnother(was, done, f);
        done := done + {f};
      }
      assert done == selectedFamilies;
      ghost var mid := Abs();
      RevokeTokens(selectedTokens);
      RevokeBoth(was, mid, selectedFamilies, selectedTokens);
    }

    method RevokeAccessTokensForUser(user: Id)
      modifies this
      ensures Abs() == RevokeForUser(old(Abs()), user)
    {
      var s := Abs();
      RevokeSelected(FamiliesOfUser(s.families, user), TokensOfUser(s.tokens, user));
    }

    method RevokeAccessTokensForClient(client: Id)
      modifies this
      ensures Abs() == RevokeForClient(old(Abs()), client)
    {
      var s := Abs();
      RevokeSelected(FamiliesOfClient(s.families, client), TokensOfClient(s.tokens, client));
    }

    method RevokeAccessTokensForCode(code: Id)
      modifies this
      ensures Abs() == RevokeForCode(old(Abs()), code)
    {
      var s := Abs();
      RevokeSelected(FamiliesOfCode(s.families, code), TokensOfCode(s.tokens, code));
    }

    // ---------- Ending sessions ----------

    method QueueNotices(id: Id, a: App, reason: Reason, now: Time)
      modifies this
      ensures Abs() == old(Abs()).(deliveries := old(Abs()).deliveries
                                                   + Notices(old(Abs()).clients, map[id := a], {id}, reason, now))
    {
      deliveries := NoticesOnto(deliveries, clients, id, a, reason, now);
    }

    method EndAppSession(id: Id, reason: Reason, now: Time)
      modifies this
      ensures Abs() == EndApps(old(Abs()), {id}, reason, now)
      ensures id in old(Abs()).apps && old(Abs()).apps[id].endedAt.None? ==>
                Queued(Abs().deliveries, old(Abs()).clients, id, old(Abs()).apps[id], reason, now)
    {
      hide *;
      var s := Abs();
      if id !in s.apps || s.apps[id].endedAt.Some? {
        EndIgnored(s, id, reason, now);
        return;
      }
      var a := s.apps[id];
      SaveAppSession(id, EndedApp(a, reason, now));
      RevokeTokens(OnlineTokens(s.tokens, id));
      RevokeCodes(CodesLinking(s.codes, a.opSessionId, a.clientId));
      RevokeTxns(TxnsLinking(s.txns, a.opSessionId, a.clientId));
      QueueNotices(id, a, reason, now);
      EndOne(s, id, reason, now);
      EndingQueues(s, {id}, reason, now, id);
    }

    /** A loop that ends every app session its condition selects. */
    method EndSelectedApps(selected: set<Id>, reason: Reason, now: Time)
      modifies this
      ensures Abs() == EndApps(old(Abs()), selected, reason, now)
    {
      hide *;
      var todo := selected;
      ghost var was := Abs();
      ghost var done := {};
      EndAppsNone(was, reason, now);
      while todo != {}
        invariant todo <= selected
        invariant done == selected - todo
        invariant Abs() == EndApps(was, done, reason, now)
      {
        SomeElement(todo);
        var a :| a in todo;
        todo := todo - {a};
        EndAppSession(a, reason, now);
        EndAppsUnion(was, done, {a}, reason, now);
        done := done + {a};
      }
      assert done == selected;
    }

    /** The body of `EndSession`'s loop for one live row. */
    method EndRow(hash: Id, reason: Reason, now: Time)
      requires hash in Abs().sessions && Abs().sessions[hash].endedAt.None?
      modifies this
      ensures Abs() == EndRows(old(Abs()), {hash}, reason, now)
    {
      hide *;
      var s := Abs();
      var id := s.sessions[hash].id;
      SaveSession(hash, EndedSession(s.sessions[hash], reason, now));
      SaveLogoutDelivery(OpNotice(id), OpDelivery(id, reason, now));
      ghost var s0 := Abs();
      EndSelectedApps(AppsOfSessions(s.apps, {id}), reason, now);
      var s1 := Abs();
      RevokeTxns(TxnsBound(s1.txns, id));
      RevokeCodes(CodesBound(s1.codes, id));
      EndOneRow(s, s0, s1, hash, reason, now);
    }

    method EndSession(id: Id, reason: Reason, now: Time)
      modifies this
      ensures Abs() == EndSessions(old(Abs()), {id}, reason, now)
    {
      hide EndRows, Abs;
      ghost var was := Abs();
      var todo := Abs().sessions.Keys;
      ghost var done := {};
      EndRowsNone(was, reason, now);
      while todo != {}
        invariant todo <= was.sessions.Keys
        invariant done == RowsWithIds(was.sessions, {id}) - todo
        invariant Abs() == EndRows(was, done, reason, now)
      {
        SomeElement(todo);
        var h :| h in todo;
        todo := todo - {h};
        var s := Abs();
        SameRows(was, done, reason, now);
        if s.sessions[h].id == id {
          if s.sessions[h].endedAt.None? {
            EndRow(h, reason, now);
          } else {
            EndDeadRow(s, h, reason, now);
          }
          EndRowsUnion(was, done, {h}, reason, now);
          done := done + {h};
        }
      }
      assert done == RowsWithIds(was.sessions, {id});
    }

    method DeleteUserSessions(user: Id, now: Time)
      modifies this
      ensures Abs() == PurgeUser(old(Abs()), user, now)
    {
      hide *;
      var s := Abs();
      RevokeAccessTokensForUser(user);
      DropGrants(CodesOfUser(s.codes, user), TxnsOfUser(s.txns, user), ConsentsOfUser(s.consents, user));
      PurgeUserIs(s, user, now);
      EndSelectedSessions(SessionIdsOfUser(s.sessions, user), SecurityChange, now);
    }

    /** The three loops that delete codes, transactions and consents. */
    method DropGrants(selectedCodes: set<Id>, selectedTxns: set<Id>, selectedConsents: set<ConsentKey>)
      modifies this
      ensures Abs() == old(Abs()).(codes := old(Abs()).codes - selectedCodes, txns := old(Abs()).txns - selectedTxns,
                                   consents := old(Abs()).consents - selectedConsents)
    {
      codes := Without(codes, selectedCodes);
      txns := Without(txns, selectedTxns);
      consents := Without(consents, selectedConsents);
    }

    /** A loop that ends every logical session its condition selects. */
    method EndSelectedSessions(selected: set<Id>, reason: Reason, now: Time)
      modifies this
      ensures Abs() == EndSessions(old(Abs()), selected, reason, now)
    {
      hide *;
      var todo := selected;
      ghost var was := Abs();
      ghost var done := {};
      EndSessionsNone(was, reason, now);
      while todo != {}
        invariant todo <= selected
        invariant done == selected - todo
        invariant Abs() == EndSessions(was, done, reason, now)
      {
        SomeElement(todo);
        var id :| id in todo;
        todo := todo - {id};
        EndSession(id, reason, now);
        EndSessionsUnion(was, done, {id}, reason, now);
        done := done + {id};
      }
      assert done == selected;
    }

    method PruneSessions(now: Time)
      modifies this
      ensures Abs() == Cascades.PruneSessions(old(Abs()), now)
    {
      EndSelectedSessions(ExpiredIds(Abs().sessions, now), Expired, now);
    }

    method PruneLogoutState(now: Time)
      modifies this
      ensures Abs() == Cascades.PruneLogoutState(old(Abs()), now)
    {
      hide *;
      ghost var s := Abs();
      PruneSessions(now);
      ghost var s1 := Abs();
      DropStaleEvents(now);
      DropStaleSessions(now);
      PruneLogoutStateIs(s, s1, now);
    }

    method DropStaleEvents(now: Time)
      modifies this
      ensures var s := old(Abs());
              Abs() == s.(operations := s.operations - StaleOperations(s.operations, now),
                          interactions := s.interactions - ExpiredInteractions(s.interactions, now),
                          deliveries := s.deliveries - StaleDeliveries(s.deliveries, now))
    {
      hide StaleOperations, ExpiredInteractions, StaleDeliveries;
      operations := Without(operations, StaleOperations(operations, now));
      interactions := Without(interactions, ExpiredInteractions(interactions, now));
      deliveries := Without(deliveries, StaleDeliveries(deliveries, now));
    }

    method DropStaleSessions(now: Time)
      modifies this
      ensures var s := old(Abs());
              Abs() == s.(apps := s.apps - StaleApps(s.apps, now),
                          sessions := s.sessions - StaleSessions(s.sessions, now))
    {
      hide StaleApps, StaleSessions;
      apps := Without(apps, StaleApps(apps, now));
      sessions := Without(sessions, StaleSessions(sessions, now));
    }

    method RemoveSessionCredential(hash: Id)
      modifies this
      ensures Abs() == old(Abs()).(sessions := old(Abs()).sessions - {hash})
    {
      sessions := sessions - {hash};
    }

    // ---------- Users, clients, policies, consents ----------

    method PutUser(id: Id, user: User)
      modifies this
      ensures Abs() == old(Abs()).(users := old(Abs()).users[id := user])
    {
      users := users[id := user];
    }

    method SaveUser(id: Id, user: User, now: Time) returns (ok: bool)
      modifies this
      ensures ok == Cascades.SaveUser(old(Abs()), id, user, now).Some?
      ensures Abs() == if ok then Cascades.SaveUser(old(Abs()), id, user, now).value else old(Abs())
    {
      hide EmailTaken, SecurityRelevant, PurgeUser, Abs;
      var s := Abs();
      ok := !EmailTaken(s.users, id, user.email);
      if ok {
        if id in s.users && SecurityRelevant(s.users[id], user) {
          DeleteUserSessions(id, now);
        }
        PutUser(id, user);
      }
    }

    method RemoveUser(id: Id)
      modifies this
      ensures Abs() == old(Abs()).(users := old(Abs()).users - {id}, access := old(Abs()).access - {id})
    {
      users := users - {id};
      access := access - {id};
    }

    method DeleteUser(id: Id, now: Time)
      modifies this
      ensures Abs() == Cascades.DeleteUser(old(Abs()), id, now)
    {
      hide PurgeUser, Abs;
      RemoveUser(id);
      DeleteUserSessions(id, now);
    }

    method InvalidateClientGrants(client: Id, now: Time)
      modifies this
      ensures Abs() == PurgeClient(old(Abs()), client, now)
    {
      hide *;
      var s := Abs();
      EndSelectedApps(AppsOfClient(s.apps, client), ClientChanged, now);
      RevokeAccessTokensForClient(client);
      var s1 := Abs();
      DropGrants(CodesOfClient(s1.codes, client), TxnsOfClient(s1.txns, client), ConsentsOfClient(s1.consents, client));
      PurgeClientIs(s, s1, client, now);
    }

    method PutClient(id: Id, c: Client)
      modifies this
      ensures Abs() == old(Abs()).(clients := old(Abs()).clients[id := c])
    {
      clients := clients[id := c];
    }

    method SaveClient(id: Id, c: Client, now: Time)
      modifies this
      ensures Abs() == Cascades.SaveClient(old(Abs()), id, c, now)
    {
      hide PurgeClient, NextRevision, Abs;
      var s := Abs();
      if id in s.clients {
        InvalidateClientGrants(id, now);
        PutClient(id, NextRevision(s.clients[id], c));
      } else {
        PutClient(id, c);
      }
    }

    method RemovePolicy(id: Id)
      modifies this
      ensures Abs() == old(Abs()).(policies := old(Abs()).policies - {id})
    {
      policies := policies - {id};
    }

    method RemoveClient(id: Id)
      modifies this
      ensures Abs() == old(Abs()).(clients := old(Abs()).clients - {id})
    {
      clients := clients - {id};
    }

    method DeleteClient(id: Id, now: Time)
      modifies this
      ensures Abs() == Cascades.DeleteClient(old(Abs()), id, now)
    {
      hide PurgeClient, Abs;
      RemovePolicy(id);
      InvalidateClientGrants(id, now);
      RemoveClient(id);
    }

    method PutPolicy(id: Id, p: Policy)
      modifies this
      ensures Abs() == old(Abs()).(policies := old(Abs()).policies[id := p])
    {
      policies := policies[id := p];
    }

    method SaveOAuthPolicy(id: Id, p: Policy, now: Time)
      modifies this
      ensures Abs() == SavePolicy(old(Abs()), id, p, now)
    {
      hide PurgeClient, Abs;
      PutPolicy(id, p);
      InvalidateClientGrants(id, now);
    }

    method PutAccess(id: Id, a: Access)
      modifies this
      ensures Abs() == old(Abs()).(access := old(Abs()).access[id := a])
    {
      access := access[id := a];
    }

    method SaveOAuthAccess(id: Id, a: Access, now: Time)
      modifies this
      ensures Abs() == SaveAccess(old(Abs()), id, a, now)
    {
      hide EndApps, RevokeForUser, AppsOfUser, Abs;
      PutAccess(id, a);
      EndSelectedApps(AppsOfUser(Abs().apps, id), AccessPolicyChanged, now);
      RevokeAccessTokensForUser(id);
    }

    method PutConsent(k: ConsentKey, c: Consent)
      modifies this
      ensures Abs() == old(Abs()).(consents := old(Abs()).consents[k := c])
    {
      consents := consents[k := c];
    }

    method SaveConsent(k: ConsentKey, c: Consent, now: Time)
      modifies this
      ensures Abs() == Cascades.SaveConsent(old(Abs()), k, c, now)
    {
      hide EndApps, RevokeGrants, AppsOfGrant, FamiliesOfGrant, Abs;
      var s := Abs();
      if c.revoked {
        EndSelectedApps(AppsOfGrant(s.apps, k.userId, k.clientId), AccessRevoked, now);
        RevokeFamilies(FamiliesOfGrant(s.families, k.userId, k.clientId));
      }
      PutConsent(k, c);
    }

    method RevokeFamilies(selected: set<Id>)
      modifies this
      ensures Abs() == RevokeGrants(old(Abs()), selected, {})
    {
      RevokeSelected(selected, {});
    }

    method PruneOIDCState(now: Time)
      modifies this
      ensures Abs() == PruneGrants(old(Abs()), now)
    {
      hide *;
      ghost var s := Abs();
      PruneFamilies(now);
      PruneCredentials(now);
      PruneGrantsIs(s, now);
    }

    method PruneFamilies(now: Time)
      modifies this
      ensures var s := old(Abs());
              Abs() == s.(families := s.families - ExpiredFamilies(s.families, now),
                          refreshes := s.refreshes - RefreshesOf(s.refreshes, ExpiredFamilies(s.families, now)))
    {
      hide ExpiredFamilies, RefreshesOf;
      var gone := ExpiredFamilies(families, now);
      families := Without(families, gone);
      refreshes := Without(refreshes, RefreshesOf(refreshes, gone));
    }

    method PruneCredentials(now: Time)
      modifies this
      ensures var s := old(Abs());
              Abs() == s.(txns := s.txns - ExpiredTxns(s.txns, now), codes := s.codes - ExpiredCodes(s.codes, now),
                          tokens := s.tokens - ExpiredTokens(s.tokens, now))
    {
      hide ExpiredTxns, ExpiredCodes, ExpiredTokens;
      txns := Without(txns, ExpiredTxns(txns, now));
      codes := Without(codes, ExpiredCodes(codes, now));
      tokens := Without(tokens, ExpiredTokens(tokens, now));
    }
  }

  /** A loop that deletes the entries its condition selects. */
  method Without<K(==), V>(m: map<K, V>, selected: set<K>) returns (r: map<K, V>)
    ensures r == m - selected
  {
    r := m;
    var todo := m.Keys;
    while todo != {}
      invariant todo <= m.Keys
      invariant r == m - ((m.Keys - todo) * selected)
    {
      var k :| k in todo;
      todo := todo - {k};
      if k in selected {
        r := r - {k};
      }
    }
  }

  /** The loop over the two notification channels. */
  method NoticesOnto(
    ds: map<DeliveryId, Delivery>, clients: map<Id, Client>, id: Id, a: App, reason: Reason, now: Time)
    returns (r: map<DeliveryId, Delivery>)
    ensures r == ds + Notices(clients, map[id := a], {id}, reason, now)
  {
    hide Notices, ChannelNotices, AppDelivery, EndpointFor;
    r := ds;
    var supported := false;
    var channels := [Backchannel, Frontchannel];
    ghost var done: set<Channel> := {};
    NoChannelNotices(ds, clients, id, a, reason, now);
    for i := 0 to 2
      invariant done == set c | c in channels[..i]
      invariant supported == exists c <- done :: EndpointFor(clients, a.clientId, c) != NONE
      invariant r == ds + ChannelNotices(clients, id, a, done, reason, now)
    {
      var channel := channels[i];
      NextChannel(ds, clients, id, a, done, channel, reason, now);
      if EndpointFor(clients, a.clientId, channel) != NONE {
        supported := true;
        r := r[AppNotice(id, channel) := AppDelivery(clients, a, channel, reason, now)];
      }
      assert channels[..i + 1] == channels[..i] + [channel];
      done := done + {channel};
    }
    assert channels[..2] == [Backchannel, Frontchannel];
    assert done == {Backchannel, Frontchannel};
    if !supported {
      r := r[AppNotice(id, NoChannel) := AppDelivery(clients, a, NoChannel, reason, now)];
    }
    LastChannel(ds, clients, id, a, reason, now);
  }

  ghost function ChannelNotices(
    clients: map<Id, Client>, id: Id, a: App, channels: set<Channel>, reason: Reason,
    now: Time): map<DeliveryId, Delivery>
  {
    map d | d in NoticeIds({id}) && d.AppNotice? && d.channel in channels && Notified(clients, a.clientId, d.channel) ::
      AppDelivery(clients, a, d.channel, reason, now)
  }

  lemma NoChannelNotices(
    ds: map<DeliveryId, Delivery>, clients: map<Id, Client>, id: Id, a: App, reason: Reason, now: Time)
    ensures ds + ChannelNotices(clients, id, a, {}, reason, now) == ds
  {
  }

  lemma NextChannel(
    ds: map<DeliveryId, Delivery>, clients: map<Id, Client>, id: Id, a: App, done: set<Channel>, channel: Channel,
    reason: Reason, now: Time)
    requires channel.Backchannel? || channel.Frontchannel?
    ensures var r := ds + ChannelNotices(clients, id, a, done, reason, now);
            ds + ChannelNotices(clients, id, a, done + {channel}, reason, now) ==
              if EndpointFor(clients, a.clientId, channel) != NONE then
                r[AppNotice(id, channel) := AppDelivery(clients, a, channel, reason, now)]
              else r
  {
  }

  lemma LastChannel(ds: map<DeliveryId, Delivery>, clients: map<Id, Client>, id: Id, a: App, reason: Reason, now: Time)
    ensures var r := ds + ChannelNotices(clients, id, a, {Backchannel, Frontchannel}, reason, now);
            var supported := EndpointFor(clients, a.clientId, Backchannel) != NONE
                             || EndpointFor(clients, a.clientId, Frontchannel) != NONE;
            ds + Notices(clients, map[id := a], {id}, reason, now) ==
              if supported then r else r[AppNotice(id, NoChannel) := AppDelivery(clients, a, NoChannel, reason, now)]
  {
    NoticesOfOne(clients, id, a, reason, now);
    hide AppDelivery, EndpointFor, Notices, ChannelNotices;
    var on, both := Notices(clients, map[id := a], {id}, reason, now),
                    ChannelNotices(clients, id, a, {Backchannel, Frontchannel}, reason, now);
    if Notified(clients, a.clientId, NoChannel) {
      assert on == both[AppNotice(id, NoChannel) := AppDelivery(clients, a, NoChannel, reason, now)];
    } else {
      assert on == both;
    }
  }

  lemma NoticesOfOne(clients: map<Id, Client>, id: Id, a: App, reason: Reason, now: Time)
    ensures var on, both := Notices(clients, map[id := a], {id}, reason, now),
                            ChannelNotices(clients, id, a, {Backchannel, Frontchannel}, reason, now);
            && AppNotice(id, NoChannel) !in both
            && (forall d :: d in on <==>
                  d in both || (d == AppNotice(id, NoChannel) && Notified(clients, a.clientId, NoChannel)))
            && forall d <- on :: on[d] == if d in both then both[d] else AppDelivery(clients, a, NoChannel, reason, now)
  {
    hide AppDelivery, EndpointFor;
  }

  // ---------- One step of a loop, on the closed forms ----------

  lemma TokensMarkNone(tokens: map<Id, Token>)
    ensures TokensRevoked(tokens, {}, {}) == tokens
  {
  }

  lemma TokensMarkOne(tokens: map<Id, Token>, marked: map<Id, Token>, done: set<Id>, h: Id)
    requires h in tokens && marked == TokensRevoked(tokens, {}, done)
    ensures h in marked && marked[h := marked[h].(revoked := true)] == TokensRevoked(tokens, {}, done + {h})
  {
  }

  lemma TokensMarkStored(tokens: map<Id, Token>, done: set<Id>, selected: set<Id>)
    requires done == tokens.Keys * selected
    ensures TokensRevoked(tokens, {}, done) == TokensRevoked(tokens, {}, selected)
  {
  }

  lemma CodesMarkNone(codes: map<Id, Code>)
    ensures CodesMarked(codes, {}) == codes
  {
  }

  lemma CodesMarkOne(codes: map<Id, Code>, marked: map<Id, Code>, done: set<Id>, h: Id)
    requires h in codes && marked == CodesMarked(codes, done)
    ensures h in marked && marked[h := marked[h].(revoked := true)] == CodesMarked(codes, done + {h})
  {
  }

  lemma CodesMarkStored(codes: map<Id, Code>, done: set<Id>, selected: set<Id>)
    requires done == codes.Keys * selected
    ensures CodesMarked(codes, done) == CodesMarked(codes, selected)
  {
  }

  lemma TxnsMarkNone(txns: map<Id, Txn>)
    ensures TxnsMarked(txns, {}) == txns
  {
  }

  lemma TxnsMarkOne(txns: map<Id, Txn>, marked: map<Id, Txn>, done: set<Id>, h: Id)
    requires h in txns && marked == TxnsMarked(txns, done)
    ensures h in marked && marked[h := marked[h].(revoked := true)] == TxnsMarked(txns, done + {h})
  {
  }

  lemma TxnsMarkStored(txns: map<Id, Txn>, done: set<Id>, selected: set<Id>)
    requires done == txns.Keys * selected
    ensures TxnsMarked(txns, done) == TxnsMarked(txns, selected)
  {
  }

  lemma RevokeNone(s: State)
    ensures RevokeGrants(s, {}, {}) == s
  {
  }

  lemma RevokeAnother(s: State, done: set<Id>, f: Id)
    ensures RevokeFamily(RevokeGrants(s, done, {}), f) == RevokeGrants(s, done + {f}, {})
  {
  }

  lemma RevokeOneToken(s: State, hash: Id)
    ensures RevokeToken(s, hash) == if hash in s.tokens then
                                      s.(tokens := s.tokens[hash := s.tokens[hash].(revoked := true)])
                                    else s
  {
  }

  lemma RevokeUnknownFamily(s: State, id: Id)
    requires id !in s.families
    ensures RevokeFamily(s, id) == s
  {
  }

  lemma RevokeOneFamily(s: State, id: Id)
    requires id in s.families
    ensures RevokeFamily(s, id) == s.(families := s.families[id := s.families[id].(revoked := true)],
                                      tokens := TokensRevoked(s.tokens, {}, TokensOfFamily(s.tokens, id)))
  {
  }

  lemma RevokeBoth(s: State, s1: State, families: set<Id>, tokens: set<Id>)
    requires s1 == RevokeGrants(s, families, {})
    ensures RevokeGrants(s, families, tokens) == s1.(tokens := TokensRevoked(s1.tokens, {}, tokens))
  {
  }

  lemma EndIgnored(s: State, id: Id, reason: Reason, now: Time)
    requires id in s.apps ==> s.apps[id].endedAt.Some?
    ensures EndApps(s, {id}, reason, now) == s
  {
    assert LiveApps(s.apps, {id}) == LiveApps(s.apps, {});
    EndAppsNone(s, reason, now);
  }

  lemma CodesOfApp(codes: map<Id, Code>, apps: map<Id, App>, id: Id)
    requires id in apps
    ensures CodesEnded(codes, apps, {id}) == CodesMarked(codes,
                                                         CodesLinking(codes, apps[id].opSessionId, apps[id].clientId))
  {
    assert forall op, c :: Touches(apps, {id}, op, c) <==> apps[id].opSessionId == op && apps[id].clientId == c;
  }

  lemma TxnsOfApp(txns: map<Id, Txn>, apps: map<Id, App>, id: Id)
    requires id in apps
    ensures TxnsEnded(txns, apps, {id}) == TxnsMarked(txns, TxnsLinking(txns, apps[id].opSessionId, apps[id].clientId))
  {
    assert forall op, c :: Touches(apps, {id}, op, c) <==> apps[id].opSessionId == op && apps[id].clientId == c;
  }

  lemma TokensOfApp(tokens: map<Id, Token>, id: Id)
    ensures TokensEnded(tokens, {id}) == TokensRevoked(tokens, {}, OnlineTokens(tokens, id))
  {
  }

  lemma NoticesOfApp(clients: map<Id, Client>, apps: map<Id, App>, id: Id, reason: Reason, now: Time)
    requires id in apps
    ensures Notices(clients, apps, {id}, reason, now) == Notices(clients, map[id := apps[id]], {id}, reason, now)
  {
  }

  lemma EndOne(s: State, id: Id, reason: Reason, now: Time)
    requires id in s.apps && s.apps[id].endedAt.None?
    ensures var a := s.apps[id];
            EndApps(s, {id}, reason, now) ==
              s.(apps := s.apps[id := EndedApp(a, reason, now)],
                 tokens := TokensRevoked(s.tokens, {}, OnlineTokens(s.tokens, id)),
                 codes := CodesMarked(s.codes, CodesLinking(s.codes, a.opSessionId, a.clientId)),
                 txns := TxnsMarked(s.txns, TxnsLinking(s.txns, a.opSessionId, a.clientId)),
                 deliveries := s.deliveries + Notices(s.clients, map[id := a], {id}, reason, now))
  {
    assert LiveApps(s.apps, {id}) == {id};
    assert AppsEnded(s.apps, {id}, reason, now) == s.apps[id := EndedApp(s.apps[id], reason, now)];
    TokensOfApp(s.tokens, id);
    CodesOfApp(s.codes, s.apps, id);
    TxnsOfApp(s.txns, s.apps, id);
    NoticesOfApp(s.clients, s.apps, id, reason, now);
  }

  lemma CodesOfRow(codes: map<Id, Code>, apps: map<Id, App>, ended: set<Id>, id: Id)
    requires forall a <- ended :: a in apps && apps[a].opSessionId == id
    ensures var c1 := CodesEnded(codes, apps, ended);
            CodesMarked(c1, CodesBound(c1, id)) == CodesOfSessions(codes, {id})
  {
    assert forall op, c :: Touches(apps, ended, op, c) ==> op == id;
  }

  lemma TxnsOfRow(txns: map<Id, Txn>, apps: map<Id, App>, ended: set<Id>, id: Id)
    requires forall a <- ended :: a in apps && apps[a].opSessionId == id
    ensures var t1 := TxnsEnded(txns, apps, ended);
            TxnsMarked(t1, TxnsBound(t1, id)) == TxnsOfSessions(txns, {id})
  {
    assert forall op, c :: Touches(apps, ended, op, c) ==> op == id;
  }

  lemma OneOpNotice(ds: map<DeliveryId, Delivery>, id: Id, reason: Reason, now: Time)
    ensures ds[OpNotice(id) := OpDelivery(id, reason, now)] == ds + OpNotices({id}, reason, now)
  {
  }

  lemma EndOneRow(s: State, s0: State, s1: State, hash: Id, reason: Reason, now: Time)
    requires hash in s.sessions && s.sessions[hash].endedAt.None?
    requires var id := s.sessions[hash].id;
             && s0 == s.(sessions := s.sessions[hash := EndedSession(s.sessions[hash], reason, now)],
                         deliveries := s.deliveries[OpNotice(id) := OpDelivery(id, reason, now)])
             && s1 == EndApps(s0, AppsOfSessions(s0.apps, {id}), reason, now)
    ensures var id := s.sessions[hash].id;
            EndRows(s, {hash}, reason, now) ==
              s1.(txns := TxnsMarked(s1.txns, TxnsBound(s1.txns, id)),
                  codes := CodesMarked(s1.codes, CodesBound(s1.codes, id)))
  {
    hide SessionsEnded, TxnsMarked, CodesMarked, TxnsEnded, CodesEnded, TokensEnded, CodesOfSessions, TxnsOfSessions,
         Notices, OpNotices, AppsEnded;
    var id := s.sessions[hash].id;
    OneRow(s.sessions, hash, reason, now);
    var live := LiveApps(s.apps, AppsOfSessions(s.apps, {id}));
    CodesOfRow(s.codes, s.apps, live, id);
    TxnsOfRow(s.txns, s.apps, live, id);
    OneOpNotice(s.deliveries, id, reason, now);
  }

  lemma OneRow(sessions: map<Id, Session>, hash: Id, reason: Reason, now: Time)
    requires hash in sessions && Live(sessions[hash])
    ensures LiveRows(sessions, {hash}) == {hash} && IdsOf(sessions, {hash}) == {sessions[hash].id}
    ensures SessionsEnded(sessions, {hash}, reason, now) == sessions[hash := EndedSession(sessions[hash], reason, now)]
  {
  }

  lemma SameRows(s: State, rows: set<Id>, reason: Reason, now: Time)
    ensures var s1 := EndRows(s, rows, reason, now);
            && s1.sessions.Keys == s.sessions.Keys
            && forall h <- s.sessions :: s1.sessions[h].id == s.sessions[h].id
  {
  }

  lemma EndDeadRow(s: State, hash: Id, reason: Reason, now: Time)
    requires hash in s.sessions ==> !Live(s.sessions[hash])
    ensures EndRows(s, {hash}, reason, now) == s
  {
    assert LiveRows(s.sessions, {hash}) == LiveRows(s.sessions, {});
    SameLiveRows(s, {hash}, {}, reason, now);
    EndRowsNone(s, reason, now) by { hide *; }
    hide EndRows, LiveRows;
  }

  lemma SameLiveRows(s: State, x: set<Id>, y: set<Id>, reason: Reason, now: Time)
    requires LiveRows(s.sessions, x) == LiveRows(s.sessions, y)
    ensures EndRows(s, x, reason, now) == EndRows(s, y, reason, now)
  {
  }

  lemma EndSessionsNone(s: State, reason: Reason, now: Time)
    ensures EndSessions(s, {}, reason, now) == s
  {
    hide EndRows;
    assert RowsWithIds(s.sessions, {}) == {};
    EndRowsNone(s, reason, now);
  }

  lemma PurgeUserIs(s: State, user: Id, now: Time)
    ensures var s1 := RevokeForUser(s, user);
            PurgeUser(s, user, now) ==
              EndSessions(s1.(codes := s1.codes - CodesOfUser(s.codes, user),
                              txns := s1.txns - TxnsOfUser(s.txns, user),
                              consents := s1.consents - ConsentsOfUser(s.consents, user)),
                          SessionIdsOfUser(s.sessions, user), SecurityChange, now)
  {
  }

  lemma PurgeClientIs(s: State, s1: State, client: Id, now: Time)
    requires s1 == RevokeForClient(EndApps(s, AppsOfClient(s.apps, client), ClientChanged, now), client)
    ensures PurgeClient(s, client, now) ==
              s1.(codes := s1.codes - CodesOfClient(s1.codes, client),
                  txns := s1.txns - TxnsOfClient(s1.txns, client),
                  consents := s1.consents - ConsentsOfClient(s1.consents, client))
  {
  }

  lemma PruneLogoutStateIs(s: State, s1: State, now: Time)
    requires s1 == Cascades.PruneSessions(s, now)
    ensures Cascades.PruneLogoutState(s, now) ==
              s1.(operations := s1.operations - StaleOperations(s1.operations, now),
                  interactions := s1.interactions - ExpiredInteractions(s1.interactions, now),
                  deliveries := s1.deliveries - StaleDeliveries(s1.deliveries, now),
                  apps := s1.apps - StaleApps(s1.apps, now),
                  sessions := s1.sessions - StaleSessions(s1.sessions, now))
  {
  }

  lemma PruneGrantsIs(s: State, now: Time)
    ensures PruneGrants(s, now) ==
              s.(families := s.families - ExpiredFamilies(s.families, now),
                 refreshes := s.refreshes - RefreshesOf(s.refreshes, ExpiredFamilies(s.families, now)),
                 txns := s.txns - ExpiredTxns(s.txns, now),
                 codes := s.codes - ExpiredCodes(s.codes, now),
                 tokens := s.tokens - ExpiredTokens(s.tokens, now))
  {
  }
}
