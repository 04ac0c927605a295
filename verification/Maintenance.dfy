/** The maintenance detector and the sweep it triggers (internal/identity/sessions.go). */
module Maintenance {
  import opened Records
  import opened Cascades
  import opened Invariants
  import opened Store

  /** The sweep ends exactly the live sessions past their expiry, forgets exactly what has been over for more
      than 30 days and the interactions past their expiry, and keeps the rest. */
  lemma SweptExactly(s: State, now: Time)
    requires RowsUnique(s.sessions)
    ensures var r := PruneLogoutState(s, now);
            && (forall h :: h in r.sessions <==> h in s.sessions && !LongOver(s.sessions[h].endedAt, now))
            && (forall h <- r.sessions ::
                  r.sessions[h] == if s.sessions[h].endedAt.None? && s.sessions[h].expiresAt <= now
                                   then s.sessions[h].(endedAt := Some(now), endReason := Expired, csrf := NONE)
                                   else s.sessions[h])
            && (forall a :: a in r.apps <==> a in s.apps && !LongOver(s.apps[a].endedAt, now))
            && (forall o :: o in r.operations <==> o in s.operations && now <= s.operations[o] + 30 * 86400 * SECOND)
            && (forall o <- r.operations :: r.operations[o] == s.operations[o])
            && (forall i :: i in r.interactions <==> i in s.interactions && now < s.interactions[i].expiresAt)
            && (forall i <- r.interactions :: r.interactions[i] == s.interactions[i])
            && (forall d <- r.deliveries :: now <= r.deliveries[d].createdAt + 30 * 86400 * SECOND)
  {
    hide EndSessions, DropStale, RowsUnique, LongOver;
    ExpiredOnly(s, now);
    SweptRest(s, ExpiredIds(s.sessions, now), now);
    DroppedExactly(PruneSessions(s, now), now);
    NotLongOver(now);
  }

  lemma NotLongOver(now: Time)
    ensures !LongOver(Some(now), now) && !LongOver(None, now)
  {
  }

  lemma ExpiredOnly(s: State, now: Time)
    requires RowsUnique(s.sessions)
    ensures var r := PruneSessions(s, now);
            && r.sessions.Keys == s.sessions.Keys
            && forall h <- s.sessions ::
                 r.sessions[h] == if s.sessions[h].endedAt.None? && s.sessions[h].expiresAt <= now
                                  then s.sessions[h].(endedAt := Some(now), endReason := Expired, csrf := NONE)
                                  else s.sessions[h]
  {
    var ids := ExpiredIds(s.sessions, now);
    assert forall h <- s.sessions ::
             s.sessions[h].id in ids && s.sessions[h].endedAt.None? ==> ExpiredRow(s.sessions[h], now);
    hide EndSessions, RowsUnique;
    EndSessionsOnly(s, ids, Expired, now);
  }

  lemma DroppedExactly(s: State, now: Time)
    ensures var r := DropStale(s, now);
            && (forall h :: h in r.sessions <==> h in s.sessions && !LongOver(s.sessions[h].endedAt, now))
            && (forall h <- r.sessions :: r.sessions[h] == s.sessions[h])
            && (forall a :: a in r.apps <==> a in s.apps && !LongOver(s.apps[a].endedAt, now))
            && (forall a <- r.apps :: r.apps[a] == s.apps[a])
            && (forall o :: o in r.operations <==> o in s.operations && now <= s.operations[o] + 30 * 86400 * SECOND)
            && (forall o <- r.operations :: r.operations[o] == s.operations[o])
            && (forall i :: i in r.interactions <==> i in s.interactions && now < s.interactions[i].expiresAt)
            && (forall i <- r.interactions :: r.interactions[i] == s.interactions[i])
            && (forall d :: d in r.deliveries <==>
                  d in s.deliveries && now <= s.deliveries[d].createdAt + 30 * 86400 * SECOND)
            && (forall d <- r.deliveries :: r.deliveries[d] == s.deliveries[d])
  {
    DroppedSessions(s, now);
  }

  lemma DroppedSessions(s: State, now: Time)
    ensures var r := DropStale(s, now);
            && (forall h :: h in r.sessions <==> h in s.sessions && !LongOver(s.sessions[h].endedAt, now))
            && (forall h <- r.sessions :: r.sessions[h] == s.sessions[h])
            && (forall a :: a in r.apps <==> a in s.apps && !LongOver(s.apps[a].endedAt, now))
            && (forall a <- r.apps :: r.apps[a] == s.apps[a])
  {
  }

  predicate LongOver(ended: Option<Time>, now: Time) {
    ended.Some? && ended.value + 30 * 86400 * SECOND < now
  }

  lemma SweptRest(s: State, ids: set<Id>, now: Time)
    ensures var r := EndSessions(s, ids, Expired, now);
            && r.operations == s.operations && r.interactions == s.interactions && r.apps.Keys == s.apps.Keys
            && forall a <- s.apps ::
                 r.apps[a] == s.apps[a] || (r.apps[a].endedAt == Some(now) && s.apps[a].endedAt.None?)
  {
    hide TokensEnded, CodesOfSessions, TxnsOfSessions, Notices, OpNotices, AppsOfSessions, IdsOf;
  }

  /** Pruning keeps exactly the tokens and requests before their expiry, the codes still valid or kept as
      evidence, the families still retained and their refresh tokens; and it changes none of them. */
  lemma PrunedExactly(s: State, now: Time)
    ensures var r := PruneGrants(s, now);
            && (forall h :: h in r.tokens <==> h in s.tokens && now < s.tokens[h].expiresAt)
            && (forall t :: t in r.txns <==> t in s.txns && now < s.txns[t].expiresAt)
            && (forall h :: h in r.codes <==>
                  h in s.codes && (now < s.codes[h].expiresAt
                                   || (s.codes[h].retainUntil.Some? && now < s.codes[h].retainUntil.value)))
            && (forall f :: f in r.families <==> f in s.families && now < s.families[f].retainUntil)
            && (forall h :: h in r.refreshes <==>
                  h in s.refreshes && (s.refreshes[h].familyId in s.families ==> s.refreshes[h].familyId in r.families))
            && (forall h <- r.tokens :: r.tokens[h] == s.tokens[h]) && (forall t <- r.txns :: r.txns[t] == s.txns[t])
            && (forall h <- r.codes :: r.codes[h] == s.codes[h])
            && (forall f <- r.families :: r.families[f] == s.families[f])
            && (forall h <- r.refreshes :: r.refreshes[h] == s.refreshes[h])
            && r == s.(tokens := r.tokens, txns := r.txns, codes := r.codes, families := r.families,
                       refreshes := r.refreshes)
  {
  }

  lemma SweptNotDue(s: State, now: Time)
    ensures !MaintenanceDue(PruneLogoutState(s, now), now)
  {
  }

  lemma NothingExpired(s: State, now: Time)
    requires forall h <- s.sessions :: !ExpiredRow(s.sessions[h], now)
    ensures PruneSessions(s, now) == s
  {
    hide EndSessions;
    assert ExpiredIds(s.sessions, now) == {};
    EndSessionsNone(s, Expired, now);
  }

  lemma NothingStale(s: State, now: Time)
    requires !MaintenanceDue(s, now)
    ensures DropStale(s, now) == s
  {
    forall h ensures h !in StaleSessions(s.sessions, now) {}
    forall a ensures a !in StaleApps(s.apps, now) {}
    forall d ensures d !in StaleDeliveries(s.deliveries, now) {}
    forall o ensures o !in StaleOperations(s.operations, now) {}
    forall i ensures i !in ExpiredInteractions(s.interactions, now) {}
    assert StaleSessions(s.sessions, now) == {} && StaleApps(s.apps, now) == {}
           && StaleDeliveries(s.deliveries, now) == {};
    assert StaleOperations(s.operations, now) == {} && ExpiredInteractions(s.interactions, now) == {};
    Unchanged(s.sessions);
    Unchanged(s.apps);
    Unchanged(s.deliveries);
    Unchanged(s.operations);
    Unchanged(s.interactions);
  }

  lemma Unchanged<K, V>(m: map<K, V>)
    ensures m - {} == m
  {
  }

  /** The detector is silent exactly when the sweep would change nothing. */
  lemma DueExactly(s: State, now: Time)
    ensures !MaintenanceDue(s, now) <==> PruneLogoutState(s, now) == s
  {
    if !MaintenanceDue(s, now) {
      NothingExpired(s, now);
      NothingStale(s, now);
    }
    hide PruneLogoutState, MaintenanceDue;
    SweptNotDue(s, now);
  }

  /** Sweeping twice at one time is sweeping once. */
  lemma SweepIdempotent(s: State, now: Time)
    ensures PruneLogoutState(PruneLogoutState(s, now), now) == PruneLogoutState(s, now)
  {
    hide PruneLogoutState, MaintenanceDue;
    SweptNotDue(s, now);
    DueExactly(PruneLogoutState(s, now), now);
  }
}
