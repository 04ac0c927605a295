/** What the service steps share: a step is one `Store.Write`, which commits a new state or, when its
    callback fails, changes nothing (internal/identity/store.go). */
module Steps {
  import opened Records
  import opened Cascades
  import opened Invariants
  import opened Evolution
  import opened Changes
  import opened Purges

  datatype Error =
    | NotFound | Unauthorized | Forbidden | Conflict | Initialized | LastAdminKept | Credentials | Invalid
    | CapacityReached | InvalidGrant | InvalidTarget | InvalidScope | UnauthorizedClient | InvalidClient
    | UnsupportedGrant | NotActive | PolicyChanged

  datatype Outcome = Denied(error: Error) | Committed(state: State)

  function Next(s: State, o: Outcome): State {
    if o.Committed? then o.state else s
  }

  // ---------- Who is signed in ----------

  predicate SignedIn(s: State, hash: Id, now: Time) {
    HasSession(s, hash) && now < s.sessions[hash].expiresAt
    && s.sessions[hash].userId in s.users && s.users[s.sessions[hash].userId].active
  }

  predicate SignedInAs(s: State, hash: Id, admin: bool, now: Time) {
    SignedIn(s, hash, now) && (admin ==> s.users[s.sessions[hash].userId].role == Admin)
  }

  /** `Service.principal` fails with this error. */
  function PrincipalError(s: State, hash: Id, now: Time): Error {
    if SignedIn(s, hash, now) then Forbidden else Unauthorized
  }

  // ---------- Soundness of a step ----------

  /** The store a transaction finds, with identifiers it may draw. */
  ghost predicate Starts(s: State, tx: Tx) {
    Inv(s, tx.cfg, tx.used) && tx.used <= tx.known && tx.codes <= tx.used && ValidConfig(tx.cfg)
  }

  ghost predicate Drawn(tx: Tx, id: Id) {
    id in tx.known && id !in tx.used
  }

  ghost predicate SoundStep(s: State, o: Outcome, tx: Tx) {
    o.Committed? ==> Sound(s, o.state, tx)
  }

  lemma Begin(s: State, tx: Tx)
    requires Starts(s, tx)
    ensures Inv(s, tx.cfg, tx.known) && KnownIds(s, tx.used) && NONE in tx.used
  {
    hide SessionsInv, CodesInv, TokensInv, FamiliesInv;
    MoreIds(s, tx.cfg, tx.used, tx.known);
  }

  // ---------- Rows ----------

  lemma RowSaved(before: map<Id, Session>, after: map<Id, Session>, hash: Id, row: Session)
    requires after == before[hash := row]
    requires hash in before ==> IsLiveRow(before[hash], row.id, row.userId) || !Live(before[hash])
    requires Live(row)
    ensures RowsKept(before, after)
  {
    forall id, user | HasLiveRow(before, id, user) ensures HasLiveRow(after, id, user) {
      var h :| h in before && IsLiveRow(before[h], id, user);
      assert IsLiveRow(after[h], id, user);
    }
  }

  /** A new logical session. */
  lemma NewRowSound(s: State, r: State, tx: Tx, hash: Id, row: Session)
    requires Inv(s, tx.cfg, tx.known) && KnownIds(s, tx.used) && Drawn(tx, hash) && Drawn(tx, row.id)
    requires Live(row) && r == s.(sessions := s.sessions[hash := row])
    ensures Sound(s, r, tx)
  {
    RowSaved(s.sessions, r.sessions, hash, row);
    assert RowsUnique(s.sessions) && KnownIds(s, tx.known);
    hide Inv, Sound, RowsKept, HasLiveRow;
    assert RowsUnique(r.sessions);
    assert KnownIds(r, tx.known);
    forall h | h in s.sessions && Live(s.sessions[h]) ensures RowFrom(s.sessions, s.sessions[h], tx.now) {
      assert IsLiveRow(s.sessions[h], s.sessions[h].id, s.sessions[h].userId);
    }
    SessionsSound(s, r, tx);
  }

  /** A new credential for a live, unexpired session. */
  lemma ReusedRowSound(s: State, r: State, tx: Tx, previous: Id, hash: Id, row: Session)
    requires Inv(s, tx.cfg, tx.known) && KnownIds(s, tx.used) && Drawn(tx, hash)
    requires previous in s.sessions && IsLiveRow(s.sessions[previous], row.id, row.userId)
             && tx.now < s.sessions[previous].expiresAt
    requires Live(row) && r == s.(sessions := (s.sessions - {previous})[hash := row])
    ensures Sound(s, r, tx)
  {
    assert RowsUnique(s.sessions) && KnownIds(s, tx.known);
    hide Inv, Sound;
    forall id, user | HasLiveRow(s.sessions, id, user) ensures HasLiveRow(r.sessions, id, user) {
      var h :| h in s.sessions && IsLiveRow(s.sessions[h], id, user);
      assert IsLiveRow(r.sessions[if h == previous then hash else h], id, user);
    }
    hide HasLiveRow;
    assert KnownIds(r, tx.known);
    assert RowsUnique(r.sessions);
    forall h | h in r.sessions && Live(r.sessions[h]) ensures RowFrom(s.sessions, r.sessions[h], tx.now) {
      var k := if h == hash then previous else h;
      assert IsLiveRow(s.sessions[k], r.sessions[h].id, r.sessions[h].userId);
    }
    SessionsSound(s, r, tx);
  }

  /** Rows seen again: only what is displayed changes. */
  ghost predicate RowsTouched(a: map<Id, Session>, b: map<Id, Session>) {
    b.Keys == a.Keys && forall h <- a :: b[h] == a[h].(lastSeenAt := b[h].lastSeenAt, device := b[h].device)
  }

  lemma TouchedSound(s: State, r: State, tx: Tx)
    requires Inv(s, tx.cfg, tx.known) && RowsTouched(s.sessions, r.sessions) && r == s.(sessions := r.sessions)
    ensures Sound(s, r, tx)
  {
    assert RowsUnique(s.sessions) && KnownIds(s, tx.known);
    hide Inv, Sound;
    forall h | h in r.sessions
      ensures r.sessions[h].id == s.sessions[h].id && r.sessions[h].userId == s.sessions[h].userId
              && r.sessions[h].endedAt == s.sessions[h].endedAt && r.sessions[h].expiresAt == s.sessions[h].expiresAt {}
    hide RowsTouched;
    forall id, user | HasLiveRow(s.sessions, id, user) ensures HasLiveRow(r.sessions, id, user) {
      var h :| h in s.sessions && IsLiveRow(s.sessions[h], id, user);
      assert IsLiveRow(r.sessions[h], id, user);
    }
    hide HasLiveRow;
    assert KnownIds(r, tx.known);
    assert RowsUnique(r.sessions);
    forall h | h in r.sessions && Live(r.sessions[h]) ensures RowFrom(s.sessions, r.sessions[h], tx.now) {
      assert IsLiveRow(s.sessions[h], r.sessions[h].id, r.sessions[h].userId);
    }
    SessionsSound(s, r, tx);
  }

  // ---------- Sweeping ----------

  /** The sweep ends every expired session. */
  lemma SweptLive(s: State, now: Time)
    ensures var r := PruneLogoutState(s, now);
            && (forall h <- r.sessions ::
                  h in s.sessions && r.sessions[h].id == s.sessions[h].id
                  && r.sessions[h].userId == s.sessions[h].userId)
            && (forall h <- r.sessions ::
                  Live(r.sessions[h]) ==> now < r.sessions[h].expiresAt && r.sessions[h] == s.sessions[h])
  {
    hide AppsEnded, TokensEnded, CodesOfSessions, TxnsOfSessions, Notices, OpNotices, LiveApps, AppsOfSessions,
         StaleDeliveries, StaleApps, StaleOperations, ExpiredInteractions;
    var ids := ExpiredIds(s.sessions, now);
    var rows := RowsWithIds(s.sessions, ids);
    var mid := SessionsEnded(s.sessions, LiveRows(s.sessions, rows), Expired, now);
    assert forall h <- s.sessions :: ExpiredRow(s.sessions[h], now) ==> s.sessions[h].id in ids;
    assert PruneSessions(s, now).sessions == mid;
  }

  lemma SweepGrants(s: State, now: Time)
    ensures SameGrants(s, PruneLogoutState(s, now))
  {
    hide SessionsEnded, AppsEnded, TokensEnded, CodesOfSessions, TxnsOfSessions, Notices, OpNotices, LiveApps,
         AppsOfSessions, LiveRows, IdsOf, RowsWithIds, ExpiredIds;
  }

  /** After a sweep the store still knows only identifiers drawn before the transaction. */
  lemma SweepFirst(s: State, tx: Tx, now: Time)
    requires tx.timely ==> now <= tx.now
    requires Starts(s, tx)
    ensures var m := PruneLogoutState(s, now);
            Sound(s, m, tx) && KnownIds(m, tx.used) && SameGrants(s, m)
  {
    Begin(s, tx);
    SweepGrants(s, now);
    hide PruneLogoutState, SessionsInv, CodesInv, TokensInv, FamiliesInv, KnownIds, Evolves;
    SweepSound(s, tx, now);
    SweepSound(s, tx.(known := tx.used), now);
  }
}
