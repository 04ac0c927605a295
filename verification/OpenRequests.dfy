/** Authorization requests of sessions that are over: how one can be open, exactly when none is, and what
    answering one yields. */
module OpenRequests {
  import opened Records
  import opened Validity
  import opened Cascades
  import opened Invariants
  import opened Evolution
  import opened Purges
  import opened Steps
  import opened Authorization
  import opened Machine
  import opened Requests

  // ---------- The input ----------

  /** The session is ended after the handler read its row and before the request is stored: the request is
      bound to the ended session and not revoked. */
  lemma EndedThenStarted(
    s: State, cfg: Config, id: Id, c: Client, q: Request, offline: bool, row: Session, binding: Id, txn: Id, t0: Time,
    reason: Reason, now: Time)
    requires RequestError(cfg, c, q, offline).None? && !q.none && !NeedsLogin(q, Some(row), t0)
    ensures var o := Authorize(EndSessions(s, {row.id}, reason, now), cfg, id, c, q, offline, Some(row), binding, txn,
                               t0);
            && o.Committed? && SessionOver(o.state.sessions, row.id)
            && txn in o.state.txns && o.state.txns[txn].opSessionId == row.id && !o.state.txns[txn].revoked
  {
    hide EndSessions, RequestError, NeedsLogin, Filtered;
    EndedOver(s, row.id, reason, now);
  }

  // ---------- Exactly when ----------

  /** The step stores a request bound to a session that is over, from a row read before it ended. */
  ghost predicate StartsStale(cfg: Config, s: State, e: Event, now: Time, op: Id) {
    && e.StartRequest? && e.row.Some? && e.row.value.id == op && !NeedsLogin(e.request, e.row, e.t0)
    && Apply(cfg, s, e, now).Committed? && SessionOver(s.sessions, op)
  }

  lemma UnboundClosed(cfg: Config, v: World, e: Event, w: World, op: Id)
    requires Evolves(v.state, w.state, TxOf(cfg, v, e, w)) && op != NONE && op !in BoundBefore(e)
    requires RequestsClosed(v.state.sessions, v.state.txns, op)
    ensures RequestsClosed(w.state.sessions, w.state.txns, op)
  {
    hide BoundBefore, RequestsClosed;
  }

  lemma StartCloses(
    s: State, cfg: Config, id: Id, c: Client, q: Request, offline: bool, row: Session, binding: Id, txn: Id, t0: Time)
    requires RequestsClosed(s.sessions, s.txns, row.id) && row.id != NONE
    ensures var o := Authorize(s, cfg, id, c, q, offline, Some(row), binding, txn, t0);
            var r := Next(s, o);
            RequestsClosed(r.sessions, r.txns, row.id) <==>
              !(o.Committed? && !NeedsLogin(q, Some(row), t0) && SessionOver(s.sessions, row.id))
  {
    hide RequestError, NeedsLogin, Filtered, PruneGrants, SessionOver;
    PruneFrame(s, t0);
    var o := Authorize(s, cfg, id, c, q, offline, Some(row), binding, txn, t0);
    if o.Committed? {
      assert txn in o.state.txns && !o.state.txns[txn].revoked;
      forall t | t in o.state.txns && t != txn ensures t in s.txns && o.state.txns[t] == s.txns[t] {}
    }
  }

  /** If every request of an ended session was revoked, a step leaves one that is not if and only if it stores
      one from a row read before the session ended. */
  lemma StaleStep(cfg: Config, v: World, e: Event, w: World, op: Id)
    requires Evolves(v.state, w.state, TxOf(cfg, v, e, w)) && op != NONE
    requires w.state == Next(v.state, Apply(cfg, v.state, e, w.clock))
    requires RequestsClosed(v.state.sessions, v.state.txns, op)
    ensures RequestsClosed(w.state.sessions, w.state.txns, op) <==> !StartsStale(cfg, v.state, e, w.clock, op)
  {
    hide Evolves, Apply, Authorization.Authorize, RequestsClosed, NeedsLogin;
    if op !in BoundBefore(e) {
      UnboundClosed(cfg, v, e, w, op);
    } else {
      AppliedStart(cfg, v.state, e, w.clock);
      StartCloses(v.state, cfg, e.client, e.record, e.request, e.offline, e.row.value, e.binding, e.txn, e.t0);
    }
  }

  // ---------- Over runs ----------

  ghost predicate ClosedAt(w: World, op: Id) {
    RequestsClosed(w.state.sessions, w.state.txns, op)
  }

  ghost predicate StaleAt(cfg: Config, ws: seq<World>, es: seq<Event>, k: nat, op: Id)
    requires |ws| == |es| + 1 && k < |es|
  {
    StartsStale(cfg, ws[k].state, es[k], ws[k + 1].clock, op)
  }

  lemma FirstClosed(cfg: Config, ws: seq<World>, es: seq<Event>, op: Id)
    requires Run(cfg, ws, es)
    ensures ClosedAt(ws[0], op)
  {
    hide StepAt;
  }

  lemma StaleAtStep(cfg: Config, ws: seq<World>, es: seq<Event>, k: nat, op: Id)
    requires Run(cfg, ws, es) && k < |es| && op != NONE && ClosedAt(ws[k], op)
    ensures ClosedAt(ws[k + 1], op) <==> !StaleAt(cfg, ws, es, k, op)
  {
    hide Inv, Evolves, StepAt, Apply, StartsStale, RequestsClosed, Possible;
    StepStores(cfg, ws, es, k);
    Onward(cfg, ws, es, k);
    StaleStep(cfg, ws[k], es[k], ws[k + 1], op);
  }

  /** An ended session has no open request at any moment of a run, up to a given one, if and only if no step
      before it stored a request from a row read before the session ended. */
  lemma {:induction false} NoOpenRequest(cfg: Config, ws: seq<World>, es: seq<Event>, n: nat, op: Id)
    requires Run(cfg, ws, es) && n < |ws| && op != NONE
    ensures (forall k :: 0 <= k <= n ==> ClosedAt(ws[k], op)) <==>
              (forall k :: 0 <= k < n ==> !StaleAt(cfg, ws, es, k, op))
  {
    hide Inv, StepAt, ClosedAt, StaleAt;
    if n == 0 {
      FirstClosed(cfg, ws, es, op);
    } else {
      NoOpenRequest(cfg, ws, es, n - 1, op);
      if forall k :: 0 <= k < n ==> ClosedAt(ws[k], op) {
        assert ClosedAt(ws[n - 1], op);
        StaleAtStep(cfg, ws, es, n - 1, op);
      }
    }
  }

  // ---------- What answering one yields ----------

  /** A request bound to a session that is over is approved like any other, from another live session of the
      same account; the code is bound to the session that answered. */
  lemma StaleAnswered(
    s: State, cfg: Config, txn: Id, binding: Id, session: Id, user: Id, approved: seq<Scope>, code: Id, now: Time)
    requires TxnOpen(s, txn, binding, now) && session != NONE
    requires MayAnswer(s, s.txns[txn], session, user, now) && SessionOver(s.sessions, s.txns[txn].opSessionId)
    requires var t := s.txns[txn];
             && t.clientId in s.clients && s.clients[t.clientId].metadata.compatible
             && s.clients[t.clientId].updatedAt == t.clientUpdatedAt
    ensures var o := Complete(s, cfg, txn, binding, session, user, Some(true), approved, code, now);
            && o.Committed? && code in o.state.codes && HasSession(o.state, session)
            && o.state.codes[code].opSessionId == s.sessions[session].id == o.state.sessions[session].id
            && o.state.codes[code].opSessionId != s.txns[txn].opSessionId
            && txn in o.state.txns && o.state.txns[txn].consumed
            && o.state.txns[txn].opSessionId == s.sessions[session].id
  {
    hide Granted, MintCode, Consenting, SessionFresh;
    var t, r := s.txns[txn], s.sessions[session];
    var m := Consenting(s, t, user, Some(true), approved, now);
    ApprovalConsents(s, t, user, approved, now);
    var i := Issue(t.clientId, user, session, t.redirectUri, Granted(t, Some(true), approved), Unix(r.authTime.value),
                   t.codeChallenge, txn);
    MintCommits(m, cfg, s.clients[t.clientId], i, code, now);
    MintFrame(m, cfg, s.clients[t.clientId], i, code, now);
  }

  lemma ApprovalConsents(s: State, t: Txn, user: Id, approved: seq<Scope>, now: Time)
    requires t.clientId in s.clients
    ensures var m := Consenting(s, t, user, Some(true), approved, now);
            m == s.(consents := m.consents)
  {
    hide Granted;
    SaveNewConsent(s, ConsentKey(user, t.clientId),
                   Consent(Granted(t, Some(true), approved), s.clients[t.clientId].updatedAt, now, false), now);
  }

  lemma MintCommits(s: State, cfg: Config, c: Client, i: Issue, code: Id, now: Time)
    requires UserHolds(s, i.user) && i.client in s.clients && s.clients[i.client].metadata.compatible
    requires s.clients[i.client].updatedAt == c.updatedAt
    requires i.session != NONE && HasSession(s, i.session) && now < s.sessions[i.session].expiresAt
    ensures var o := MintCode(s, cfg, c, i, code, now);
            o.Committed? && code in o.state.codes && o.state.codes[code].opSessionId == s.sessions[i.session].id
  {
    hide PruneGrants, UserHolds;
  }
}
