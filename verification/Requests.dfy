/** Authorization requests: answered once, by the account and after the sign-in they ask for, and never
    beyond what the user consented to. */
module Requests {
  import opened Records
  import opened Validity
  import opened Cascades
  import opened Invariants
  import opened Evolution
  import opened Authorization
  import opened Responses
  import opened Machine

  // ---------- Once ----------

  ghost predicate Answered(w: World, txn: Id) {
    txn in w.used && (txn in w.state.txns ==> w.state.txns[txn].consumed)
  }

  /** The i-th step answers the request: it commits and the request is used up. */
  ghost predicate Answers(cfg: Config, ws: seq<World>, es: seq<Event>, i: nat, txn: Id)
    requires |ws| == |es| + 1 && i < |es|
  {
    var e := es[i];
    && e.CompleteRequest? && e.txn == txn
    && Complete(ws[i].state, cfg, txn, e.binding, e.session, e.user, e.approve, e.approved, e.code,
                ws[i + 1].clock).Committed?
    && txn in ws[i + 1].state.txns && ws[i + 1].state.txns[txn].consumed
  }

  lemma AnsweredStep(cfg: Config, v: World, e: Event, w: World, txn: Id)
    requires Evolves(v.state, w.state, TxOf(cfg, v, e, w)) && v.used <= w.used && Answered(v, txn)
    ensures Answered(w, txn)
  {
  }

  lemma {:induction false} AnsweredForGood(cfg: Config, ws: seq<World>, es: seq<Event>, i: nat, j: nat, txn: Id)
    requires Run(cfg, ws, es) && i <= j < |ws| && Answered(ws[i], txn)
    ensures Answered(ws[j], txn)
  {
    hide Inv, Evolves, StepAt, Answered;
    if i < j {
      AnsweredForGood(cfg, ws, es, i, j - 1, txn);
      Onward(cfg, ws, es, j - 1);
      AnsweredStep(cfg, ws[j - 1], es[j - 1], ws[j], txn);
    }
  }

  lemma KnownTxn(s: State, cfg: Config, used: set<Id>)
    requires Inv(s, cfg, used)
    ensures s.txns.Keys <= used
  {
  }

  /** Competing continuations cannot both answer a request: after one answer every other is refused. */
  lemma AnsweredOnce(cfg: Config, ws: seq<World>, es: seq<Event>, i: nat, j: nat, txn: Id)
    requires Run(cfg, ws, es) && i < j < |es| && Answers(cfg, ws, es, i, txn) && es[j].CompleteRequest?
             && es[j].txn == txn
    ensures Apply(cfg, ws[j].state, es[j], ws[j + 1].clock).Denied?
  {
    hide Inv, StepAt, Complete;
    At(cfg, ws, es, i + 1);
    KnownTxn(ws[i + 1].state, cfg, ws[i + 1].used);
    AnsweredForGood(cfg, ws, es, i + 1, j, txn);
    AnsweredDenied(cfg, ws[j].state, es[j], ws[j + 1].clock);
  }

  lemma AnsweredDenied(cfg: Config, s: State, e: Event, now: Time)
    requires e.CompleteRequest? && (e.txn in s.txns ==> s.txns[e.txn].consumed)
    ensures Apply(cfg, s, e, now).Denied?
  {
    hide MintCode, SaveConsent, Consented, Approved, MayAnswer;
  }

  // ---------- What the request asked for

  ghost predicate SameRequest(v: World, w: World, txn: Id) {
    txn in v.state.txns && txn in w.state.txns && TxnContinues(v.state.txns[txn], w.state.txns[txn])
  }

  lemma RequestStep(cfg: Config, v: World, e: Event, w: World, txn: Id)
    requires Evolves(v.state, w.state, TxOf(cfg, v, e, w)) && txn in v.used && txn in w.state.txns
    ensures SameRequest(v, w, txn)
  {
  }

  lemma SameRequestThen(u: World, v: World, w: World, txn: Id)
    requires SameRequest(u, v, txn) && SameRequest(v, w, txn)
    ensures SameRequest(u, w, txn)
  {
  }

  /** A stored request has been stored since it was drawn, and asks for the same. */
  lemma {:induction false} RequestKept(cfg: Config, ws: seq<World>, es: seq<Event>, i: nat, j: nat, txn: Id)
    requires Run(cfg, ws, es) && i <= j < |ws| && txn in ws[i].used && txn in ws[j].state.txns
    ensures SameRequest(ws[i], ws[j], txn)
  {
    hide Inv, Evolves, StepAt;
    if i < j {
      UsedGrows(cfg, ws, es, i, j - 1);
      Onward(cfg, ws, es, j - 1);
      RequestStep(cfg, ws[j - 1], es[j - 1], ws[j], txn);
      RequestKept(cfg, ws, es, i, j - 1, txn);
      hide SameRequest;
      SameRequestThen(ws[i], ws[j - 1], ws[j], txn);
    }
  }

  /** The i-th step starts the request the j-th answers. */
  ghost predicate StartsAndAnswers(cfg: Config, ws: seq<World>, es: seq<Event>, i: nat, j: nat)
    requires |ws| == |es| + 1 && i < j < |es|
  {
    var a, b := es[i], es[j];
    && a.StartRequest? && b.CompleteRequest? && b.txn == a.txn
    && Authorize(ws[i].state, cfg, a.client, a.record, a.request, a.offline, a.row, a.binding, a.txn, a.t0).Committed?
    && Complete(ws[j].state, cfg, b.txn, b.binding, b.session, b.user, b.approve, b.approved, b.code,
                ws[j + 1].clock).Committed?
  }

  /** Whoever answers satisfies the request: a sign-in demanded at its start came after it, otherwise the
      account is the one it started with and is still fresh; and prompt=consent takes a decision. */
  predicate Honours(a: Event, b: Event, s: State, r: State, now: Time)
    requires a.StartRequest? && b.CompleteRequest?
  {
    && b.session in s.sessions && Recent(s.sessions[b.session], now, None)
    && var row := s.sessions[b.session];
    && row.endedAt.None? && row.userId in s.users && s.users[row.userId].active
    && (MustSignIn(a.request, a.row, a.t0) ==> row.authTime.value >= a.t0)
    && (!MustSignIn(a.request, a.row, a.t0) ==>
          Recent(row, now, a.request.maxAge) && (a.row.value.userId != NONE ==> row.userId == a.row.value.userId))
    && (a.request.consent && b.code !in s.codes && b.code in r.codes ==> b.approve.Some? && b.approve.value)
  }

  /** The code an answer issues is for the client, redirect URI and challenge the request was started with, for
      the account and session that answered, and for no more than was asked, approved and consented to. */
  predicate IssuedFor(a: Event, b: Event, s: State, r: State)
    requires a.StartRequest? && b.CompleteRequest? && b.session in s.sessions && b.code in r.codes
  {
    var c, row := r.codes[b.code], s.sessions[b.session];
    && c.clientId == a.client && c.redirectUri == a.request.redirectUri && c.codeChallenge == a.request.codeChallenge
    && c.clientUpdatedAt == a.record.updatedAt && c.transactionId == a.txn
    && c.userId == row.userId && c.opSessionId == row.id && !c.consumed && !c.revoked
    && (forall sc <- c.scopes :: sc == OpenId || (sc in a.request.scopes && (b.approve.Some? ==> sc in b.approved)))
    && Covered(r, c.userId, c.clientId, c.clientUpdatedAt, c.scopes)
  }

  lemma AppliedStart(cfg: Config, s: State, e: Event, now: Time)
    requires e.StartRequest?
    ensures Apply(cfg, s, e, now)
         == Authorize(s, cfg, e.client, e.record, e.request, e.offline, e.row, e.binding, e.txn, e.t0)
  {
    hide Authorize;
  }

  lemma AppliedAnswer(cfg: Config, s: State, e: Event, now: Time)
    requires e.CompleteRequest?
    ensures Apply(cfg, s, e, now)
         == Complete(s, cfg, e.txn, e.binding, e.session, e.user, e.approve, e.approved, e.code, now)
  {
    hide Complete;
  }

  /** The request as started and as answered. */
  ghost predicate Started(a: Event, cfg: Config, t: Txn)
    requires a.StartRequest?
  {
    AsksFor(t, cfg, a.client, a.record, a.request, a.binding, a.t0) && BoundTo(t, a.request, a.row, a.t0)
  }

  lemma AnswerHonours(cfg: Config, s: State, a: Event, b: Event, u: Txn, now: Time)
    requires a.StartRequest? && b.CompleteRequest? && b.txn == a.txn && b.session != NONE
    requires Started(a, cfg, u) && b.txn in s.txns && TxnContinues(u, s.txns[b.txn])
    requires Answerable(s, b.txn, b.binding, b.session, b.user, now)
    ensures var r := Complete(s, cfg, b.txn, b.binding, b.session, b.user, b.approve, b.approved, b.code, now).state;
            && Honours(a, b, s, r, now) && (b.code !in s.codes && b.code in r.codes ==> IssuedFor(a, b, s, r))
  {
    hide Complete, PruneGrants;
    AnswerStores(s, cfg, b.txn, b.binding, b.session, b.user, b.approve, b.approved, b.code, now);
  }

  lemma SessionsNamed(s: State, cfg: Config, used: set<Id>)
    requires Inv(s, cfg, used)
    ensures NONE !in s.sessions
  {
    hide SessionsInv, CodesInv, TokensInv, FamiliesInv;
  }

  lemma AnswerNeedsSession(
    s: State, cfg: Config, txn: Id, binding: Id, session: Id, user: Id, approve: Option<bool>, approved: seq<Scope>,
    code: Id, now: Time)
    requires Complete(s, cfg, txn, binding, session, user, approve, approved, code, now).Committed?
    ensures session in s.sessions && txn in s.txns
  {
    hide MintCode, SaveConsent, Consented, Approved, SessionFresh, UserHolds;
  }

  /** Along a run, an answer honours the request as it was started, and the code it issues is for that. */
  lemma RequestHonoured(cfg: Config, ws: seq<World>, es: seq<Event>, i: nat, j: nat)
    requires Run(cfg, ws, es) && i < j < |es| && StartsAndAnswers(cfg, ws, es, i, j)
    ensures Honours(es[i], es[j], ws[j].state, ws[j + 1].state, ws[j + 1].clock)
    ensures es[j].code !in ws[j].state.codes && es[j].code in ws[j + 1].state.codes ==>
              IssuedFor(es[i], es[j], ws[j].state, ws[j + 1].state)
  {
    hide Inv, StepAt, Complete, Authorize, Apply, Honours, IssuedFor, Possible, Answerable;
    hide AsksFor, BoundTo, TxnContinues;
    var a, b := es[i], es[j];
    StepStores(cfg, ws, es, i);
    StepStores(cfg, ws, es, j);
    AppliedStart(cfg, ws[i].state, a, ws[i + 1].clock);
    AuthorizeStores(ws[i].state, cfg, a.client, a.record, a.request, a.offline, a.row, a.binding, a.txn, a.t0);
    At(cfg, ws, es, i + 1);
    KnownTxn(ws[i + 1].state, cfg, ws[i + 1].used);
    At(cfg, ws, es, j);
    SessionsNamed(ws[j].state, cfg, ws[j].used);
    AppliedAnswer(cfg, ws[j].state, b, ws[j + 1].clock);
    AnswerNeedsSession(ws[j].state, cfg, b.txn, b.binding, b.session, b.user, b.approve, b.approved, b.code,
                       ws[j + 1].clock);
    AnswerCommits(ws[j].state, cfg, b.txn, b.binding, b.session, b.user, b.approve, b.approved, b.code,
                  ws[j + 1].clock);
    RequestKept(cfg, ws, es, i + 1, j, a.txn);
    AnswerHonours(cfg, ws[j].state, a, b, ws[i + 1].state.txns[a.txn], ws[j + 1].clock);
  }
}
