/** The authorization code flow from end to end, over whole runs: what a client asks at the start is what its
    token carries at the end. */
module CodeFlow {
  import opened Records
  import opened Invariants
  import opened Evolution
  import opened Authorization
  import opened TokenEndpoint
  import opened Issuance
  import opened Machine
  import opened Replay
  import opened Requests
  import Endings

  /** A stored code has been stored since it was drawn, and is for the same. */
  ghost predicate SameCode(v: World, w: World, code: Id) {
    && code in v.state.codes && code in w.state.codes
    && var c, d := v.state.codes[code], w.state.codes[code];
    d == c.(revoked := d.revoked, consumed := d.consumed, appSessionId := d.appSessionId, retainUntil := d.retainUntil)
  }

  lemma CodeStep(cfg: Config, v: World, e: Event, w: World, code: Id)
    requires Evolves(v.state, w.state, TxOf(cfg, v, e, w)) && code in v.used && code in w.state.codes
    ensures SameCode(v, w, code)
  {
  }

  lemma {:induction false} CodeKept(cfg: Config, ws: seq<World>, es: seq<Event>, i: nat, j: nat, code: Id)
    requires Run(cfg, ws, es) && i <= j < |ws| && code in ws[i].used && code in ws[j].state.codes
    ensures SameCode(ws[i], ws[j], code)
  {
    hide Inv, Evolves, StepAt;
    if i < j {
      UsedGrows(cfg, ws, es, i, j - 1);
      Onward(cfg, ws, es, j - 1);
      CodeStep(cfg, ws[j - 1], es[j - 1], ws[j], code);
      CodeKept(cfg, ws, es, i, j - 1, code);
    }
  }

  /** The i-th step starts a request, the j-th answers it and issues a code, and the k-th exchanges the code for
      the first time. */
  ghost predicate Flows(cfg: Config, ws: seq<World>, es: seq<Event>, i: nat, j: nat, k: nat)
    requires |ws| == |es| + 1 && i < j < k < |es|
  {
    && StartsAndAnswers(cfg, ws, es, i, j)
    && es[j].code !in ws[j].state.codes && es[j].code in ws[j + 1].state.codes
    && Exchanges(cfg, ws, es, k, es[j].code)
  }

  /** The exchange is by the client that asked, at the redirect URI and with the verifier it committed to; the
      token is for the account and session that answered, and for no more than was asked and approved. */
  predicate Delivers(a: Event, b: Event, x: Event, s: State, r: State)
    requires a.StartRequest? && b.CompleteRequest? && x.ExchangeCode? && b.session in s.sessions
  {
    && x.client == a.client && x.redirectUri == a.request.redirectUri && x.challenge == a.request.codeChallenge
    && x.record.updatedAt == a.record.updatedAt
    && x.drawing.access in r.tokens
    && var t, row := r.tokens[x.drawing.access], s.sessions[b.session];
    && t.clientId == a.client && t.userId == row.userId && t.opSessionId == row.id && t.codeHash == b.code && !t.revoked
    && forall sc <- t.scopes :: sc == OpenId || (sc in a.request.scopes && (b.approve.Some? ==> sc in b.approved))
  }

  lemma ExchangeDelivers(
    cfg: Config, s: State, a: Event, b: Event, x: Event, u: State, c: Code, now: Time, r: State)
    requires a.StartRequest? && b.CompleteRequest? && x.ExchangeCode? && b.session in s.sessions && ValidConfig(cfg)
    requires b.code in r.codes && IssuedFor(a, b, s, r) && c == r.codes[b.code]
    requires x.code == b.code && b.code in u.codes && !u.codes[b.code].consumed && x.drawing.app !in u.apps
    requires var d := u.codes[b.code];
             d == c.(revoked := d.revoked, consumed := d.consumed, appSessionId := d.appSessionId,
                     retainUntil := d.retainUntil)
    requires Exchange(u, cfg, x.client, x.record, b.code, x.redirectUri, x.challenge, x.drawing, now).Committed?
    ensures Delivers(a, b, x, s,
                     Exchange(u, cfg, x.client, x.record, b.code, x.redirectUri, x.challenge, x.drawing, now).state)
  {
    hide Exchange, Joins, OfflineAllowed, CanJoin, FamilyOf, OnlyNewKey;
    ExchangeCommits(u, cfg, x.client, x.record, b.code, x.redirectUri, x.challenge, x.drawing, now);
    ExchangeYields(u, cfg, x.client, x.record, b.code, x.redirectUri, x.challenge, x.drawing, now);
  }

  /** Along a run, whatever happens in between. */
  lemma TokenOfRequest(cfg: Config, ws: seq<World>, es: seq<Event>, i: nat, j: nat, k: nat)
    requires Run(cfg, ws, es) && i < j < k < |es| && Flows(cfg, ws, es, i, j, k)
    ensures es[j].session in ws[j].state.sessions
    ensures Delivers(es[i], es[j], es[k], ws[j].state, ws[k + 1].state)
  {
    hide Inv, StepAt, Exchange, Apply, Possible, Honours, IssuedFor, Authorize, Complete;
    RequestHonoured(cfg, ws, es, i, j);
    HonouredSession(cfg, es[i], es[j], ws[j].state, ws[j + 1].state, ws[j + 1].clock);
    At(cfg, ws, es, j + 1);
    KnownCode(ws[j + 1].state, cfg, ws[j + 1].used, es[j].code);
    CodeKept(cfg, ws, es, j + 1, k, es[j].code);
    StepStores(cfg, ws, es, k);
    AppliedExchange(cfg, ws[k].state, es[k], ws[k + 1].clock);
    At(cfg, ws, es, k);
    Endings.KnownApps(ws[k].state, cfg, ws[k].used);
    FreshApp(es[k], ws[k]);
    ExchangeDelivers(cfg, ws[j].state, es[i], es[j], es[k], ws[k].state, ws[j + 1].state.codes[es[j].code],
                     ws[k + 1].clock, ws[j + 1].state);
  }

  lemma HonouredSession(cfg: Config, a: Event, b: Event, s: State, r: State, now: Time)
    requires a.StartRequest? && b.CompleteRequest? && Honours(a, b, s, r, now)
    ensures b.session in s.sessions
  {
  }

  lemma FreshApp(e: Event, w: World)
    requires e.ExchangeCode? && Draws(e) !! w.used && w.state.apps.Keys <= w.used
    ensures e.drawing.app !in w.state.apps
  {
  }
}
