/** What becomes of the notices of an app session: it is notified on exactly the channels its client had when
    it ended, and keeps those notices as long as it is stored. */
module Endings {
  import opened Records
  import opened Validity
  import opened Cascades
  import opened Outbox
  import opened Invariants
  import opened Evolution
  import opened Steps
  import opened TokenEndpoint
  import opened Machine

  /** The i-th step ends the app session. */
  ghost predicate EndedBy(ws: seq<World>, i: nat, a: Id)
    requires i + 1 < |ws|
  {
    && a in ws[i].state.apps && ws[i].state.apps[a].endedAt.None?
    && a in ws[i + 1].state.apps && ws[i + 1].state.apps[a].endedAt.Some?
  }

  /** The notices of an ended app session are those its client's metadata asks for: one to exactly each
      endpoint it has, or the "unsupported" record alone; each says which session and client, when and why. */
  ghost predicate Told(s: State, clients: map<Id, Client>, a: Id)
    requires a in s.apps
  {
    var app := s.apps[a];
    var back := if app.clientId in clients then clients[app.clientId].metadata.backchannelUri else NONE;
    var front := if app.clientId in clients then clients[app.clientId].metadata.frontchannelUri else NONE;
    && (AppNotice(a, Backchannel) in s.deliveries <==> back != NONE)
    && (AppNotice(a, Frontchannel) in s.deliveries <==> front != NONE)
    && (AppNotice(a, NoChannel) in s.deliveries <==> back == NONE && front == NONE)
    && AppNotice(a, Local) !in s.deliveries
    && (back != NONE ==> s.deliveries[AppNotice(a, Backchannel)].endpoint == back)
    && (front != NONE ==> s.deliveries[AppNotice(a, Frontchannel)].endpoint == front)
    && (forall channel :: AppNotice(a, channel) in s.deliveries ==> Names(app, s.deliveries[AppNotice(a, channel)]))
  }

  /** The notice names the app session's session and client, and when and why it ended. */
  predicate Names(a: App, d: Delivery) {
    d.opSessionId == a.opSessionId && d.clientId == a.clientId && d.reason == a.endReason
    && a.endedAt == Some(d.createdAt)
  }

  lemma KnownApps(s: State, cfg: Config, used: set<Id>)
    requires Inv(s, cfg, used)
    ensures s.apps.Keys <= used
  {
    hide SessionsInv, CodesInv, TokensInv, FamiliesInv;
  }

  lemma EndingStep(cfg: Config, v: World, e: Event, w: World, a: Id)
    requires Evolves(v.state, w.state, TxOf(cfg, v, e, w)) && a in v.used
    requires a in v.state.apps && v.state.apps[a].endedAt.None? && a in w.state.apps && w.state.apps[a].endedAt.Some?
    ensures Told(w.state, v.state.clients, a)
  {
    assert w.state.apps[a].clientId == v.state.apps[a].clientId;
    assert EndingsNotified(v.state.apps, v.state.clients, w.state.apps, w.state.deliveries, v.used);
    hide Evolves, Told, EndingsNotified;
    NotifiedTold(v.state, w.state, v.used, a);
  }

  lemma NotifiedTold(s: State, r: State, used: set<Id>, a: Id)
    requires EndingsNotified(s.apps, s.clients, r.apps, r.deliveries, used) && a in used
    requires a in s.apps && s.apps[a].endedAt.None? && a in r.apps && r.apps[a].endedAt.Some?
    requires r.apps[a].clientId == s.apps[a].clientId
    ensures Told(r, s.clients, a)
  {
    forall channel
      ensures AppNotice(a, channel) in r.deliveries <==> Notified(s.clients, s.apps[a].clientId, channel)
      ensures AppNotice(a, channel) in r.deliveries ==>
                NoticeAbout(s.clients, r.apps[a], channel, r.deliveries[AppNotice(a, channel)])
    {
    }
    hide EndingsNotified;
  }

  /** A step leaves an ended app session that stays stored, and its notices, but for their progress. */
  lemma EndedStep(cfg: Config, v: World, e: Event, w: World, a: Id, clients: map<Id, Client>)
    requires Evolves(v.state, w.state, TxOf(cfg, v, e, w)) && a in v.used && AppOver(v.state.apps, a)
             && a in v.state.apps && a in w.state.apps
    requires Told(v.state, clients, a)
    ensures AppOver(w.state.apps, a) && Told(w.state, clients, a)
  {
    var tx := TxOf(cfg, v, e, w);
    assert w.state.apps[a] == v.state.apps[a] && a in tx.used;
    assert NoticesStay(v.state.deliveries, w.state.apps, w.state.deliveries, v.used);
    assert NoticesEvolve(v.state.deliveries, v.state.apps, w.state.deliveries, tx);
    hide Evolves, Told, NoticesStay, NoticesEvolve, TxOf;
    KeptTold(v.state, w.state, v.used, tx, a, clients);
  }

  lemma KeptTold(s: State, r: State, used: set<Id>, tx: Tx, a: Id, clients: map<Id, Client>)
    requires NoticesStay(s.deliveries, r.apps, r.deliveries, used) && a in used
    requires NoticesEvolve(s.deliveries, s.apps, r.deliveries, tx) && a in tx.used && AppOver(s.apps, a)
    requires a in s.apps && a in r.apps && r.apps[a] == s.apps[a] && Told(s, clients, a)
    ensures Told(r, clients, a)
  {
    hide Notified, SameLease;
    forall channel
      ensures AppNotice(a, channel) in r.deliveries <==> AppNotice(a, channel) in s.deliveries
      ensures AppNotice(a, channel) in r.deliveries ==>
                NoticeContinues(s.deliveries[AppNotice(a, channel)], r.deliveries[AppNotice(a, channel)])
    {
    }
    hide NoticesStay, NoticesEvolve;
  }

  /** An app session that ended at a step has, from then on and while it is stored, exactly the notices that
      the metadata its client had before that step asks for, each with a status of its channel. */
  lemma {:induction false} NoticesOnEnding(cfg: Config, ws: seq<World>, es: seq<Event>, i: nat, j: nat, a: Id)
    requires Run(cfg, ws, es) && i < j < |ws| && EndedBy(ws, i, a) && a in ws[j].state.apps
    ensures AppOver(ws[j].state.apps, a) && Told(ws[j].state, ws[i].state.clients, a)
    ensures forall channel :: AppNotice(a, channel) in ws[j].state.deliveries ==>
              Suits(AppNotice(a, channel), ws[j].state.deliveries[AppNotice(a, channel)].status)
  {
    hide Inv, Evolves, StepAt, Told, Suits;
    Onward(cfg, ws, es, j - 1);
    At(cfg, ws, es, i);
    KnownApps(ws[i].state, cfg, ws[i].used);
    if j == i + 1 {
      EndingStep(cfg, ws[i], es[i], ws[j], a);
    } else {
      UsedGrows(cfg, ws, es, i, j - 1);
      StoredBefore(cfg, ws[j - 1], es[j - 1], ws[j], a);
      NoticesOnEnding(cfg, ws, es, i, j - 1, a);
      EndedStep(cfg, ws[j - 1], es[j - 1], ws[j], a, ws[i].state.clients);
    }
    SuitedIn(ws[j].state, cfg, ws[j].used);
  }

  lemma SuitedIn(s: State, cfg: Config, used: set<Id>)
    requires Inv(s, cfg, used)
    ensures forall id <- s.deliveries :: Suits(id, s.deliveries[id].status)
  {
    hide KnownIds, CodesInv, TokensInv, FamiliesInv, NoticeOk, Noticed;
  }

  lemma StoredBefore(cfg: Config, v: World, e: Event, w: World, a: Id)
    requires Evolves(v.state, w.state, TxOf(cfg, v, e, w)) && a in v.used && a in w.state.apps
    ensures a in v.state.apps && AppContinues(v.state.apps[a], w.state.apps[a])
  {
  }

  // ---------- Every ended app session was live ----------

  lemma IssueKeepsApps(s: State, r: State, cfg: Config, code: Id, c: Code, app: Id, d: Drawing, now: Time)
    requires IssueFromCode(s, cfg, code, c, app, d, now) == Committed(r)
    ensures r.apps == s.apps
  {
  }

  lemma JoinAddsLive(s: State, op: Id, client: Id, user: Id, drawnId: Id, now: Time, a: Id)
    requires JoinSession(s, op, client, user, drawnId, now).Joined?
    requires a !in s.apps && a in JoinSession(s, op, client, user, drawnId, now).state.apps
    ensures JoinSession(s, op, client, user, drawnId, now).state.apps[a].endedAt.None?
  {
    hide SeenRows;
  }

  lemma ExchangeJoinsLive(
    s: State, cfg: Config, client: Id, c: Client, code: Id, redirectUri: Id, challenge: Id, d: Drawing, now: Time,
    a: Id)
    requires Exchange(s, cfg, client, c, code, redirectUri, challenge, d, now).Committed?
    requires a !in s.apps && a in Exchange(s, cfg, client, c, code, redirectUri, challenge, d, now).state.apps
    ensures Exchange(s, cfg, client, c, code, redirectUri, challenge, d, now).state.apps[a].endedAt.None?
  {
    hide IssueFromCode, JoinSession, SessionActive, UserHolds, TokensRevoked, FamiliesRevoked;
    var r := Exchange(s, cfg, client, c, code, redirectUri, challenge, d, now).state;
    var record := s.codes[code];
    if record.consumed {
    } else if record.opSessionId == NONE {
      IssueKeepsApps(s, r, cfg, code, record, NONE, d, now);
    } else {
      var j := JoinSession(s, record.opSessionId, client, record.userId, d.app, now);
      IssueKeepsApps(j.state, r, cfg, code, record.(appSessionId := j.app), j.app, d, now);
      JoinAddsLive(s, record.opSessionId, client, record.userId, d.app, now, a);
    }
  }

  lemma AddedLive(cfg: Config, v: World, e: Event, w: World, a: Id)
    requires Evolves(v.state, w.state, TxOf(cfg, v, e, w)) && w.state == Next(v.state, Apply(cfg, v.state, e, w.clock))
    requires a !in v.state.apps && a in w.state.apps
    ensures w.state.apps[a].endedAt.None?
  {
    hide TokenEndpoint.Exchange;
    assert e.ExchangeCode?;
    ExchangeJoinsLive(v.state, cfg, e.client, e.record, e.code, e.redirectUri, e.challenge, e.drawing, w.clock, a);
  }

  lemma {:induction false} EndedSomewhere(cfg: Config, ws: seq<World>, es: seq<Event>, j: nat, a: Id) returns (i: nat)
    requires Run(cfg, ws, es) && j < |ws| && a in ws[j].state.apps && ws[j].state.apps[a].endedAt.Some?
    ensures i < j && EndedBy(ws, i, a)
  {
    hide Inv, Evolves, StepAt, Apply;
    assert j > 0 by { hide *; FirstHasNoApps(cfg, ws, es); }
    StepStores(cfg, ws, es, j - 1);
    Onward(cfg, ws, es, j - 1);
    if a !in ws[j - 1].state.apps {
      AddedLive(cfg, ws[j - 1], es[j - 1], ws[j], a);
    }
    if ws[j - 1].state.apps[a].endedAt.None? {
      i := j - 1;
    } else {
      i := EndedSomewhere(cfg, ws, es, j - 1, a);
    }
  }

  lemma FirstHasNoApps(cfg: Config, ws: seq<World>, es: seq<Event>)
    requires Run(cfg, ws, es)
    ensures ws[0].state.apps == map[]
  {
    hide StepAt;
  }

  /** Conservation: at every moment, every stored ended app session was ended by one step of the run, and has
      exactly one notice to each endpoint its client had configured just before that step, or, if it had none,
      exactly the "unsupported" record. */
  lemma NotifiedExactly(cfg: Config, ws: seq<World>, es: seq<Event>, j: nat, a: Id)
    requires Run(cfg, ws, es) && j < |ws| && a in ws[j].state.apps && ws[j].state.apps[a].endedAt.Some?
    ensures exists i :: 0 <= i < j && EndedBy(ws, i, a) && Told(ws[j].state, ws[i].state.clients, a)
    ensures forall channel :: AppNotice(a, channel) in ws[j].state.deliveries ==>
              Suits(AppNotice(a, channel), ws[j].state.deliveries[AppNotice(a, channel)].status)
  {
    hide StepAt, Told, Suits;
    var i := EndedSomewhere(cfg, ws, es, j, a);
    NoticesOnEnding(cfg, ws, es, i, j, a);
  }
}
