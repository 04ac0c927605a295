/** Lease safety over whole runs: while a lease runs and its result is not recorded, no second worker is
    given the notice, and none is given one 24 hours or more after it was created. */
module Leases {
  import opened Records
  import opened Cascades
  import opened Outbox
  import opened Invariants
  import opened Evolution
  import opened Machine
  import opened OutboxRuns
  import Deliveries

  /** The i-th step leases the notice. */
  ghost predicate Grants(ws: seq<World>, es: seq<Event>, i: nat, id: DeliveryId)
    requires |ws| == |es| + 1 && i < |es|
  {
    && es[i].TakeLease?
    && Deliveries.GrantedJob(ws[i].state, es[i].jobs, es[i].op, es[i].client, es[i].lease, ws[i + 1].clock) == Some(id)
  }

  /** The k-th step records the result of that lease. */
  ghost predicate Settles(es: seq<Event>, k: nat, id: DeliveryId, lease: Id)
    requires k < |es|
  {
    es[k].RecordResult? && es[k].notice == id && es[k].lease == lease
  }

  // ---------- What a grant finds and leaves ----------

  /** The sweep before a pass moves no notice about an ended app session. */
  lemma SweepKeepsNotice(s: State, now: Time, id: DeliveryId)
    requires id.AppNotice? && id.app in s.apps && s.apps[id.app].endedAt.Some?
    requires id in PruneLogoutState(s, now).deliveries
    ensures id in s.deliveries && PruneLogoutState(s, now).deliveries[id] == s.deliveries[id]
  {
    hide SessionsEnded, AppsEnded, TokensEnded, CodesOfSessions, TxnsOfSessions, StaleApps, StaleSessions,
         StaleOperations;
    hide ExpiredInteractions, Notified, IdsOf, LiveRows, RowsWithIds, AppDelivery, OpDelivery;
  }

  /** What the leased notice looked like, and what it looks like now. Its client, if there still is one, has the
      endpoint it is addressed to. */
  ghost predicate Granted(clients: map<Id, Client>, d: Delivery, e: Delivery, lease: Id, now: Time) {
    && Waiting(d) && !After(d.leaseUntil, now) && !After(d.nextAttempt, now) && now - d.createdAt < RETRY_WINDOW
    && (d.clientId in clients ==> clients[d.clientId].metadata.backchannelUri == d.endpoint)
    && e == d.(status := Delivering, leaseUntil := Some(now + LEASE), leaseId := lease, attempts := d.attempts + 1,
               updatedAt := now)
  }

  lemma GrantIs(s: State, jobs: seq<DeliveryId>, op: Id, client: Id, lease: Id, now: Time, id: DeliveryId)
    requires Deliveries.GrantedJob(s, jobs, op, client, lease, now) == Some(id)
    ensures var m := PruneLogoutState(s, now);
            var o := Deliveries.AcquireStep(s, jobs, op, client, lease, now);
            && o.Committed? && id.AppNotice? && id in m.deliveries && id in o.state.deliveries
            && id.channel == Backchannel && Granted(s.clients, m.deliveries[id], o.state.deliveries[id], lease, now)
  {
    SweepClients(s, now);
    hide PruneLogoutState, Acquire;
    var m := PruneLogoutState(s, now);
    AcquireMoves(m.deliveries, m.clients, jobs, op, client, lease, now);
  }

  lemma SweepClients(s: State, now: Time)
    ensures PruneLogoutState(s, now).clients == s.clients
  {
  }

  lemma AppliedLease(cfg: Config, s: State, e: Event, now: Time)
    requires e.TakeLease?
    ensures Apply(cfg, s, e, now) == Deliveries.AcquireStep(s, e.jobs, e.op, e.client, e.lease, now)
  {
    hide Deliveries.AcquireStep;
  }

  /** A step that leases a notice finds it waiting, its last lease run out, its next attempt due, and less
      than 24 hours old, and addressed to its client's endpoint of that moment; and it leaves it leased for 30
      seconds. */
  lemma GrantedInTime(cfg: Config, ws: seq<World>, es: seq<Event>, i: nat, id: DeliveryId)
    requires Run(cfg, ws, es) && i < |es| && Grants(ws, es, i, id)
    ensures id.AppNotice? && id.channel == Backchannel && id in ws[i + 1].state.deliveries
    ensures var d, now := ws[i + 1].state.deliveries[id], ws[i + 1].clock;
            && d.status == Delivering && d.leaseId == es[i].lease && d.leaseUntil == Some(now + LEASE)
            && now - d.createdAt < RETRY_WINDOW
            && (d.clientId in ws[i].state.clients ==>
                  ws[i].state.clients[d.clientId].metadata.backchannelUri == d.endpoint)
    ensures id in ws[i].state.deliveries ==>
              Granted(ws[i].state.clients, ws[i].state.deliveries[id], ws[i + 1].state.deliveries[id], es[i].lease,
                      ws[i + 1].clock)
  {
    hide Inv, StepAt, Apply, Possible, Deliveries.AcquireStep, Deliveries.GrantedJob, PruneLogoutState;
    var e, now := es[i], ws[i + 1].clock;
    StepStores(cfg, ws, es, i);
    GrantIs(ws[i].state, e.jobs, e.op, e.client, e.lease, now, id);
    AppliedLease(cfg, ws[i].state, e, now);
    if id in ws[i].state.deliveries {
      At(cfg, ws, es, i);
      NoticeOver(ws[i].state, cfg, ws[i].used, id);
      SweepKeepsNotice(ws[i].state, now, id);
    }
  }

  lemma NoticeOver(s: State, cfg: Config, used: set<Id>, id: DeliveryId)
    requires Inv(s, cfg, used) && id in s.deliveries && id.AppNotice?
    ensures id.app in s.apps && s.apps[id.app].endedAt.Some? && id.app in used
  {
    hide CodesInv, TokensInv, FamiliesInv, Noticed, Settled;
    assert NoticeOk(s.apps, id, s.deliveries[id].createdAt);
  }

  // ---------- While a lease runs ----------

  /** The lease holds the notice until then. */
  ghost predicate HeldUntil(w: World, id: DeliveryId, lease: Id, until: Time) {
    id in w.state.deliveries && w.state.deliveries[id].leaseId == lease
    && w.state.deliveries[id].leaseUntil == Some(until)
  }

  /** Only a grant or the recorded result of the running lease moves a lease. */
  lemma HeldStep(cfg: Config, v: World, e: Event, w: World, id: DeliveryId, lease: Id, until: Time)
    requires Inv(v.state, cfg, v.used) && Evolves(v.state, w.state, TxOf(cfg, v, e, w))
    requires id.AppNotice? && HeldUntil(v, id, lease, until) && id in w.state.deliveries
    requires !(e.TakeLease? && Deliveries.GrantedJob(v.state, e.jobs, e.op, e.client, e.lease, w.clock) == Some(id))
    requires !(e.RecordResult? && e.notice == id && e.lease == lease)
    ensures HeldUntil(w, id, lease, until)
  {
    NoticeOver(v.state, cfg, v.used, id);
    hide Inv, Deliveries.GrantedJob;
    assert id !in LeaseMoves(v.state, e, w.clock);
  }

  /** No second worker is given a notice before the lease of the first runs out, unless the result of that
      lease was recorded; and whatever the workers do with others in between. */
  lemma {:induction false} NoSecondLease(cfg: Config, ws: seq<World>, es: seq<Event>, i: nat, j: nat, id: DeliveryId)
    requires Run(cfg, ws, es) && Steady(ws) && i < j < |es|
    requires Grants(ws, es, i, id) && Grants(ws, es, j, id)
    requires forall k :: i < k < j ==> !Settles(es, k, id, es[i].lease)
    ensures ws[j + 1].clock >= ws[i + 1].clock + LEASE
  {
    hide Inv, StepAt, Deliveries.GrantedJob, Settles;
    GrantedInTime(cfg, ws, es, i, id);
    GrantedInTime(cfg, ws, es, j, id);
    if k :| i < k < j && Grants(ws, es, k, id) {
      NoSecondLease(cfg, ws, es, i, k, id);
    } else {
      StillStored(cfg, ws, es, i + 1, j + 1, id);
      HeldAllAlong(cfg, ws, es, i + 1, j, id, es[i].lease, ws[i + 1].clock + LEASE);
    }
  }

  lemma {:induction false} HeldAllAlong(
    cfg: Config, ws: seq<World>, es: seq<Event>, i: nat, j: nat, id: DeliveryId, lease: Id, until: Time)
    requires Run(cfg, ws, es) && i <= j < |ws| && id.AppNotice?
    requires HeldUntil(ws[i], id, lease, until) && id in ws[j].state.deliveries
    requires forall k :: i <= k < j ==> !Settles(es, k, id, lease) && !Grants(ws, es, k, id)
    ensures HeldUntil(ws[j], id, lease, until)
  {
    hide Inv, Evolves, StepAt;
    if i < j {
      StillStored(cfg, ws, es, i, j, id);
      HeldAllAlong(cfg, ws, es, i, j - 1, id, lease, until);
      Onward(cfg, ws, es, j - 1);
      assert !Settles(es, j - 1, id, lease) && !Grants(ws, es, j - 1, id);
      HeldStep(cfg, ws[j - 1], es[j - 1], ws[j], id, lease, until);
    }
  }

  /** A notice stored at two moments was stored at every moment between. */
  lemma StillStored(cfg: Config, ws: seq<World>, es: seq<Event>, i: nat, j: nat, id: DeliveryId)
    requires Run(cfg, ws, es) && i < j < |ws| && id.AppNotice? && id in ws[i].state.deliveries
             && id in ws[j].state.deliveries
    ensures id in ws[j - 1].state.deliveries
  {
    hide Inv, StepAt, AppOver;
    At(cfg, ws, es, i);
    AppEnded(ws[i].state, cfg, ws[i].used, id);
    StoredAllAlong(cfg, ws, es, i, j, id);
  }
}
