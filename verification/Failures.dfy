/** When a failed notice of the outbox is failed for good, over whole runs. */
module Failures {
  import opened Records
  import opened Cascades
  import opened Outbox
  import opened Invariants
  import opened Evolution
  import opened Steps
  import opened Machine
  import Deliveries
  import Leases
  import Logouts

  predicate FailedNow(w: World, id: DeliveryId) {
    id in w.state.deliveries && w.state.deliveries[id].status == Failed
  }

  // ---------- Giving up keeps the lease ----------

  /** The input: a pass gives up a notice whose last lease has no result, after the retry window or because
      the client's endpoint changed. The lease stays, so a late answer under it still counts: it acknowledges
      the notice, or makes it pending again, unless it is a permanent failure. */
  lemma LateAnswer(
    s: State, jobs: seq<DeliveryId>, op: Id, client: Id, lease: Id, now: Time, id: DeliveryId, a: Answer, later: Time)
    requires Sorted(PruneLogoutState(s, now).deliveries, jobs) && id in jobs
    requires var m := PruneLogoutState(s, now);
             && (forall k <- jobs :: Judgement(m.deliveries, m.clients, k, op, client, now) != Grant)
             && (Judgement(m.deliveries, m.clients, id, op, client, now) == Expire
                 || Judgement(m.deliveries, m.clients, id, op, client, now) == Retarget)
    ensures var d := PruneLogoutState(s, now).deliveries[id];
            var o := Deliveries.AcquireStep(s, jobs, op, client, lease, now);
            && o.Committed? && id in o.state.deliveries && o.state.deliveries[id].status == Failed
            && o.state.deliveries[id].leaseId == d.leaseId
            && var r := Deliveries.RecordStep(o.state, id, d.leaseId, a, later).state;
            && id in r.deliveries
            && (r.deliveries[id].status == Acknowledged <==> a.httpStatus == 200)
            && (r.deliveries[id].status == Failed <==> Permanent(a))
            && (r.deliveries[id].status == Pending <==> a.httpStatus != 200 && !Permanent(a))
  {
    hide PruneLogoutState, Acquire, Judge, RetryDelay, LastOf;
    var m := PruneLogoutState(s, now);
    AcquireAll(m.deliveries, m.clients, jobs, op, client, lease, now, id);
  }

  // ---------- Exactly when a failure ends ----------

  /** The step records an answer that is not a permanent failure under the lease the notice still carries, or
      an administrator's retry of the notice commits. */
  ghost predicate Revives(cfg: Config, s: State, e: Event, now: Time, id: DeliveryId) {
    || (e.RecordResult? && e.notice == id && e.lease != NONE && Holds(s.deliveries, id, e.lease)
        && !Permanent(e.answer))
    || (Retries(e) && e.target.notice == id && Apply(cfg, s, e, now).Committed?)
  }

  lemma RecordedFails(cfg: Config, s: State, e: Event, now: Time, id: DeliveryId)
    requires e.RecordResult? && e.notice == id && Holds(s.deliveries, id, e.lease)
    ensures var r := Next(s, Apply(cfg, s, e, now));
            id in r.deliveries && (r.deliveries[id].status == Failed <==> Permanent(e.answer))
  {
    hide RetryDelay, LastOf;
  }

  lemma RetryIs(
    s: State, hash: Id, admin: bool, id: DeliveryId, offline: bool, checked: Option<Id>, operation: Id, now: Time)
    requires id in s.deliveries
    ensures var o := Logouts.EndSessionsStep(s, hash, admin, Logouts.RetryNotice(id), offline, checked, operation, now);
            o.Committed? ==> id in o.state.deliveries && o.state.deliveries[id].status == Pending
  {
  }

  lemma RetriedPends(cfg: Config, s: State, e: Event, now: Time, id: DeliveryId)
    requires Retries(e) && e.target.notice == id && id in s.deliveries
    ensures var o := Apply(cfg, s, e, now);
            o.Committed? ==> id in o.state.deliveries && o.state.deliveries[id].status == Pending
  {
    hide Logouts.EndSessionsStep;
    RetryIs(s, e.hash, e.admin, id, e.offline, e.checked, e.operation, now);
  }

  lemma UnmovedFails(cfg: Config, v: World, e: Event, w: World, id: DeliveryId)
    requires Inv(v.state, cfg, v.used) && Evolves(v.state, w.state, TxOf(cfg, v, e, w))
    requires id.AppNotice? && FailedNow(v, id) && id in w.state.deliveries && id !in Revivals(v.state, e)
    ensures w.state.deliveries[id] == v.state.deliveries[id]
  {
    Leases.NoticeOver(v.state, cfg, v.used, id);
    hide Inv, LeaseMoves, Revivals;
  }

  /** A stored failed notice stops being failed at a step if and only if the step revives it. */
  lemma FailureEnds(cfg: Config, v: World, e: Event, w: World, id: DeliveryId)
    requires Inv(v.state, cfg, v.used) && Evolves(v.state, w.state, TxOf(cfg, v, e, w))
    requires w.state == Next(v.state, Apply(cfg, v.state, e, w.clock)) && (e.RecordResult? ==> e.lease != NONE)
    requires id.AppNotice? && FailedNow(v, id) && id in w.state.deliveries
    ensures !FailedNow(w, id) <==> Revives(cfg, v.state, e, w.clock, id)
  {
    hide Inv, Evolves, Apply, TxOf;
    if id !in Revivals(v.state, e) {
      UnmovedFails(cfg, v, e, w, id);
    } else if e.RecordResult? {
      RecordedFails(cfg, v.state, e, w.clock, id);
    } else {
      RetriedPends(cfg, v.state, e, w.clock, id);
    }
  }

  // ---------- Over runs ----------

  /** A notice that was failed and is not any more was revived by a step in between. */
  lemma {:induction false} RevivedBetween(cfg: Config, ws: seq<World>, es: seq<Event>, i: nat, j: nat, id: DeliveryId)
    requires Run(cfg, ws, es) && i <= j < |ws| && id.AppNotice? && FailedNow(ws[i], id)
    requires id in ws[j].state.deliveries && !FailedNow(ws[j], id)
    ensures exists k :: i <= k < j && Revives(cfg, ws[k].state, es[k], ws[k + 1].clock, id)
  {
    hide Inv, Evolves, StepAt, Revives, Apply, Possible;
    Leases.StillStored(cfg, ws, es, i, j, id);
    if FailedNow(ws[j - 1], id) {
      StepStores(cfg, ws, es, j - 1);
      PossibleResult(ws[..j], es[j - 1]);
      Onward(cfg, ws, es, j - 1);
      FailureEnds(cfg, ws[j - 1], es[j - 1], ws[j], id);
    } else {
      RevivedBetween(cfg, ws, es, i, j - 1, id);
    }
  }

  /** An administrator retries the notice at the k-th step. */
  ghost predicate RetriedAt(es: seq<Event>, k: nat, id: DeliveryId)
    requires k < |es|
  {
    Retries(es[k]) && es[k].target.notice == id
  }

  lemma SettledStep(cfg: Config, v: World, e: Event, w: World, id: DeliveryId)
    requires Inv(v.state, cfg, v.used) && Evolves(v.state, w.state, TxOf(cfg, v, e, w))
             && (e.RecordResult? ==> e.lease != NONE)
    requires id.AppNotice? && FailedNow(v, id) && v.state.deliveries[id].leaseId == NONE && id in w.state.deliveries
    requires !(Retries(e) && e.target.notice == id)
    ensures w.state.deliveries[id] == v.state.deliveries[id]
  {
    hide Inv, Evolves, TxOf;
    assert id !in Revivals(v.state, e);
    UnmovedFails(cfg, v, e, w, id);
  }

  /** A failed notice without a lease changes no more until retention deletes it or an administrator retries
      it: only a lease left in place lets a failure end by itself. */
  lemma {:induction false} FailedForGood(cfg: Config, ws: seq<World>, es: seq<Event>, i: nat, j: nat, id: DeliveryId)
    requires Run(cfg, ws, es) && i <= j < |ws| && id.AppNotice? && FailedNow(ws[i], id)
    requires ws[i].state.deliveries[id].leaseId == NONE && id in ws[j].state.deliveries
    requires forall k :: i <= k < j ==> !RetriedAt(es, k, id)
    ensures ws[j].state.deliveries[id] == ws[i].state.deliveries[id]
  {
    hide Inv, Evolves, StepAt, Possible, Apply, Next;
    if i < j {
      Leases.StillStored(cfg, ws, es, i, j, id);
      FailedForGood(cfg, ws, es, i, j - 1, id);
      StepStores(cfg, ws, es, j - 1);
      PossibleResult(ws[..j], es[j - 1]);
      Onward(cfg, ws, es, j - 1);
      assert !RetriedAt(es, j - 1, id);
      SettledStep(cfg, ws[j - 1], es[j - 1], ws[j], id);
    }
  }
}
