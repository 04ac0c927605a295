/** The two transactions of the outbox worker (internal/oidc/logout_delivery.go): taking a lease, after a
    sweep, and recording the answer. Between them nothing is locked. */
module Deliveries {
  import opened Records
  import opened Cascades
  import opened Outbox
  import opened Invariants
  import opened Evolution
  import opened Changes
  import opened Purges
  import opened Steps

  /** `jobs` is the order the sort produced; no other order occurs. */
  ghost function AcquireStep(s: State, jobs: seq<DeliveryId>, op: Id, client: Id, lease: Id, now: Time): Outcome {
    var m := PruneLogoutState(s, now);
    if !Sorted(m.deliveries, jobs) then Denied(Invalid)
    else Committed(m.(deliveries := Acquire(m.deliveries, m.clients, jobs, op, client, lease, now).deliveries))
  }

  ghost function RecordStep(s: State, id: DeliveryId, lease: Id, a: Answer, now: Time): Outcome {
    Committed(s.(deliveries := Record(s.deliveries, id, lease, a, now)))
  }

  /** The delivery a pass leases has no lease whose result is still outstanding. */
  ghost predicate NothingOutstanding(s: State, jobs: seq<DeliveryId>, op: Id, client: Id, lease: Id, now: Time) {
    var m := PruneLogoutState(s, now);
    Sorted(m.deliveries, jobs) ==>
      var p := Acquire(m.deliveries, m.clients, jobs, op, client, lease, now);
      p.job.Some? && p.job.value in m.deliveries ==> m.deliveries[p.job.value].leaseId == NONE
  }

  /** The delivery a pass leases, if any. */
  ghost function GrantedJob(
    s: State, jobs: seq<DeliveryId>, op: Id, client: Id, lease: Id, now: Time): Option<DeliveryId>
  {
    var m := PruneLogoutState(s, now);
    if !Sorted(m.deliveries, jobs) then None else Acquire(m.deliveries, m.clients, jobs, op, client, lease, now).job
  }

  // ---------- One delivery ----------

  /** What a worker's move on one delivery keeps. */
  ghost predicate MoveOk(id: DeliveryId, d: Delivery, e: Delivery, tx: Tx) {
    && NoticeMoves(id, d, e, tx) && Settled(id, e)
    && (e.leaseId == NONE || e.leaseId == d.leaseId || e.leaseId !in tx.used)
    && (Paced(d, tx.now, false) ==> Paced(e, tx.now, false))
  }

  lemma JudgedOk(clients: map<Id, Client>, id: DeliveryId, d: Delivery, op: Id, client: Id, lease: Id, tx: Tx)
    requires Settled(id, d) && lease != NONE && lease !in tx.used
    requires Judge(clients, id, d, op, client, tx.now) == Grant ==> id in tx.leases
    ensures MoveOk(id, d, Judged(d, Judge(clients, id, d, op, client, tx.now), lease, tx.now), tx)
  {
  }

  lemma RecordedOk(id: DeliveryId, d: Delivery, a: Answer, lease: Id, tx: Tx)
    requires Settled(id, d) && lease != NONE && d.leaseId == lease && 0 <= a.jitter < 100
    requires id in tx.leases && id in tx.revived
    ensures MoveOk(id, d, Recorded(d, a, tx.now), tx)
    ensures Paced(d, tx.now, true) ==> Paced(Recorded(d, a, tx.now), tx.now, true)
  {
    if Paced(d, tx.now, false) {
      RecordedPaced(d, a, tx.now, false);
    }
    if Paced(d, tx.now, true) {
      RecordedPaced(d, a, tx.now, true);
    }
    hide Paced, RetryDelay;
  }

  // ---------- All deliveries ----------

  lemma MovesSound(s: State, r: State, tx: Tx)
    requires Inv(s, tx.cfg, tx.known) && r == s.(deliveries := r.deliveries) && r.deliveries.Keys == s.deliveries.Keys
    requires forall id <- s.deliveries :: MoveOk(id, s.deliveries[id], r.deliveries[id], tx)
    requires !tx.lost ==>
               forall id <- s.deliveries ::
                 Paced(s.deliveries[id], tx.now, true) ==> Paced(r.deliveries[id], tx.now, true)
    ensures Sound(s, r, tx)
  {
    assert SameNotices(s.deliveries, r.deliveries);
    hide Inv, Evolves, Paced, Settled, KnownIds, SameLease, NoticeContinues, SameNotices;
    assert forall id <- s.deliveries :: NoticeMoves(id, s.deliveries[id], r.deliveries[id], tx);
    OutboxSound(s, r, tx);
  }

  lemma AcquireSound(s: State, tx: Tx, jobs: seq<DeliveryId>, op: Id, client: Id, lease: Id)
    requires Starts(s, tx) && Drawn(tx, lease) && lease != NONE
    requires NothingOutstanding(s, jobs, op, client, lease, tx.now) || tx.lost
    requires var job := GrantedJob(s, jobs, op, client, lease, tx.now); job.Some? ==> job.value in tx.leases
    ensures SoundStep(s, AcquireStep(s, jobs, op, client, lease, tx.now), tx)
  {
    hide Inv, Evolves, PruneLogoutState, KnownIds, Judge, Judged, Acquire, MoveOk;
    var o := AcquireStep(s, jobs, op, client, lease, tx.now);
    if o.Committed? {
      Begin(s, tx);
      var m := PruneLogoutState(s, tx.now);
      SweepSound(s, tx, tx.now);
      PassSound(m, o.state, tx, jobs, op, client, lease);
      SoundThen(s, m, o.state, tx);
    }
  }

  lemma AttemptsCounted(s: State, cfg: Config, known: set<Id>)
    requires Inv(s, cfg, known)
    ensures forall id <- s.deliveries :: Settled(id, s.deliveries[id]) && s.deliveries[id].attempts >= 0
  {
  }

  lemma PassSound(m: State, r: State, tx: Tx, jobs: seq<DeliveryId>, op: Id, client: Id, lease: Id)
    requires Inv(m, tx.cfg, tx.known) && Sorted(m.deliveries, jobs) && Drawn(tx, lease) && lease != NONE
    requires r == m.(deliveries := Acquire(m.deliveries, m.clients, jobs, op, client, lease, tx.now).deliveries)
    requires var p := Acquire(m.deliveries, m.clients, jobs, op, client, lease, tx.now);
             && (tx.lost || (p.job.Some? && p.job.value in m.deliveries ==> m.deliveries[p.job.value].leaseId == NONE))
             && (p.job.Some? ==> p.job.value in tx.leases)
    ensures Sound(m, r, tx)
  {
    AttemptsCounted(m, tx.cfg, tx.known);
    hide Inv, Sound, Acquire, Judge, Judged, Paced, MoveOk;
    AcquireMoves(m.deliveries, m.clients, jobs, op, client, lease, tx.now);
    forall id | id in m.deliveries ensures MoveOk(id, m.deliveries[id], r.deliveries[id], tx) {
      if r.deliveries[id] == m.deliveries[id] {
        SkippedOk(id, m.deliveries[id], tx);
      } else {
        JudgedOk(m.clients, id, m.deliveries[id], op, client, lease, tx);
      }
    }
    forall id | id in m.deliveries && !tx.lost && Paced(m.deliveries[id], tx.now, true)
      ensures Paced(r.deliveries[id], tx.now, true)
    {
      if r.deliveries[id] != m.deliveries[id] {
        JudgedPaced(m.clients, id, m.deliveries[id], op, client, lease, tx.now, true);
      }
    }
    MovesSound(m, r, tx);
  }

  lemma SkippedOk(id: DeliveryId, d: Delivery, tx: Tx)
    requires Settled(id, d)
    ensures MoveOk(id, d, d, tx)
  {
  }

  lemma RecordSound(s: State, tx: Tx, id: DeliveryId, lease: Id, a: Answer)
    requires Starts(s, tx) && lease != NONE && 0 <= a.jitter < 100
    requires Holds(s.deliveries, id, lease) ==> id in tx.leases && id in tx.revived
    ensures SoundStep(s, RecordStep(s, id, lease, a, tx.now), tx)
  {
    Begin(s, tx);
    AttemptsCounted(s, tx.cfg, tx.known);
    hide Inv, Sound, KnownIds, Paced, MoveOk, Recorded;
    var r := RecordStep(s, id, lease, a, tx.now).state;
    forall k | k in s.deliveries
      ensures MoveOk(k, s.deliveries[k], r.deliveries[k], tx)
      ensures Paced(s.deliveries[k], tx.now, true) ==> Paced(r.deliveries[k], tx.now, true)
    {
      SkippedOk(k, s.deliveries[k], tx);
      if k == id && s.deliveries[k].leaseId == lease {
        RecordedOk(k, s.deliveries[k], a, lease, tx);
      }
    }
    MovesSound(s, r, tx);
  }
}
