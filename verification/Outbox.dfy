/** The leases of the logout outbox (internal/oidc/logout_delivery.go): who may send a notice, when, and
    how often. Workers share the deliveries; a crash is a lease whose result is never recorded. */
module Outbox {
  import opened Records

  const LEASE: Time := 30 * SECOND
  const MAX_DELAY: Time := 3600 * SECOND
  const HISTORY: nat := 50

  // ---------- Delays ----------

  function Pow2(k: nat): (r: int)
    ensures r >= 1
  {
    if k == 0 then 1 else 2 * Pow2(k - 1)
  }

  function Backoff(attempts: nat): Time {
    Pow2(if attempts < 10 then attempts else 10) * SECOND
  }

  /** The wait after a failed attempt: exponential, jittered, raised to Retry-After, at most an hour.
      `jitter` is the lease's first byte modulo 100. */
  function RetryDelay(attempts: nat, jitter: int, retryAfter: Time): Time {
    var base := Backoff(attempts) + jitter * Backoff(attempts) / 100;
    var raised := if retryAfter > base then retryAfter else base;
    if raised > MAX_DELAY then MAX_DELAY else raised
  }

  lemma {:induction false} Pow2Grows(a: nat, b: nat)
    requires a <= b
    ensures Pow2(a) <= Pow2(b)
  {
    if a < b {
      Pow2Grows(a, b - 1);
    }
  }

  lemma BackoffRange(attempts: nat)
    requires attempts >= 1
    ensures 2 * SECOND <= Backoff(attempts) <= 1024 * SECOND
  {
    Pow2Grows(1, if attempts < 10 then attempts else 10);
    Pow2Grows(if attempts < 10 then attempts else 10, 10);
    assert Pow2(1) == 2 && Pow2(10) == 1024 by { assert Pow2(5) == 32; }
  }

  /** Whatever a receiver answers, the next attempt is 2 seconds to an hour away, and never earlier than
      the exponential backoff. */
  lemma RetryDelayRange(attempts: nat, jitter: int, retryAfter: Time)
    requires attempts >= 1 && 0 <= jitter < 100
    ensures var d := RetryDelay(attempts, jitter, retryAfter);
            2 * SECOND <= d <= MAX_DELAY && Backoff(attempts) <= d
  {
    BackoffRange(attempts);
    assert 0 <= jitter * Backoff(attempts);
  }

  /** The wait doubles with every attempt, from 2 seconds, ten times. */
  lemma BackoffDoubles(attempts: nat)
    ensures Backoff(1) == 2 * SECOND
    ensures Backoff(attempts + 1) == if attempts < 10 then 2 * Backoff(attempts) else Backoff(attempts)
  {
    assert Pow2(1) == 2;
  }

  /** A receiver's Retry-After is waited out, up to an hour, and then decides the wait alone whenever it exceeds
      what the backoff can reach; without one the wait exceeds the backoff by exactly the jitter, in percent. */
  lemma RetryAfterHonoured(attempts: nat, jitter: int, retryAfter: Time)
    requires attempts >= 1 && 0 <= jitter < 100
    ensures var d := RetryDelay(attempts, jitter, retryAfter);
            && (if retryAfter <= MAX_DELAY then retryAfter <= d else d == MAX_DELAY)
            && (2 * Backoff(attempts) <= retryAfter <= MAX_DELAY ==> d == retryAfter)
            && (retryAfter <= Backoff(attempts) ==> 100 * (d - Backoff(attempts)) == jitter * Backoff(attempts))
  {
    BackoffRange(attempts);
    JitterPart(jitter, Pow2(if attempts < 10 then attempts else 10));
    assert jitter * Backoff(attempts) == 100 * (jitter * Backoff(attempts) / 100);
    hide Backoff, Pow2;
  }

  lemma JitterPart(jitter: int, k: nat)
    requires 0 <= jitter < 100 && k <= 1024
    ensures var b := k * SECOND; jitter * b == 100 * (jitter * b / 100) && 0 <= jitter * b / 100 < b + 1
  {
    assert jitter * (k * SECOND) == (jitter * k * 10000000) * 100;
    assert 0 <= jitter * k;
    assert jitter * k <= 100 * k;
  }

  // ---------- Moves of one delivery ----------

  predicate Waiting(d: Delivery) { d.status == Pending || d.status == Delivering }

  /** A worker may take it: its time has come and no lease is running. */
  predicate Due(id: DeliveryId, d: Delivery, now: Time) {
    && id.AppNotice? && id.channel == Backchannel && Waiting(d)
    && !After(d.nextAttempt, now) && !After(d.leaseUntil, now)
  }

  /** A worker looks at one session's or client's deliveries, or at all of them. */
  predicate Matches(d: Delivery, op: Id, client: Id) {
    (op == NONE || d.opSessionId == op) && (client == NONE || d.clientId == client)
  }

  datatype Verdict = Skip | Expire | Retarget | Grant

  function Judge(clients: map<Id, Client>, id: DeliveryId, d: Delivery, op: Id, client: Id, now: Time): Verdict {
    if !Matches(d, op, client) || !Due(id, d, now) then Skip
    else if now - d.createdAt >= RETRY_WINDOW then Expire
    else if d.clientId in clients && clients[d.clientId].metadata.backchannelUri != d.endpoint then Retarget
    else Grant
  }

  function Given(d: Delivery, lease: Id, now: Time): Delivery {
    d.(status := Delivering, leaseUntil := Some(now + LEASE), leaseId := lease, attempts := d.attempts + 1,
       updatedAt := now)
  }

  function Judged(d: Delivery, v: Verdict, lease: Id, now: Time): Delivery {
    match v
    case Skip => d
    case Expire => d.(status := Failed, error := RetryWindowExpired, updatedAt := now)
    case Retarget => d.(status := Failed, error := DestinationChanged, updatedAt := now)
    case Grant => Given(d, lease, now)
  }

  datatype Answer = Answer(httpStatus: int, error: DeliveryError, retryAfter: Time, jitter: int)

  function LastOf(h: seq<Attempt>): seq<Attempt> {
    if |h| > HISTORY then h[|h| - HISTORY..] else h
  }

  /** The delivery after its holder's answer. */
  function Recorded(d: Delivery, a: Answer, now: Time): Delivery {
    var cleared :=
      d.(leaseUntil := None, leaseId := NONE, httpStatus := a.httpStatus, error := a.error, updatedAt := now,
                      history := LastOf(d.history + [Attempt(now, a.httpStatus, a.error)]));
    if a.httpStatus == 200 then cleared.(status := Acknowledged)
    else if a.error == UnsafeDestination || (400 <= a.httpStatus < 500 && a.httpStatus != 429) then
      cleared.(status := Failed)
    else cleared.(status := Pending,
                  nextAttempt := Some(now
                                        + RetryDelay(if d.attempts >= 0 then d.attempts else 0, a.jitter,
                                                     a.retryAfter)))
  }

  // ---------- One pass over the due deliveries ----------

  datatype Pass = Pass(deliveries: map<DeliveryId, Delivery>, job: Option<DeliveryId>)

  /** Looks at `jobs` in order, fails what can no longer be sent, and stops at the first it may lease. */
  function Acquire(
    ds: map<DeliveryId, Delivery>, clients: map<Id, Client>, jobs: seq<DeliveryId>, op: Id, client: Id, lease: Id,
    now: Time): (p: Pass)
    requires forall id <- jobs :: id in ds
    ensures p.deliveries.Keys == ds.Keys
  {
    if jobs == [] then Pass(ds, None)
    else
      var v := Judge(clients, jobs[0], ds[jobs[0]], op, client, now);
      var ds1 := ds[jobs[0] := Judged(ds[jobs[0]], v, lease, now)];
      if v == Grant then Pass(ds1, Some(jobs[0])) else Acquire(ds1, clients, jobs[1..], op, client, lease, now)
  }

  /** `jobs` lists every delivery once, earliest next attempt first; a missing time comes before all. */
  predicate Before(a: Option<Time>, b: Option<Time>) {
    a.None? || (b.Some? && a.value <= b.value)
  }

  ghost predicate Sorted(ds: map<DeliveryId, Delivery>, jobs: seq<DeliveryId>) {
    && (forall id :: id in jobs <==> id in ds)
    && (forall i, j ::
          0 <= i < j < |jobs| ==> jobs[i] != jobs[j] && Before(ds[jobs[i]].nextAttempt, ds[jobs[j]].nextAttempt))
  }

  function Judgement(
    ds: map<DeliveryId, Delivery>, clients: map<Id, Client>, id: DeliveryId, op: Id, client: Id, now: Time): Verdict
    requires id in ds
  {
    Judge(clients, id, ds[id], op, client, now)
  }

  /** A pass changes a delivery only by its own verdict, and leases the first it may. */
  lemma {:induction false} AcquireMoves(
    ds: map<DeliveryId, Delivery>, clients: map<Id, Client>, jobs: seq<DeliveryId>, op: Id, client: Id, lease: Id,
    now: Time)
    requires forall id <- jobs :: id in ds
    requires forall i, j :: 0 <= i < j < |jobs| ==> jobs[i] != jobs[j]
    ensures var p := Acquire(ds, clients, jobs, op, client, lease, now);
            && (forall id <- ds ::
                  || p.deliveries[id] == ds[id]
                  || (p.deliveries[id] == Judged(ds[id], Judgement(ds, clients, id, op, client, now), lease, now)
                      && (Judgement(ds, clients, id, op, client, now) == Grant ==> p.job == Some(id))))
            && (p.job.Some? ==> p.job.value in jobs && Judgement(ds, clients, p.job.value, op, client, now) == Grant
                                && p.deliveries[p.job.value] == Given(ds[p.job.value], lease, now))
            && (p.job.None? ==> forall id <- jobs :: Judgement(ds, clients, id, op, client, now) != Grant)
  {
    if jobs != [] {
      var v := Judgement(ds, clients, jobs[0], op, client, now);
      var ds1 := ds[jobs[0] := Judged(ds[jobs[0]], v, lease, now)];
      if v != Grant {
        var rest := jobs[1..];
        assert forall id <- rest :: id in ds1 && id != jobs[0] && ds1[id] == ds[id];
        AcquireMoves(ds1, clients, rest, op, client, lease, now);
        AcquireLeaves(ds1, clients, rest, op, client, lease, now, jobs[0]);
        assert forall id <- jobs :: id == jobs[0] || id in rest;
      }
    }
  }

  lemma {:induction false} AcquireLeaves(
    ds: map<DeliveryId, Delivery>, clients: map<Id, Client>, jobs: seq<DeliveryId>, op: Id, client: Id, lease: Id,
    now: Time, other: DeliveryId)
    requires (forall id <- jobs :: id in ds) && other in ds && other !in jobs
    ensures Acquire(ds, clients, jobs, op, client, lease, now).deliveries[other] == ds[other]
  {
    if jobs != [] {
      var v := Judge(clients, jobs[0], ds[jobs[0]], op, client, now);
      if v != Grant {
        AcquireLeaves(ds[jobs[0] := Judged(ds[jobs[0]], v, lease, now)], clients, jobs[1..], op, client, lease, now,
                      other);
      }
    }
  }

  /** A pass that can lease nothing gives every listed delivery its verdict. */
  lemma {:induction false} AcquireAll(
    ds: map<DeliveryId, Delivery>, clients: map<Id, Client>, jobs: seq<DeliveryId>, op: Id, client: Id, lease: Id,
    now: Time,
    id: DeliveryId)
    requires (forall k <- jobs :: k in ds) && id in jobs
    requires forall i, j :: 0 <= i < j < |jobs| ==> jobs[i] != jobs[j]
    requires forall k <- jobs :: Judgement(ds, clients, k, op, client, now) != Grant
    ensures var p := Acquire(ds, clients, jobs, op, client, lease, now);
            p.job.None? && p.deliveries[id] == Judged(ds[id], Judgement(ds, clients, id, op, client, now), lease, now)
  {
    var v := Judgement(ds, clients, jobs[0], op, client, now);
    var ds1 := ds[jobs[0] := Judged(ds[jobs[0]], v, lease, now)];
    var rest := jobs[1..];
    assert v != Grant by { assert jobs[0] in jobs; }
    forall k | k in rest
      ensures k != jobs[0] && ds1[k] == ds[k] && Judgement(ds1, clients, k, op, client, now) != Grant
    {
      assert k in jobs;
    }
    assert id == jobs[0] || id in rest;
    if id == jobs[0] {
      AcquireLeaves(ds1, clients, rest, op, client, lease, now, id);
    }
    if rest != [] {
      AcquireAll(ds1, clients, rest, op, client, lease, now, if id == jobs[0] then rest[0] else id);
    }
  }

  /** The leased delivery is the one that has waited longest among those that can be leased. */
  lemma {:induction false} EarliestFirst(
    ds: map<DeliveryId, Delivery>, clients: map<Id, Client>, jobs: seq<DeliveryId>, op: Id, client: Id, lease: Id,
    now: Time, id: DeliveryId)
    requires (forall k <- jobs :: k in ds) && id in jobs
    requires forall i, j ::
               0 <= i < j < |jobs| ==> jobs[i] != jobs[j] && Before(ds[jobs[i]].nextAttempt, ds[jobs[j]].nextAttempt)
    requires Judgement(ds, clients, id, op, client, now) == Grant
    ensures var p := Acquire(ds, clients, jobs, op, client, lease, now);
            p.job.Some? && p.job.value in ds && Before(ds[p.job.value].nextAttempt, ds[id].nextAttempt)
  {
    var v := Judgement(ds, clients, jobs[0], op, client, now);
    if v == Grant {
      assert id == jobs[0] || id in jobs[1..];
    } else {
      var ds1 := ds[jobs[0] := Judged(ds[jobs[0]], v, lease, now)];
      assert forall k <- jobs[1..] :: k != jobs[0] && ds1[k] == ds[k];
      EarliestFirst(ds1, clients, jobs[1..], op, client, lease, now, id);
      AcquireJob(ds1, clients, jobs[1..], op, client, lease, now);
    }
  }

  lemma {:induction false} AcquireJob(
    ds: map<DeliveryId, Delivery>, clients: map<Id, Client>, jobs: seq<DeliveryId>, op: Id, client: Id, lease: Id,
    now: Time)
    requires forall id <- jobs :: id in ds
    ensures var p := Acquire(ds, clients, jobs, op, client, lease, now);
            p.job.Some? ==> p.job.value in jobs
  {
    if jobs != [] {
      var v := Judge(clients, jobs[0], ds[jobs[0]], op, client, now);
      if v != Grant {
        AcquireJob(ds[jobs[0] := Judged(ds[jobs[0]], v, lease, now)], clients, jobs[1..], op, client, lease, now);
      }
    }
  }

  // ---------- The result of an attempt ----------

  function Record(
    ds: map<DeliveryId, Delivery>, id: DeliveryId, lease: Id, a: Answer, now: Time): map<DeliveryId, Delivery>
  {
    if id in ds && ds[id].leaseId == lease then ds[id := Recorded(ds[id], a, now)] else ds
  }

  /** The receiver's answer ends the delivery as failed. */
  predicate Permanent(a: Answer) {
    a.httpStatus != 200 && (a.error == UnsafeDestination || (400 <= a.httpStatus < 500 && a.httpStatus != 429))
  }

  /** An answer ends the lease and is kept, last of at most 50: an acknowledgement or a permanent failure
      settles the notice, anything else makes it due again after the receiver's Retry-After, up to an hour, and
      after the backoff. Nothing else about it changes. */
  lemma AnswerRecorded(d: Delivery, a: Answer, now: Time)
    requires d.attempts >= 1 && 0 <= a.jitter < 100
    ensures var r := Recorded(d, a, now);
            && r == d.(status := r.status, httpStatus := a.httpStatus, error := a.error, updatedAt := now,
                       leaseUntil := None, leaseId := NONE, history := r.history, nextAttempt := r.nextAttempt)
            && (r.status == Acknowledged <==> a.httpStatus == 200) && (r.status == Failed <==> Permanent(a))
            && (if a.httpStatus == 200 || Permanent(a) then r.nextAttempt == d.nextAttempt
                else
                  && r.status == Pending && r.nextAttempt.Some?
                  && var wait := r.nextAttempt.value - now;
                  && (if a.retryAfter <= MAX_DELAY then a.retryAfter else MAX_DELAY) <= wait <= MAX_DELAY
                  && Backoff(d.attempts) <= wait)
            && 1 <= |r.history| <= HISTORY
            && r.history[|r.history| - 1] == Attempt(now, a.httpStatus, a.error)
            && |r.history| - 1 <= |d.history| && (|r.history| < HISTORY ==> |r.history| == |d.history| + 1)
            && r.history[..|r.history| - 1] == d.history[|d.history| - (|r.history| - 1)..]
  {
    RetryDelayRange(d.attempts, a.jitter, a.retryAfter);
    RetryAfterHonoured(d.attempts, a.jitter, a.retryAfter);
    hide RetryDelay, Backoff;
  }

  // ---------- What stays true of a notice ----------

  /** The statuses of a notice on its channel. */
  predicate Suits(id: DeliveryId, status: Status) {
    match id
    case OpNotice(_) => status == Ended
    case AppNotice(_, Backchannel) =>
      status == Pending || status == Delivering || status == Acknowledged || status == Failed
    case AppNotice(_, Frontchannel) => status == BrowserUnavailable || status == Unconfirmed || status == Failed
    case AppNotice(_, NoChannel) => status == Unsupported
    case AppNotice(_, Local) => false
  }

  /** A notice has a status of its channel; only back-channel notices are held, when they have been attempted
      and not acknowledged. */
  predicate Settled(id: DeliveryId, d: Delivery) {
    && Suits(id, d.status) && d.attempts >= 0 && (d.status == Acknowledged ==> d.leaseId == NONE)
    && (d.leaseId != NONE ==> d.attempts >= 1 && id.AppNotice? && id.channel == Backchannel)
  }

  /** The notice was acknowledged, or handed to a page, which never answers. */
  predicate Sent(d: Delivery) { d.status == Acknowledged || d.status == Unconfirmed }

  /** A stored notice keeps its destination and date; one that was sent changes no more. */
  ghost predicate NoticeContinues(a: Delivery, b: Delivery) {
    && b.createdAt == a.createdAt && b.opSessionId == a.opSessionId && b.clientId == a.clientId
    && b.endpoint == a.endpoint && b.reason == a.reason
    && a.attempts <= b.attempts && (Sent(a) ==> b == a)
  }

  predicate SameLease(a: Delivery, b: Delivery) {
    b.leaseId == a.leaseId && b.leaseUntil == a.leaseUntil && b.attempts == a.attempts
  }

  ghost predicate Holds(ds: map<DeliveryId, Delivery>, id: DeliveryId, lease: Id) {
    id in ds && ds[id].leaseId == lease
  }

  /** A lease drawn earlier that does not hold a notice never will. */
  ghost predicate LeasesKept(before: map<DeliveryId, Delivery>, after: map<DeliveryId, Delivery>, used: set<Id>) {
    forall id, l :: l in used && l != NONE && Holds(after, id, l) ==> Holds(before, id, l)
  }

  ghost predicate AllPaced(ds: map<DeliveryId, Delivery>, now: Time, recorded: bool) {
    forall id :: id in ds && id.AppNotice? ==> Paced(ds[id], now, recorded)
  }

  ghost predicate PaceKept(
    before: map<DeliveryId, Delivery>, after: map<DeliveryId, Delivery>, now: Time, recorded: bool)
  {
    AllPaced(before, now, recorded) ==> AllPaced(after, now, recorded)
  }

  /** The stored notices are unchanged and new ones are about app sessions that were live. */
  ghost predicate OnlyNew(
    before: map<DeliveryId, Delivery>, after: map<DeliveryId, Delivery>, apps: map<Id, App>, now: Time, timely: bool)
  {
    && (forall id <- before :: id in after && (id.AppNotice? ==> after[id] == before[id]))
    && (forall id :: id in after && id !in before ==>
          NewNotice(after[id], now, timely) && (id.AppNotice? ==> id.app in apps && apps[id.app].endedAt.None?))
    && (forall id ::
          id in after && id.OpNotice? ==> after[id].leaseId == NONE || (id in before && after[id] == before[id]))
  }

  /** A notice is dated when its app session ended: by the transaction's clock, or by one read before it. */
  ghost predicate NewNotice(d: Delivery, now: Time, timely: bool) {
    && d.attempts == 0 && d.leaseId == NONE && (timely ==> d.createdAt <= now)
    && (Waiting(d) ==> d.nextAttempt == Some(d.createdAt))
  }

  // ---------- How often a notice can be sent ----------

  /** The shortest time from the k-th lease to the next: the lease itself, or the backoff if sooner. When
      every result is recorded it is the backoff. */
  function Gap(k: nat, recorded: bool): Time {
    if recorded || Backoff(k) < LEASE then Backoff(k) else LEASE
  }

  /** The shortest time from creation to the n-th lease. */
  function Waited(n: nat, recorded: bool): Time {
    if n <= 1 then 0 else Waited(n - 1, recorded) + Gap(n - 1, recorded)
  }

  /** No lease can have come sooner than the gaps allow, and none can come sooner. */
  ghost predicate Paced(d: Delivery, now: Time, recorded: bool) {
    && 0 <= d.attempts
    && d.createdAt + Waited(d.attempts, recorded) <= now
    && Waited(d.attempts, recorded) < RETRY_WINDOW
    && (Waiting(d) ==>
          var next := d.createdAt + Waited(d.attempts + 1, recorded);
          || (d.nextAttempt.Some? && d.nextAttempt.value >= next)
          || (if recorded then d.leaseId != NONE else d.leaseUntil.Some? && d.leaseUntil.value >= next))
  }

  lemma JudgedPaced(
    clients: map<Id, Client>, id: DeliveryId, d: Delivery, op: Id, client: Id, lease: Id, now: Time, recorded: bool)
    requires Paced(d, now, recorded) && lease != NONE
    requires recorded && Judge(clients, id, d, op, client, now) == Grant ==> d.leaseId == NONE
    ensures Paced(Judged(d, Judge(clients, id, d, op, client, now), lease, now), now, recorded)
  {
  }

  lemma RecordedPaced(d: Delivery, a: Answer, now: Time, recorded: bool)
    requires Paced(d, now, recorded) && d.attempts >= 1 && 0 <= a.jitter < 100
    ensures Paced(Recorded(d, a, now), now, recorded)
  {
    RetryDelayRange(d.attempts, a.jitter, a.retryAfter);
    assert Waited(d.attempts + 1, recorded) == Waited(d.attempts, recorded) + Gap(d.attempts, recorded);
    hide Waited, Backoff, RetryDelay;
  }

  lemma {:induction false} WaitedLeases(n: nat)
    requires n >= 1
    ensures Waited(n, false) >= 30 * (n - 4) * SECOND
  {
    if n >= 6 {
      WaitedLeases(n - 1);
      Pow2Grows(5, if n - 1 < 10 then n - 1 else 10);
      assert Pow2(5) == 32;
    } else {
      assert Waited(5, false) == 30 * SECOND by {
        assert Pow2(4) == 16 && Pow2(3) == 8 && Pow2(2) == 4 && Pow2(1) == 2;
      }
      assert Waited(1, false) == 0;
    }
  }

  lemma {:induction false} WaitedResults(n: nat)
    requires n >= 1
    ensures Waited(n, true) >= (1024 * (n - 9) - 2) * SECOND
  {
    if n >= 11 {
      WaitedResults(n - 1);
      assert Pow2(10) == 1024 by { assert Pow2(5) == 32; }
    } else {
      WaitedShort(n);
    }
  }

  lemma WaitedShort(n: nat)
    requires 1 <= n <= 10
    ensures Waited(n, true) == (Pow2(n) - 2) * SECOND
  {
  }

  /** A notice is sent at most 2883 times whatever crashes, and at most 93 times when none does. */
  lemma AttemptsBounded(d: Delivery, now: Time, recorded: bool)
    requires Paced(d, now, recorded)
    ensures d.attempts <= if recorded then 93 else 2883
  {
    if d.attempts >= 1 {
      if recorded { WaitedResults(d.attempts); } else { WaitedLeases(d.attempts); }
    }
  }
}
