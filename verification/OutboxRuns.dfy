/** The logout outbox over whole runs: conservation, leases, attempts. */
module OutboxRuns {
  import opened Records
  import opened Outbox
  import opened Invariants
  import opened Evolution
  import opened Steps
  import opened Machine

  // ---------- Conservation ----------

  /** The app sessions that stored notices name are exactly the stored ended ones, a notice is created when
      its app session ends, and an ended app session has channel notices or the "unsupported" one, not both. */
  ghost predicate Conserved(s: State) {
    && (set d | d in s.deliveries && d.AppNotice? :: d.app) == (set a | a in s.apps && s.apps[a].endedAt.Some?)
    && (forall d <- s.deliveries ::
          d.AppNotice? ==> d.app in s.apps && s.apps[d.app].endedAt == Some(s.deliveries[d].createdAt))
    && (forall a <- s.apps :: s.apps[a].endedAt.Some? ==> Noticed(s.deliveries, a))
  }

  lemma OutboxConserved(cfg: Config, ws: seq<World>, es: seq<Event>, n: nat)
    requires Run(cfg, ws, es) && n < |ws|
    ensures Conserved(ws[n].state)
  {
    hide Inv, StepAt, Conserved;
    At(cfg, ws, es, n);
    ConservedIn(ws[n].state, cfg, ws[n].used);
  }

  lemma ConservedIn(s: State, cfg: Config, used: set<Id>)
    requires Inv(s, cfg, used)
    ensures Conserved(s)
  {
    hide KnownIds, CodesInv, TokensInv, FamiliesInv, Settled;
    var named := set d | d in s.deliveries && d.AppNotice? :: d.app;
    forall d | d in s.deliveries && d.AppNotice?
      ensures d.app in s.apps && s.apps[d.app].endedAt == Some(s.deliveries[d].createdAt)
    {
      assert NoticeOk(s.apps, d, s.deliveries[d].createdAt);
    }
    forall a | a in s.apps && s.apps[a].endedAt.Some? ensures a in named {
      assert Noticed(s.deliveries, a);
      var d := if AppNotice(a, NoChannel) in s.deliveries then AppNotice(a, NoChannel)
               else if AppNotice(a, Backchannel) in s.deliveries then
                 AppNotice(a, Backchannel) else AppNotice(a, Frontchannel);
      assert d in s.deliveries && d.app == a;
    }
  }

  // ---------- Leases ----------

  lemma LeaseStep(cfg: Config, v: World, e: Event, w: World, id: DeliveryId, lease: Id)
    requires Evolves(v.state, w.state, TxOf(cfg, v, e, w)) && lease in v.used && lease != NONE
             && !Holds(v.state.deliveries, id, lease)
    ensures !Holds(w.state.deliveries, id, lease)
  {
  }

  /** A lease that no longer holds a notice never holds it again. */
  lemma {:induction false} LeaseLost(
    cfg: Config, ws: seq<World>, es: seq<Event>, i: nat, j: nat, id: DeliveryId, lease: Id)
    requires Run(cfg, ws, es) && i <= j < |ws| && lease in ws[i].used && lease != NONE
             && !Holds(ws[i].state.deliveries, id, lease)
    ensures !Holds(ws[j].state.deliveries, id, lease)
  {
    hide Inv, Evolves, StepAt, Holds;
    if i < j {
      LeaseLost(cfg, ws, es, i, j - 1, id, lease);
      UsedGrows(cfg, ws, es, i, j - 1);
      Onward(cfg, ws, es, j - 1);
      LeaseStep(cfg, ws[j - 1], es[j - 1], ws[j], id, lease);
    }
  }

  /** The i-th step records a result that is applied: its lease holds the notice. */
  ghost predicate Applies(ws: seq<World>, es: seq<Event>, i: nat, id: DeliveryId, lease: Id)
    requires |ws| == |es| + 1 && i < |es|
  {
    es[i].RecordResult? && es[i].notice == id && es[i].lease == lease && Holds(ws[i].state.deliveries, id, lease)
  }

  lemma AppliedRecord(cfg: Config, s: State, e: Event, now: Time)
    requires e.RecordResult? && e.lease != NONE && Holds(s.deliveries, e.notice, e.lease)
    ensures Apply(cfg, s, e, now).Committed? && !Holds(Apply(cfg, s, e, now).state.deliveries, e.notice, e.lease)
  {
    hide RetryDelay, LastOf;
  }

  /** A lease's result is applied at most once. */
  lemma AppliedOnce(cfg: Config, ws: seq<World>, es: seq<Event>, i: nat, j: nat, id: DeliveryId, lease: Id)
    requires Run(cfg, ws, es) && i < j < |es| && lease in ws[i].used && Applies(ws, es, i, id, lease)
    ensures !Applies(ws, es, j, id, lease)
  {
    hide StepAt, Holds, Apply, Possible;
    StepStores(cfg, ws, es, i);
    PossibleResult(ws[..i + 1], es[i]);
    AppliedRecord(cfg, ws[i].state, es[i], ws[i + 1].clock);
    UsedGrows(cfg, ws, es, i, i + 1);
    LeaseLost(cfg, ws, es, i + 1, j, id, lease);
  }

  // ---------- What was sent ----------

  lemma SentStep(cfg: Config, v: World, e: Event, w: World, id: DeliveryId)
    requires Inv(v.state, cfg, v.used) && Evolves(v.state, w.state, TxOf(cfg, v, e, w))
    requires id.AppNotice? && id in v.state.deliveries && Sent(v.state.deliveries[id]) && id in w.state.deliveries
    ensures w.state.deliveries[id] == v.state.deliveries[id]
  {
  }

  lemma KeptStep(cfg: Config, v: World, e: Event, w: World, id: DeliveryId, used: set<Id>)
    requires Inv(v.state, cfg, v.used) && Evolves(v.state, w.state, TxOf(cfg, v, e, w)) && used <= v.used
    requires id.AppNotice? && id.app in used && AppOver(v.state.apps, id.app)
    ensures AppOver(w.state.apps, id.app) && (id in w.state.deliveries ==> id in v.state.deliveries)
  {
  }

  lemma {:induction false} StoredAllAlong(cfg: Config, ws: seq<World>, es: seq<Event>, i: nat, j: nat, id: DeliveryId)
    requires Run(cfg, ws, es) && i <= j < |ws| && id.AppNotice? && id.app in ws[i].used
             && AppOver(ws[i].state.apps, id.app)
    ensures AppOver(ws[j].state.apps, id.app)
            && (id in ws[j].state.deliveries ==> forall k :: i <= k <= j ==> id in ws[k].state.deliveries)
  {
    hide Inv, Evolves, StepAt, AppOver;
    if i < j {
      StoredAllAlong(cfg, ws, es, i, j - 1, id);
      UsedGrows(cfg, ws, es, i, j - 1);
      Onward(cfg, ws, es, j - 1);
      KeptStep(cfg, ws[j - 1], es[j - 1], ws[j], id, ws[i].used);
    }
  }

  lemma AppEnded(s: State, cfg: Config, used: set<Id>, id: DeliveryId)
    requires Inv(s, cfg, used) && id in s.deliveries && id.AppNotice?
    ensures id.app in used && AppOver(s.apps, id.app)
  {
  }

  /** An acknowledged notice, and one that was handed to a page, changes no more until retention deletes it. */
  lemma {:induction false} SentForGood(cfg: Config, ws: seq<World>, es: seq<Event>, i: nat, j: nat, id: DeliveryId)
    requires Run(cfg, ws, es) && i <= j < |ws| && id.AppNotice?
    requires id in ws[i].state.deliveries && Sent(ws[i].state.deliveries[id]) && id in ws[j].state.deliveries
    ensures ws[j].state.deliveries[id] == ws[i].state.deliveries[id]
  {
    hide Inv, Evolves, StepAt, AppOver;
    if i < j {
      At(cfg, ws, es, i);
      AppEnded(ws[i].state, cfg, ws[i].used, id);
      StoredAllAlong(cfg, ws, es, i, j, id);
      assert id in ws[j - 1].state.deliveries;
      SentForGood(cfg, ws, es, i, j - 1, id);
      Onward(cfg, ws, es, j - 1);
      SentStep(cfg, ws[j - 1], es[j - 1], ws[j], id);
    }
  }

  /** The i-th step hands the notice to a page. */
  ghost predicate HandsOver(ws: seq<World>, es: seq<Event>, i: nat, id: DeliveryId)
    requires |ws| == |es| + 1 && i < |es|
  {
    && id.AppNotice? && id in ws[i].state.deliveries && ws[i].state.deliveries[id].status == BrowserUnavailable
    && id in ws[i + 1].state.deliveries && ws[i + 1].state.deliveries[id].status == Unconfirmed
  }

  /** A front-channel notice is handed to at most one page. */
  lemma HandedOnce(cfg: Config, ws: seq<World>, es: seq<Event>, i: nat, j: nat, id: DeliveryId)
    requires Run(cfg, ws, es) && i < j < |es| && HandsOver(ws, es, i, id)
    ensures !HandsOver(ws, es, j, id)
  {
    hide StepAt;
    if HandsOver(ws, es, j, id) {
      SentForGood(cfg, ws, es, i + 1, j, id);
    }
  }

  // ---------- Attempts ----------

  /** No administrator retries a notice in the run. */
  ghost predicate NeverRetried(es: seq<Event>) {
    forall e <- es :: !Retries(e)
  }

  /** No lease is granted while the result of the last is outstanding: every result is recorded. */
  ghost predicate NothingLost(ws: seq<World>, es: seq<Event>)
    requires |ws| == |es| + 1
  {
    forall i :: 0 <= i < |es| ==> !Loses(ws[i].state, es[i], ws[i + 1].clock)
  }

  /** A clock reading taken before a transaction is not after the transaction's. */
  ghost predicate Timely(ws: seq<World>, es: seq<Event>)
    requires |ws| == |es| + 1
  {
    forall i :: 0 <= i < |es| ==> InTime(es[i], ws[i + 1].clock)
  }

  lemma PacedStep(cfg: Config, v: World, e: Event, w: World, recorded: bool)
    requires Evolves(v.state, w.state, TxOf(cfg, v, e, w)) && v.clock <= w.clock
    requires !Retries(e) && InTime(e, w.clock) && (recorded ==> !Loses(v.state, e, w.clock))
             && AllPaced(v.state.deliveries, v.clock, recorded)
    ensures AllPaced(w.state.deliveries, w.clock, recorded)
  {
  }

  lemma {:induction false} RunPaced(cfg: Config, ws: seq<World>, es: seq<Event>, n: nat, recorded: bool)
    requires Run(cfg, ws, es) && Steady(ws) && Timely(ws, es) && n < |ws|
    requires NeverRetried(es) && (recorded ==> NothingLost(ws, es))
    ensures AllPaced(ws[n].state.deliveries, ws[n].clock, recorded)
  {
    hide Inv, Evolves, StepAt, Loses, Retries, InTime, Paced;
    if n > 0 {
      RunPaced(cfg, ws, es, n - 1, recorded);
      Onward(cfg, ws, es, n - 1);
      PacedStep(cfg, ws[n - 1], es[n - 1], ws[n], recorded);
    }
  }

  /** Without retries by hand, a notice is attempted at most 2883 times however often workers crash, and at
      most 93 times if every result is recorded. */
  lemma AttemptBound(cfg: Config, ws: seq<World>, es: seq<Event>, n: nat, id: DeliveryId)
    requires Run(cfg, ws, es) && Steady(ws) && Timely(ws, es) && n < |ws|
    requires NeverRetried(es) && id in ws[n].state.deliveries && id.AppNotice?
    ensures ws[n].state.deliveries[id].attempts <= 2883
    ensures NothingLost(ws, es) ==> ws[n].state.deliveries[id].attempts <= 93
  {
    hide StepAt, Paced, NothingLost, NeverRetried, Timely;
    RunPaced(cfg, ws, es, n, false);
    AttemptsBounded(ws[n].state.deliveries[id], ws[n].clock, false);
    if NothingLost(ws, es) {
      RunPaced(cfg, ws, es, n, true);
      AttemptsBounded(ws[n].state.deliveries[id], ws[n].clock, true);
    }
  }
}
