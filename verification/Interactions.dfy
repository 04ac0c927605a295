/** When a browser logout that was confirmed, cancelled or has expired can be confirmed again, over whole
    runs. */
module Interactions {
  import opened Records
  import opened Cascades
  import opened Invariants
  import opened Evolution
  import opened Steps
  import opened Machine
  import Logouts

  /** The interaction cannot be confirmed. */
  predicate Closed(w: World, id: Id) {
    id in w.state.interactions ==> w.state.interactions[id].completed || w.state.interactions[id].expiresAt <= w.clock
  }

  /** The input: the handler of a later request read the interaction unbound and open, and binds its copy
      after another request has confirmed it. The interaction is open again. */
  lemma BindingReopens(s: State, id: Id, v: Interaction, session: Id, user: Id, now: Time)
    requires id in s.interactions && v == s.interactions[id]
    requires v.opSessionId == NONE && !v.completed && now < v.expiresAt
    ensures var confirmed := Logouts.ConfirmLogout(s, id, v, now);
            && confirmed.Committed? && confirmed.state.interactions[id].completed
            && var o := Logouts.BindLogout(confirmed.state, id, v, session, user);
            && o.Committed? && !o.state.interactions[id].completed && o.state.interactions[id].opSessionId == session
            && Logouts.ConfirmLogout(o.state, id, o.state.interactions[id], now).Committed?
  {
    hide EndSessions;
  }

  /** The step binds a copy of the interaction that was read unbound, not completed and is not expired. */
  predicate Reopens(e: Event, now: Time, id: Id) {
    && e.BindLogout? && e.id == id
    && e.interaction.opSessionId == NONE && !e.interaction.completed && now < e.interaction.expiresAt
  }

  lemma AppliedBinding(cfg: Config, s: State, e: Event, now: Time)
    requires e.BindLogout?
    ensures Apply(cfg, s, e, now) == Logouts.BindLogout(s, e.id, e.interaction, e.session, e.user)
  {
  }

  lemma AppliedCancelling(cfg: Config, s: State, e: Event, now: Time)
    requires e.CancelLogout?
    ensures Apply(cfg, s, e, now) == Logouts.CancelLogout(s, e.id, e.interaction, now)
  {
  }

  lemma AppliedConfirming(cfg: Config, s: State, e: Event, now: Time)
    requires e.ConfirmLogout?
    ensures Apply(cfg, s, e, now) == Logouts.ConfirmLogout(s, e.id, e.interaction, now)
  {
    hide EndSessions;
  }

  lemma UnwrittenClosed(cfg: Config, v: World, e: Event, w: World, id: Id)
    requires Evolves(v.state, w.state, TxOf(cfg, v, e, w)) && v.clock <= w.clock && id in v.used && id !in Writes(e)
    requires Closed(v, id)
    ensures Closed(w, id)
  {
    hide Writes;
  }

  /** A closed interaction opens at a step if and only if the step binds an open copy of it. Cancelling and
      confirming never open one. */
  lemma ReopenStep(cfg: Config, v: World, e: Event, w: World, id: Id)
    requires Evolves(v.state, w.state, TxOf(cfg, v, e, w)) && v.clock <= w.clock && id in v.used
    requires w.state == Next(v.state, Apply(cfg, v.state, e, w.clock))
    requires Closed(v, id)
    ensures !Closed(w, id) <==> Reopens(e, w.clock, id)
  {
    hide Evolves, Apply, EndSessions;
    if id !in Writes(e) {
      UnwrittenClosed(cfg, v, e, w, id);
    } else if e.BindLogout? {
      AppliedBinding(cfg, v.state, e, w.clock);
    } else if e.CancelLogout? {
      AppliedCancelling(cfg, v.state, e, w.clock);
    } else {
      AppliedConfirming(cfg, v.state, e, w.clock);
    }
  }

  // ---------- Over runs ----------

  /** The m-th store holds the interaction as the k-th step carries it. */
  ghost predicate ReadFrom(ws: seq<World>, es: seq<Event>, m: nat, k: nat, id: Id)
    requires m < |ws| && k < |es|
  {
    && es[k].BindLogout? && es[k].id == id
    && id in ws[m].state.interactions && ws[m].state.interactions[id] == es[k].interaction
  }

  lemma CopyRead(ws: seq<World>, es: seq<Event>, k: nat, id: Id) returns (m: nat)
    requires k < |es| && k < |ws| && Possible(ws[..k + 1], es[k]) && es[k].BindLogout? && es[k].id == id
    ensures m <= k && ReadFrom(ws, es, m, k, id)
  {
    m :| 0 <= m < |ws[..k + 1]| && id in ws[..k + 1][m].state.interactions
         && ws[..k + 1][m].state.interactions[id] == es[k].interaction;
    assert ws[..k + 1][m] == ws[m];
  }

  lemma {:induction false} FirstReopening(
    cfg: Config, ws: seq<World>, es: seq<Event>, i: nat, j: nat, id: Id)
    returns (k: nat)
    requires Run(cfg, ws, es) && Steady(ws) && i <= j < |ws| && id in ws[i].used && Closed(ws[i], id)
             && !Closed(ws[j], id)
    ensures i <= k < j && Reopens(es[k], ws[k + 1].clock, id) && forall n :: i <= n <= k ==> Closed(ws[n], id)
    decreases j
  {
    hide Inv, Evolves, StepAt, Closed, Reopens, Apply;
    if n :| i <= n < j && !Closed(ws[n], id) {
      k := FirstReopening(cfg, ws, es, i, n, id);
    } else {
      k := j - 1;
      UsedGrows(cfg, ws, es, i, k);
      StepStores(cfg, ws, es, k);
      Onward(cfg, ws, es, k);
      ReopenStep(cfg, ws[k], es[k], ws[j], id);
    }
  }

  /** A browser logout that was confirmed, cancelled or has expired is open again later in the run only if a
      step binds a copy that was stored open and unbound before it was closed. One that was bound when it was
      prepared stays closed for good. */
  lemma ClosedUnlessRebound(cfg: Config, ws: seq<World>, es: seq<Event>, i: nat, j: nat, id: Id)
    requires Run(cfg, ws, es) && Steady(ws) && i <= j < |ws| && id in ws[i].used && Closed(ws[i], id)
             && !Closed(ws[j], id)
    ensures exists m, k :: 0 <= m < i <= k < j && Reopens(es[k], ws[k + 1].clock, id) && ReadFrom(ws, es, m, k, id)
  {
    hide Inv, StepAt, Apply;
    var k := FirstReopening(cfg, ws, es, i, j, id);
    StepStores(cfg, ws, es, k);
    var m := CopyRead(ws, es, k, id);
    assert ws[m].clock <= ws[k + 1].clock;
    assert !Closed(ws[m], id);
  }
}
