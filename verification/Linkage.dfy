/** What links the records of every reachable store: evidence, sessions, revisions, administrators. */
module Linkage {
  import opened Records
  import opened Validity
  import opened Cascades
  import opened Invariants
  import opened Evolution
  import opened Steps
  import opened Authorization
  import opened TokenEndpoint
  import opened Machine

  // ---------- Evidence ----------

  /** Evidence outlives what it guards: an unrevoked access token from a code finds the code stored, used
      and of the same client and user, and every token of a family finds the family stored. */
  lemma EvidenceOutlives(cfg: Config, ws: seq<World>, es: seq<Event>, n: nat, h: Id)
    requires Run(cfg, ws, es) && n < |ws| && h in ws[n].state.tokens
    ensures var s, t := ws[n].state, ws[n].state.tokens[h];
            && (!t.revoked && t.codeHash != NONE ==>
                  && t.codeHash in s.codes && s.codes[t.codeHash].consumed
                  && s.codes[t.codeHash].clientId == t.clientId && s.codes[t.codeHash].userId == t.userId)
            && (t.familyId != NONE ==>
                  && t.familyId in s.families && s.families[t.familyId].codeHash == t.codeHash
                  && (s.families[t.familyId].revoked ==> t.revoked))
  {
    hide Inv, StepAt;
    At(cfg, ws, es, n);
    EvidenceIn(ws[n].state, cfg, ws[n].used, h);
  }

  lemma EvidenceIn(s: State, cfg: Config, used: set<Id>, h: Id)
    requires Inv(s, cfg, used) && h in s.tokens
    ensures TokenProven(s.tokens[h], s.codes) && TokenInFamily(s.tokens[h], s.families)
  {
  }

  // ---------- Sessions ----------

  /** At most one row per logical session; a live app session has a live session of its user and is the only
      one of its session and client; a code, or an online token, without a live session is revoked. */
  ghost predicate SessionsLinked(s: State) {
    && (forall h, k :: h in s.sessions && k in s.sessions && s.sessions[h].id == s.sessions[k].id ==> h == k)
    && (forall a <- s.apps ::
          s.apps[a].endedAt.None? ==> HasLiveRow(s.sessions, s.apps[a].opSessionId, s.apps[a].userId))
    && (forall a, b | a in s.apps && b in s.apps && SameLiveLink(s.apps[a], s.apps[b]) :: a == b)
    && (forall c <- s.codes ::
          s.codes[c].opSessionId != NONE && !HasLiveRow(s.sessions, s.codes[c].opSessionId, s.codes[c].userId) ==>
            s.codes[c].revoked)
    && (forall h <- s.tokens ::
          s.tokens[h].familyId == NONE && s.tokens[h].appSessionId != NONE
          && !LiveApp(s.apps, s.tokens[h].appSessionId) ==>
            s.tokens[h].revoked)
  }

  predicate LiveApp(apps: map<Id, App>, a: Id) { a in apps && apps[a].endedAt.None? }

  lemma LinkedIn(s: State, cfg: Config, used: set<Id>)
    requires Inv(s, cfg, used)
    ensures SessionsLinked(s)
  {
  }

  lemma RunLinked(cfg: Config, ws: seq<World>, es: seq<Event>, n: nat)
    requires Run(cfg, ws, es) && n < |ws|
    ensures SessionsLinked(ws[n].state)
  {
    hide Inv, StepAt, SessionsLinked;
    At(cfg, ws, es, n);
    LinkedIn(ws[n].state, cfg, ws[n].used);
  }

  ghost predicate SessionLives(w: World, id: Id) {
    exists h :: h in w.state.sessions && w.state.sessions[h].id == id && Live(w.state.sessions[h])
  }

  lemma SessionLived(cfg: Config, v: World, e: Event, w: World, id: Id)
    requires Evolves(v.state, w.state, TxOf(cfg, v, e, w)) && id in v.used && SessionLives(w, id)
    ensures SessionLives(v, id)
  {
  }

  /** An ended session never becomes live again, whatever the clock does. */
  lemma {:induction false} EndedForGood(cfg: Config, ws: seq<World>, es: seq<Event>, i: nat, j: nat, id: Id)
    requires Run(cfg, ws, es) && i <= j < |ws| && id in ws[i].used && !SessionLives(ws[i], id)
    ensures !SessionLives(ws[j], id)
  {
    hide Inv, Evolves, StepAt, SessionLives;
    if i < j {
      EndedForGood(cfg, ws, es, i, j - 1, id);
      UsedGrows(cfg, ws, es, i, j - 1);
      Onward(cfg, ws, es, j - 1);
      if SessionLives(ws[j], id) {
        SessionLived(cfg, ws[j - 1], es[j - 1], ws[j], id);
      }
    }
  }

  // ---------- Revisions ----------

  /** No ABA: a client that shows the same revision at two moments of a run is the same record at both,
      even when the clock stands still or goes back. */
  lemma SameRevisionSameClient(cfg: Config, ws: seq<World>, es: seq<Event>, i: nat, j: nat, id: Id)
    requires Run(cfg, ws, es) && i <= j < |ws| && id in ws[i].state.clients && id in ws[j].state.clients
    requires ws[i].state.clients[id].updatedAt == ws[j].state.clients[id].updatedAt
    ensures ws[i].state.clients[id] == ws[j].state.clients[id]
  {
    hide Inv, StepAt;
    RunReaches(cfg, ws, es, j);
    assert ws[i].state.clients.Keys <= ws[i].used
           && ClientsEvolve(ws[i].state.clients, ws[j].state.clients, ws[i].used);
    assert ClientNewer(ws[i].state.clients[id], ws[j].state.clients[id]);
  }

  /** The carried client record is the stored one, secret and metadata included. */
  ghost predicate StillCurrent(s: State, e: Event) {
    CarriedClient(e).Some? && CarriedClient(e).value.0 in s.clients
    && s.clients[CarriedClient(e).value.0] == CarriedClient(e).value.1
  }

  lemma CommitIsCurrent(cfg: Config, s: State, used: set<Id>, e: Event, now: Time)
    requires Carries(s, used, e)
             && (e.ExchangeCode? || e.UseRefresh? || e.IssueGrant? || e.RevokePresented? || e.MintSilently?)
    requires Apply(cfg, s, e, now).Committed?
    ensures StillCurrent(s, e)
  {
    hide IssueFromCode, JoinSession, RevokeForCode, Rotate, RevokeFamily, RevokeToken, ResourceGrant,
         RefreshFamilyActive, PruneGrants, SessionActive, UserHolds, Consented, SessionFresh, Filtered, NeedsLogin,
         RequestError, NewCode;
  }

  /** An exchange, a refresh, a resource grant, a revocation or a silent authorization commits only if the
      record that authenticated the request is still the client's. */
  lemma AuthenticatedIsCurrent(cfg: Config, ws: seq<World>, es: seq<Event>, n: nat)
    requires Run(cfg, ws, es) && n < |es|
    requires es[n].ExchangeCode? || es[n].UseRefresh? || es[n].IssueGrant? || es[n].RevokePresented?
             || es[n].MintSilently?
    requires Apply(cfg, ws[n].state, es[n], ws[n + 1].clock).Committed?
    ensures StillCurrent(ws[n].state, es[n])
  {
    hide Inv, Apply, Possible, Draws, StillCurrent, Carries;
    RunReaches(cfg, ws, es, n);
    assert StepAt(cfg, ws, es, n);
    CarriedSnapshot(cfg, ws, n, es[n]);
    CommitIsCurrent(cfg, ws[n].state, ws[n].used, es[n], ws[n + 1].clock);
  }

  // ---------- Administrators ----------

  lemma AdministeredStep(cfg: Config, v: World, e: Event, w: World)
    requires Evolves(v.state, w.state, TxOf(cfg, v, e, w))
    ensures Administered(v.state.users) ==> Administered(w.state.users)
    ensures HasAdmin(v.state.users) ==> HasAdmin(w.state.users)
  {
  }

  /** Once there is an account there is an active administrator, at every moment. */
  lemma {:induction false} AlwaysAdministered(cfg: Config, ws: seq<World>, es: seq<Event>, n: nat)
    requires Run(cfg, ws, es) && n < |ws|
    ensures ws[n].state.users != map[] ==> HasAdmin(ws[n].state.users)
  {
    hide Inv, Evolves, StepAt, HasAdmin;
    if n > 0 {
      AlwaysAdministered(cfg, ws, es, n - 1);
      Onward(cfg, ws, es, n - 1);
      AdministeredStep(cfg, ws[n - 1], es[n - 1], ws[n]);
    }
  }
}
