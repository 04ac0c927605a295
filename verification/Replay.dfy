/** Replays: an authorization code is exchanged once, and presenting a used code or refresh token again
    ends everything issued from it for good. */
module Replay {
  import opened Records
  import opened Validity
  import opened Cascades
  import opened Invariants
  import opened Evolution
  import opened Steps
  import opened TokenEndpoint
  import opened Machine
  import opened Finality

  // ---------- Codes ----------

  /** The i-th step of a run exchanges the code for the first time. */
  ghost predicate Exchanges(cfg: Config, ws: seq<World>, es: seq<Event>, i: nat, code: Id)
    requires |ws| == |es| + 1 && i < |es|
  {
    var e := es[i];
    && e.ExchangeCode? && e.code == code && code in ws[i].state.codes && !ws[i].state.codes[code].consumed
    && Exchange(ws[i].state, cfg, e.client, e.record, code, e.redirectUri, e.challenge, e.drawing,
                ws[i + 1].clock).Committed?
  }

  ghost predicate CodeUsed(w: World, code: Id) {
    code in w.used && (code in w.state.codes ==> w.state.codes[code].consumed)
  }

  lemma UsedStep(cfg: Config, v: World, e: Event, w: World, code: Id)
    requires Evolves(v.state, w.state, TxOf(cfg, v, e, w)) && v.used <= w.used && CodeUsed(v, code)
    ensures CodeUsed(w, code)
  {
  }

  lemma {:induction false} UsedStaysUsed(cfg: Config, ws: seq<World>, es: seq<Event>, i: nat, j: nat, code: Id)
    requires Run(cfg, ws, es) && i <= j < |ws| && CodeUsed(ws[i], code)
    ensures CodeUsed(ws[j], code)
  {
    hide Inv, Evolves, StepAt, CodeUsed;
    if i < j {
      UsedStaysUsed(cfg, ws, es, i, j - 1, code);
      Onward(cfg, ws, es, j - 1);
      UsedStep(cfg, ws[j - 1], es[j - 1], ws[j], code);
    }
  }

  lemma ExchangedIsUsed(cfg: Config, ws: seq<World>, es: seq<Event>, i: nat, code: Id)
    requires Run(cfg, ws, es) && i < |es| && Exchanges(cfg, ws, es, i, code)
    ensures CodeUsed(ws[i + 1], code)
  {
    hide Inv, Evolves, StepAt, Exchange, ApplyToken;
    Onward(cfg, ws, es, i);
    KnownCode(ws[i].state, cfg, ws[i].used, code);
    StepStores(cfg, ws, es, i);
    var e := es[i];
    AppliedExchange(cfg, ws[i].state, e, ws[i + 1].clock);
    ExchangeStores(ws[i].state, cfg, e.client, e.record, code, e.redirectUri, e.challenge, e.drawing, ws[i + 1].clock);
  }

  lemma AppliedExchange(cfg: Config, s: State, e: Event, now: Time)
    requires e.ExchangeCode?
    ensures Apply(cfg, s, e, now) == Exchange(s, cfg, e.client, e.record, e.code, e.redirectUri, e.challenge, e.drawing,
                                              now)
  {
    hide Exchange;
  }

  lemma KnownCode(s: State, cfg: Config, used: set<Id>, code: Id)
    requires Inv(s, cfg, used)
    ensures code in s.codes ==> code in used && code != NONE
  {
  }

  /** A code is exchanged at most once in any run, whatever the clock does. */
  lemma ExchangedOnce(cfg: Config, ws: seq<World>, es: seq<Event>, i: nat, j: nat, code: Id)
    requires Run(cfg, ws, es) && i < j < |es| && Exchanges(cfg, ws, es, i, code)
    ensures !Exchanges(cfg, ws, es, j, code)
  {
    hide StepAt, Exchange;
    ExchangedIsUsed(cfg, ws, es, i, code);
    UsedStaysUsed(cfg, ws, es, i + 1, j, code);
  }

  /** A second presentation by the client, bound and at the current revision, of a code not revoked. */
  ghost predicate Replays(ws: seq<World>, es: seq<Event>, i: nat, code: Id)
    requires |ws| == |es| + 1 && i < |es|
  {
    var e := es[i];
    && e.ExchangeCode? && e.code == code
    && Presented(ws[i].state, e.client, e.record, code, e.redirectUri, e.challenge) && ws[i].state.codes[code].consumed
  }

  lemma ReplaySpends(s: State, code: Id)
    requires code in s.codes && s.codes[code].consumed
    ensures CodeSpent(RevokeForCode(s, code), code)
  {
  }

  lemma AppliedReplay(cfg: Config, s: State, e: Event, now: Time)
    requires e.ExchangeCode? && Presented(s, e.client, e.record, e.code, e.redirectUri, e.challenge)
             && s.codes[e.code].consumed
    ensures Apply(cfg, s, e, now) == Committed(RevokeForCode(s, e.code))
  {
    hide RevokeForCode, IssueFromCode, JoinSession;
    AppliedExchange(cfg, s, e, now);
  }

  lemma ReplayStep(cfg: Config, ws: seq<World>, es: seq<Event>, i: nat, code: Id)
    requires Run(cfg, ws, es) && i < |es| && Replays(ws, es, i, code)
    ensures CodeSpent(ws[i + 1].state, code) && code in ws[i + 1].used && code != NONE
  {
    hide Inv, Evolves, StepAt, Apply, RevokeForCode, CodeSpent;
    Onward(cfg, ws, es, i);
    KnownCode(ws[i].state, cfg, ws[i].used, code);
    StepStores(cfg, ws, es, i);
    AppliedReplay(cfg, ws[i].state, es[i], ws[i + 1].clock);
    ReplaySpends(ws[i].state, code);
  }

  lemma SpentStep(cfg: Config, v: World, e: Event, w: World, code: Id)
    requires Evolves(v.state, w.state, TxOf(cfg, v, e, w)) && code in v.used && code != NONE && CodeSpent(v.state, code)
    ensures CodeSpent(w.state, code)
  {
  }

  lemma {:induction false} SpentForGood(cfg: Config, ws: seq<World>, es: seq<Event>, i: nat, j: nat, code: Id)
    requires Run(cfg, ws, es) && i <= j < |ws| && code in ws[i].used && code != NONE && CodeSpent(ws[i].state, code)
    ensures CodeSpent(ws[j].state, code)
  {
    hide Inv, Evolves, StepAt, CodeSpent;
    if i < j {
      SpentForGood(cfg, ws, es, i, j - 1, code);
      UsedGrows(cfg, ws, es, i, j - 1);
      Onward(cfg, ws, es, j - 1);
      SpentStep(cfg, ws[j - 1], es[j - 1], ws[j], code);
    }
  }

  /** After a replay no access token and no refresh family that came from the code, even by later
      rotations, is active at any later moment. */
  lemma ReplayEndsDescendants(cfg: Config, ws: seq<World>, es: seq<Event>, i: nat, j: nat, code: Id)
    requires Run(cfg, ws, es) && i < j < |ws| && Replays(ws, es, i, code)
    ensures forall h <- ws[j].state.tokens :: ws[j].state.tokens[h].codeHash == code ==> !TokenActive(cfg, ws[j], h)
    ensures forall f <- ws[j].state.families :: ws[j].state.families[f].codeHash == code ==> !FamilyActive(ws[j], f)
  {
    hide StepAt, Replays, SessionHolds, GrantHolds, FamilyHolds, ConsentCoversFamily;
    ReplayStep(cfg, ws, es, i, code);
    SpentForGood(cfg, ws, es, i + 1, j, code);
  }

  /** When a bound presentation of a used code ends its families: exactly when the code is not flagged
      revoked. */
  lemma ReplayRevokesExactly(
    s: State, cfg: Config, client: Id, c: Client, code: Id, redirectUri: Id, challenge: Id, d: Drawing, now: Time,
    f: Id)
    requires code in s.codes && s.codes[code].consumed && s.codes[code].clientId == client
    requires s.codes[code].redirectUri == redirectUri && s.codes[code].codeChallenge == challenge
    requires RevisionCurrent(s, client, c, s.codes[code].clientUpdatedAt)
    requires f in s.families && s.families[f].codeHash == code && !s.families[f].revoked
    ensures var r := Next(s, Exchange(s, cfg, client, c, code, redirectUri, challenge, d, now));
            f in r.families && (r.families[f].revoked <==> !s.codes[code].revoked)
  {
  }

  /** It can be flagged while its family lives: ending the session of a used code flags the code and keeps
      its family unrevoked, so a replay after that is refused and revokes nothing. */
  lemma LogoutShieldsFamily(
    s: State, cfg: Config, client: Id, c: Client, code: Id, redirectUri: Id, challenge: Id, d: Drawing, now: Time,
    f: Id, hash: Id, reason: Reason)
    requires code in s.codes && s.codes[code].consumed
    requires hash in s.sessions && Live(s.sessions[hash]) && s.sessions[hash].id == s.codes[code].opSessionId
    requires f in s.families && s.families[f].codeHash == code && !s.families[f].revoked
    ensures var m := EndSessions(s, {s.codes[code].opSessionId}, reason, now);
            && code in m.codes && m.codes[code].revoked
            && f in m.families && m.families[f] == s.families[f]
            && Exchange(m, cfg, client, c, code, redirectUri, challenge, d, now) == Denied(InvalidGrant)
  {
    assert hash in LiveRows(s.sessions, RowsWithIds(s.sessions, {s.codes[code].opSessionId}));
    hide SessionsEnded, AppsEnded, TokensEnded, TxnsOfSessions, Notices, OpNotices, LiveApps, IssueFromCode,
         JoinSession, RevokeForCode;
  }

  ghost predicate CodeFlagged(w: World, code: Id) {
    code in w.used && (code in w.state.codes ==> w.state.codes[code].revoked)
  }

  lemma FlaggedStep(cfg: Config, v: World, e: Event, w: World, code: Id)
    requires Evolves(v.state, w.state, TxOf(cfg, v, e, w)) && v.used <= w.used && CodeFlagged(v, code)
    ensures CodeFlagged(w, code)
  {
  }

  lemma {:induction false} FlaggedForGood(cfg: Config, ws: seq<World>, es: seq<Event>, i: nat, j: nat, code: Id)
    requires Run(cfg, ws, es) && i <= j < |ws| && CodeFlagged(ws[i], code)
    ensures CodeFlagged(ws[j], code)
  {
    hide Inv, Evolves, StepAt, CodeFlagged;
    if i < j {
      FlaggedForGood(cfg, ws, es, i, j - 1, code);
      Onward(cfg, ws, es, j - 1);
      FlaggedStep(cfg, ws[j - 1], es[j - 1], ws[j], code);
    }
  }

  lemma FlaggedRefused(cfg: Config, s: State, e: Event, now: Time)
    requires e.ExchangeCode? && (e.code in s.codes ==> s.codes[e.code].revoked)
    ensures Apply(cfg, s, e, now) == Denied(InvalidGrant)
  {
    hide IssueFromCode, JoinSession, RevokeForCode;
    AppliedExchange(cfg, s, e, now);
  }

  /** A code flagged at some moment of a run is refused at every later presentation, which changes nothing:
      no replay of it ever revokes its family. */
  lemma FlaggedRefusedForGood(cfg: Config, ws: seq<World>, es: seq<Event>, i: nat, j: nat, code: Id)
    requires Run(cfg, ws, es) && i <= j < |es| && CodeFlagged(ws[i], code)
    requires es[j].ExchangeCode? && es[j].code == code
    ensures Apply(cfg, ws[j].state, es[j], ws[j + 1].clock) == Denied(InvalidGrant) && ws[j + 1].state == ws[j].state
  {
    hide StepAt, Apply;
    FlaggedForGood(cfg, ws, es, i, j, code);
    FlaggedRefused(cfg, ws[j].state, es[j], ws[j + 1].clock);
    StepStores(cfg, ws, es, j);
  }

  /** Ending sessions leaves every refresh family and every token backed by one as it was. */
  lemma OfflineSurvivesLogout(s: State, ids: set<Id>, reason: Reason, now: Time)
    ensures var m := EndSessions(s, ids, reason, now);
            && m.families == s.families && m.refreshes == s.refreshes
            && forall h <- s.tokens :: h in m.tokens && (s.tokens[h].familyId != NONE ==> m.tokens[h] == s.tokens[h])
  {
  }

  // ---------- Refresh tokens ----------

  /** In every reachable store a family has exactly one unconsumed token; its scopes are within those of
      every token of the family and of the code; and the idle expiry is within the absolute one. */
  lemma RotationChain(cfg: Config, ws: seq<World>, es: seq<Event>, n: nat, f: Id)
    requires Run(cfg, ws, es) && n < |ws| && f in ws[n].state.families
    ensures var s := ws[n].state;
            && (exists h :: LastOfChain(s, h, f))
            && s.families[f].idleExpiry <= s.families[f].absoluteExpiry
            && (!s.families[f].revoked ==>
                  s.families[f].codeHash in s.codes && s.codes[s.families[f].codeHash].scopes == s.families[f].scopes)
  {
    hide Inv, StepAt, LastOfChain;
    At(cfg, ws, es, n);
    ChainIn(ws[n].state, cfg, ws[n].used, f);
  }

  /** The one usable token of a family, narrower than every other and than the code's scopes. */
  ghost predicate LastOfChain(s: State, h: Id, f: Id) {
    && Usable(s.refreshes, h, f) && f in s.families
    && (forall k :: Usable(s.refreshes, k, f) ==> k == h)
    && (forall k <- s.refreshes :: s.refreshes[k].familyId == f ==>
          ScopeSubset(s.refreshes[h].scopes, s.refreshes[k].scopes)
          && ScopeSubset(s.refreshes[k].scopes, s.families[f].scopes))
  }

  lemma ChainIn(s: State, cfg: Config, used: set<Id>, f: Id)
    requires Inv(s, cfg, used) && f in s.families
    ensures exists h :: LastOfChain(s, h, f)
    ensures s.families[f].idleExpiry <= s.families[f].absoluteExpiry
    ensures !s.families[f].revoked ==>
              s.families[f].codeHash in s.codes && s.codes[s.families[f].codeHash].scopes == s.families[f].scopes
  {
    hide SessionsInv, CodesInv, TokensInv, KnownIds;
    assert FamilyShape(s.families[f], cfg) && FamilyProven(s.families[f], s.codes);
    var h :| Usable(s.refreshes, h, f);
    forall k | k in s.refreshes && s.refreshes[k].familyId == f
      ensures ScopeSubset(s.refreshes[h].scopes, s.refreshes[k].scopes)
              && ScopeSubset(s.refreshes[k].scopes, s.families[f].scopes) {
      assert RefreshOk(s.refreshes[k], s.families);
    }
    assert LastOfChain(s, h, f);
  }

  /** A family that is stored has been stored since its identifier was drawn, and keeps its scopes,
      audience, authentication time, absolute expiry, client, user and code. */
  ghost predicate SameFamily(v: World, w: World, f: Id) {
    && f in v.state.families && f in w.state.families
    && var g, h := v.state.families[f], w.state.families[f];
       h == g.(revoked := h.revoked, idleExpiry := h.idleExpiry) && (g.revoked ==> h.revoked)
  }

  lemma FamilyStep(cfg: Config, v: World, e: Event, w: World, f: Id)
    requires Evolves(v.state, w.state, TxOf(cfg, v, e, w)) && f in v.used && f in w.state.families
    ensures SameFamily(v, w, f)
  {
  }

  lemma {:induction false} FamilyConstants(cfg: Config, ws: seq<World>, es: seq<Event>, i: nat, j: nat, f: Id)
    requires Run(cfg, ws, es) && i <= j < |ws| && f in ws[i].used && f in ws[j].state.families
    ensures SameFamily(ws[i], ws[j], f)
  {
    hide Inv, Evolves, StepAt;
    if i < j {
      UsedGrows(cfg, ws, es, i, j - 1);
      Onward(cfg, ws, es, j - 1);
      FamilyStep(cfg, ws[j - 1], es[j - 1], ws[j], f);
      FamilyConstants(cfg, ws, es, i, j - 1, f);
    }
  }

  lemma KnownFamily(s: State, cfg: Config, used: set<Id>)
    requires Inv(s, cfg, used)
    ensures s.families.Keys <= used && NONE !in s.families
  {
  }

  /** The i-th step presents a refresh token already used, by its client at the current revision. */
  ghost predicate Reuses(cfg: Config, ws: seq<World>, es: seq<Event>, i: nat, f: Id)
    requires |ws| == |es| + 1 && i < |es|
  {
    var e := es[i];
    && e.UseRefresh? && cfg.refreshTokensEnabled && RefreshPresented(ws[i].state, e.client, e.record, e.hash)
    && ws[i].state.refreshes[e.hash].consumed && ws[i].state.refreshes[e.hash].familyId == f
  }

  /** Reuse of a refresh token ends its family, and every token the family backs, for good. */
  lemma ReuseEndsFamily(cfg: Config, ws: seq<World>, es: seq<Event>, i: nat, j: nat, f: Id)
    requires Run(cfg, ws, es) && i < j < |ws| && Reuses(cfg, ws, es, i, f)
    ensures f in ws[j].state.families ==> ws[j].state.families[f].revoked
    ensures f != NONE
            && forall h <- ws[j].state.tokens :: ws[j].state.tokens[h].familyId == f ==> !TokenActive(cfg, ws[j], h)
  {
    hide StepAt, Inv, Reuses, TokenActive;
    ReuseStep(cfg, ws, es, i, f);
    if f in ws[j].state.families {
      FamilyConstants(cfg, ws, es, i + 1, j, f);
    }
    At(cfg, ws, es, j);
    FamilyTokensInactive(cfg, ws[j], f);
  }

  lemma FamilyTokensInactive(cfg: Config, w: World, f: Id)
    requires Inv(w.state, cfg, w.used) && f != NONE && (f in w.state.families ==> w.state.families[f].revoked)
    ensures forall h <- w.state.tokens :: w.state.tokens[h].familyId == f ==> !TokenActive(cfg, w, h)
  {
  }

  lemma ReuseStep(cfg: Config, ws: seq<World>, es: seq<Event>, i: nat, f: Id)
    requires Run(cfg, ws, es) && i < |es| && Reuses(cfg, ws, es, i, f)
    ensures f != NONE && f in ws[i + 1].used && f in ws[i + 1].state.families && ws[i + 1].state.families[f].revoked
  {
    hide Inv, Evolves, StepAt, Apply, RevokeFamily;
    Onward(cfg, ws, es, i);
    KnownFamily(ws[i].state, cfg, ws[i].used);
    StepStores(cfg, ws, es, i);
    AppliedReuse(cfg, ws[i].state, es[i], ws[i + 1].clock);
    RevokedFamilyIs(ws[i].state, f);
  }

  lemma AppliedReuse(cfg: Config, s: State, e: Event, now: Time)
    requires e.UseRefresh? && cfg.refreshTokensEnabled && RefreshPresented(s, e.client, e.record, e.hash)
             && s.refreshes[e.hash].consumed
    ensures Apply(cfg, s, e, now) == Committed(RevokeFamily(s, s.refreshes[e.hash].familyId))
  {
    hide RevokeFamily, Rotate, RefreshFamilyActive;
  }

  lemma RevokedFamilyIs(s: State, f: Id)
    requires f in s.families
    ensures f in RevokeFamily(s, f).families && RevokeFamily(s, f).families[f].revoked
  {
  }
}
