/** The administrator's activity view and revocation by hand (internal/identity/monitor.go). A record is
    named by its kind and key; the source names it by a hash of both. */
module Monitor {
  import opened Records
  import opened Validity
  import opened Cascades
  import opened Invariants
  import opened Evolution
  import opened Flags
  import opened Purges
  import opened Steps
  import Logouts
  import Store
  import Terminations

  datatype Key =
    | RequestKey(txn: Id) | CodeKey(code: Id) | TokenKey(token: Id) | RefreshKey(refresh: Id)
    | GrantKey(grant: ConsentKey)

  datatype View = IsActive | IsRevoked | IsUsed | IsExpired | NotListed

  /** `activityStatus`; "completed" and "consumed" are both `IsUsed`. */
  function ActivityStatus(revoked: bool, consumed: bool, expires: Time, now: Time): View {
    if revoked then IsRevoked else if consumed then IsUsed else if expires <= now then IsExpired else IsActive
  }

  function CodeStatus(c: Code, now: Time): View {
    ActivityStatus(c.revoked, c.consumed, c.expiresAt, now)
  }

  /** `activityRecords`: how the view lists a record. */
  function Listed(s: State, cfg: Config, key: Key, now: Time): View {
    match key
    case RequestKey(id) =>
      if id !in s.txns then NotListed
      else ActivityStatus(s.txns[id].revoked, s.txns[id].consumed, s.txns[id].expiresAt, now)
    case CodeKey(h) =>
      if h !in s.codes then NotListed else CodeStatus(s.codes[h], now)
    case TokenKey(h) =>
      if h !in s.tokens then NotListed
      else
        var status := ActivityStatus(s.tokens[h].revoked, false, s.tokens[h].expiresAt, now);
        if status == IsActive && !AccessTokenActive(s, cfg, s.tokens[h], now) then IsExpired else status
    case RefreshKey(h) =>
      if h !in s.refreshes || s.refreshes[h].familyId !in s.families then NotListed
      else
        var f := s.families[s.refreshes[h].familyId];
        var status := ActivityStatus(f.revoked, s.refreshes[h].consumed, MinTime(f.idleExpiry, f.absoluteExpiry), now);
        if status == IsActive && !RefreshFamilyActive(s, f, now) then IsExpired else status
    case GrantKey(k) =>
      if k !in s.consents then NotListed
      else if s.consents[k].revoked then IsRevoked
      else if k.clientId !in s.clients || s.clients[k.clientId].updatedAt != s.consents[k].policyRevision then IsExpired
      else IsActive
  }

  // ---------- Revoking ----------

  function ActiveCodes(codes: map<Id, Code>, selected: set<Id>, now: Time): set<Id> {
    set h | h in selected && h in codes && CodeStatus(codes[h], now) == IsActive
  }

  function LiveTokens(tokens: map<Id, Token>, now: Time): set<Id> {
    set h | h in tokens && ActivityStatus(tokens[h].revoked, false, tokens[h].expiresAt, now) == IsActive
  }

  function TokensOfCodes(tokens: map<Id, Token>, codes: set<Id>): set<Id> {
    set h | h in tokens && tokens[h].codeHash in codes
  }

  function ActiveTxns(txns: map<Id, Txn>, user: Id, client: Id, now: Time): set<Id> {
    set t | t in txns && txns[t].userId == user && txns[t].clientId == client
            && ActivityStatus(txns[t].revoked, txns[t].consumed, txns[t].expiresAt, now) == IsActive
  }

  function CodesOfTxn(codes: map<Id, Code>, txn: Id): set<Id> {
    set h | h in codes && codes[h].transactionId == txn
  }

  /** Flags the active codes among `selected`, and the live tokens they led to. */
  ghost function RevokeCodes(s: State, selected: set<Id>, now: Time): State {
    var codes := ActiveCodes(s.codes, selected, now);
    RevokeGrants(s.(codes := CodesMarked(s.codes, codes)), {},
                 TokensOfCodes(s.tokens, codes) * LiveTokens(s.tokens, now))
  }

  ghost function RevokeRequest(s: State, txn: Id, now: Time): State {
    RevokeCodes(s.(txns := TxnsMarked(s.txns, {txn})), CodesOfTxn(s.codes, txn), now)
  }

  ghost function RevokeGrant(s: State, k: ConsentKey, now: Time): State
    requires k in s.consents
  {
    var s1 := SaveConsent(s, k, s.consents[k].(revoked := true), now);
    var s2 := s1.(txns := TxnsMarked(s1.txns, ActiveTxns(s1.txns, k.userId, k.clientId, now)));
    var s3 := RevokeCodes(s2, CodesOfGrant(s2.codes, k.userId, k.clientId), now);
    RevokeGrants(s3, {}, TokensOfGrant(s3.tokens, k.userId, k.clientId) * LiveTokens(s3.tokens, now))
  }

  ghost function RevokeRecord(s: State, key: Key, now: Time): State {
    match key
    case RequestKey(id) => RevokeRequest(s, id, now)
    case CodeKey(h) => RevokeCodes(s, {h}, now)
    case TokenKey(h) => RevokeToken(s, h)
    case RefreshKey(h) => if h in s.refreshes then RevokeFamily(s, s.refreshes[h].familyId) else s
    case GrantKey(k) => if k in s.consents then RevokeGrant(s, k, now) else s
  }

  /** An unlisted record is not found, a revoked one is left alone, and only an active one is revoked. */
  ghost function RevokeActivity(s: State, cfg: Config, hash: Id, key: Key, now: Time): Outcome {
    if !SignedInAs(s, hash, true, now) then Denied(PrincipalError(s, hash, now))
    else
      match Listed(s, cfg, key, now)
      case NotListed => Denied(NotFound)
      case IsRevoked => Committed(s)
      case IsActive => Committed(RevokeRecord(s, key, now))
      case _ => Denied(NotActive)
  }

  // ---------- Soundness ----------

  lemma RevokeCodesSound(s: State, tx: Tx, selected: set<Id>, now: Time)
    requires Inv(s, tx.cfg, tx.known)
    ensures Sound(s, RevokeCodes(s, selected, now), tx)
  {
    var codes := ActiveCodes(s.codes, selected, now);
    var m := s.(codes := CodesMarked(s.codes, codes));
    var tokens := TokensOfCodes(s.tokens, codes) * LiveTokens(s.tokens, now);
    Store.TxnsMarkNone(s.txns);
    assert m == s.(codes := CodesMarked(s.codes, codes), txns := TxnsMarked(s.txns, {}));
    assert RevokeCodes(s, selected, now) == RevokeGrants(m, {}, tokens);
    hide Inv, Evolves, RevokeGrants, CodesMarked, RevokeCodes;
    MarkSound(s, tx, codes, {});
    RevokeSound(m, tx, {}, tokens);
    SoundThen(s, m, RevokeGrants(m, {}, tokens), tx);
  }

  lemma TxnsMarkSound(s: State, tx: Tx, txns: set<Id>)
    requires Inv(s, tx.cfg, tx.known)
    ensures Sound(s, s.(txns := TxnsMarked(s.txns, txns)), tx)
  {
    Store.CodesMarkNone(s.codes);
    assert s.(txns := TxnsMarked(s.txns, txns)) == s.(codes := CodesMarked(s.codes, {}),
                                                      txns := TxnsMarked(s.txns, txns));
    hide Inv, Sound, CodesMarked, TxnsMarked;
    MarkSound(s, tx, {}, txns);
  }

  lemma RevokeRequestSound(s: State, tx: Tx, txn: Id, now: Time)
    requires Inv(s, tx.cfg, tx.known)
    ensures Sound(s, RevokeRequest(s, txn, now), tx)
  {
    hide Inv, Evolves, RevokeCodes, TxnsMarked;
    var m := s.(txns := TxnsMarked(s.txns, {txn}));
    TxnsMarkSound(s, tx, {txn});
    RevokeCodesSound(m, tx, CodesOfTxn(s.codes, txn), now);
    SoundThen(s, m, RevokeRequest(s, txn, now), tx);
  }

  lemma RevokeGrantSound(s: State, tx: Tx, k: ConsentKey, now: Time)
    requires Inv(s, tx.cfg, tx.known) && k in s.consents && (tx.timely ==> now <= tx.now)
    ensures Sound(s, RevokeGrant(s, k, now), tx)
  {
    assert k.clientId in s.clients && s.clients[k.clientId].updatedAt == s.consents[k].policyRevision;
    hide Inv, Evolves, SaveConsent, RevokeCodes, RevokeGrants, TxnsMarked;
    var s1 := SaveConsent(s, k, s.consents[k].(revoked := true), now);
    var s2 := s1.(txns := TxnsMarked(s1.txns, ActiveTxns(s1.txns, k.userId, k.clientId, now)));
    var s3 := RevokeCodes(s2, CodesOfGrant(s2.codes, k.userId, k.clientId), now);
    var s4 := RevokeGrants(s3, {}, TokensOfGrant(s3.tokens, k.userId, k.clientId) * LiveTokens(s3.tokens, now));
    SaveConsentSound(s, tx, k, s.consents[k].(revoked := true), now);
    TxnsMarkSound(s1, tx, ActiveTxns(s1.txns, k.userId, k.clientId, now));
    SoundThen(s, s1, s2, tx);
    RevokeCodesSound(s2, tx, CodesOfGrant(s2.codes, k.userId, k.clientId), now);
    SoundThen(s, s2, s3, tx);
    RevokeSound(s3, tx, {}, TokensOfGrant(s3.tokens, k.userId, k.clientId) * LiveTokens(s3.tokens, now));
    SoundThen(s, s3, s4, tx);
  }

  lemma RevokeActivitySound(s: State, tx: Tx, hash: Id, key: Key, now: Time)
    requires Starts(s, tx) && (tx.timely ==> now <= tx.now)
    ensures SoundStep(s, RevokeActivity(s, tx.cfg, hash, key, now), tx)
  {
    hide Inv, Sound, Listed, RevokeRequest, RevokeCodes, RevokeGrants, RevokeGrant, KnownIds;
    Begin(s, tx);
    SoundStill(s, tx);
    match key
    case RequestKey(id) => RevokeRequestSound(s, tx, id, now);
    case CodeKey(h) => RevokeCodesSound(s, tx, {h}, now);
    case TokenKey(h) => RevokeSound(s, tx, {}, {h});
    case RefreshKey(h) => if h in s.refreshes { RevokeSound(s, tx, {s.refreshes[h].familyId}, {}); }
    case GrantKey(k) => if k in s.consents { RevokeGrantSound(s, tx, k, now); }
  }

  /** Revoking codes one after another is revoking them together: the order does not matter. */
  lemma RevokeCodesUnion(s: State, a: set<Id>, b: set<Id>, now: Time)
    ensures RevokeCodes(RevokeCodes(s, a, now), b, now) == RevokeCodes(s, a + b, now)
  {
    var m := RevokeCodes(s, a, now);
    var ca, cb := ActiveCodes(s.codes, a, now), ActiveCodes(m.codes, b, now);
    RevokeCodesFrame(s, a, now);
    RevokeCodesFrame(m, b, now);
    RevokeCodesFrame(s, a + b, now);
    ActiveUnion(s.codes, a, b, now);
    MarkUnion(s.codes, ca, cb);
    TokensUnionOfCodes(s.tokens, ca, cb, now);
    var none: set<Id> := {};
    assert none * s.families.Keys == none && none * m.families.Keys == none;
    hide ActiveCodes, CodesMarked, TokensRevoked, TokensOfCodes, LiveTokens, FamiliesRevoked;
  }

  lemma ActiveUnion(codes: map<Id, Code>, a: set<Id>, b: set<Id>, now: Time)
    ensures var ca := ActiveCodes(codes, a, now);
            ActiveCodes(codes, a + b, now) == ca + ActiveCodes(CodesMarked(codes, ca), b, now)
  {
  }

  lemma MarkUnion(codes: map<Id, Code>, a: set<Id>, b: set<Id>)
    ensures CodesMarked(CodesMarked(codes, a), b) == CodesMarked(codes, a + b)
  {
  }

  lemma TokensUnionOfCodes(tokens: map<Id, Token>, a: set<Id>, b: set<Id>, now: Time)
    ensures var none: set<Id> := {};
            var t1 := TokensRevoked(tokens, none, TokensOfCodes(tokens, a) * LiveTokens(tokens, now));
            TokensRevoked(t1, none, TokensOfCodes(t1, b) * LiveTokens(t1, now))
            == TokensRevoked(tokens, none, TokensOfCodes(tokens, a + b) * LiveTokens(tokens, now))
  {
  }

  lemma RevokeNoCodes(s: State, now: Time)
    ensures RevokeCodes(s, {}, now) == s
  {
  }

  lemma RevokeOneCode(s: State, h: Id, now: Time)
    ensures RevokeCodes(s, {h}, now) ==
              if h in s.codes && CodeStatus(s.codes[h], now) == IsActive then
                s.(codes := s.codes[h := s.codes[h].(revoked := true)],
                   tokens := TokensRevoked(s.tokens, {}, TokensOfCodes(s.tokens, {h}) * LiveTokens(s.tokens, now)))
              else s
  {
  }

  // ---------- The view agrees with revocation ----------

  /** An active record, once revoked, is listed as revoked. */
  lemma RevokedIsListed(s: State, cfg: Config, key: Key, now: Time)
    requires Listed(s, cfg, key, now) == IsActive
    ensures Listed(RevokeRecord(s, key, now), cfg, key, now) == IsRevoked
  {
  }

  lemma RevokeKeepsSignIn(s: State, key: Key, now: Time)
    ensures RevokeRecord(s, key, now).sessions == s.sessions && RevokeRecord(s, key, now).users == s.users
  {
  }

  /** Revocation commits a different state exactly for the records listed as active; the record is then
      listed as revoked, and revoking it again changes nothing. */
  lemma ViewAgrees(s: State, cfg: Config, hash: Id, key: Key, now: Time)
    requires SignedInAs(s, hash, true, now)
    ensures var o := RevokeActivity(s, cfg, hash, key, now);
            && (Next(s, o) != s <==> Listed(s, cfg, key, now) == IsActive)
            && (Listed(s, cfg, key, now) == IsActive ==>
                  && Listed(Next(s, o), cfg, key, now) == IsRevoked
                  && RevokeActivity(Next(s, o), cfg, hash, key, now) == Committed(Next(s, o)))
  {
    hide Listed, RevokeRecord;
    if Listed(s, cfg, key, now) == IsActive {
      RevokedIsListed(s, cfg, key, now);
      RevokeKeepsSignIn(s, key, now);
    }
  }

  /** The codes a request led to that could still be used. */
  ghost predicate LedTo(s: State, txn: Id, code: Id, now: Time) {
    && code in s.codes && s.codes[code].transactionId == txn
    && !s.codes[code].revoked && !s.codes[code].consumed && now < s.codes[code].expiresAt
  }

  /** Revoking an active record flags it and what it led to, and nothing else: a token alone; a refresh token's
      family with its tokens; a code with the unexpired tokens from it; a request with its usable codes and
      theirs; a consent with its client's families and app sessions for that account. */
  ghost predicate RevokesOnly(s: State, r: State, key: Key, now: Time) {
    match key
    case TokenKey(h) => h in s.tokens && r == s.(tokens := s.tokens[h := s.tokens[h].(revoked := true)])
    case RefreshKey(h) =>
      && h in s.refreshes
      && var f := s.refreshes[h].familyId;
      && r == s.(families := r.families, tokens := r.tokens)
      && Terminations.OnlyRevoked(s.families, r.families, {f}) && Terminations.OnlyFlagged(s.tokens, r.tokens, {f}, {})
    case CodeKey(h) =>
      && h in s.codes && r == s.(codes := s.codes[h := s.codes[h].(revoked := true)], tokens := r.tokens)
      && r.tokens.Keys == s.tokens.Keys
      && forall t <- s.tokens ::
           r.tokens[t] == s.tokens[t].(revoked :=
             s.tokens[t].revoked || (s.tokens[t].codeHash == h && now < s.tokens[t].expiresAt))
    case RequestKey(id) =>
      && id in s.txns
      && r == s.(txns := s.txns[id := s.txns[id].(revoked := true)], codes := r.codes, tokens := r.tokens)
      && r.codes.Keys == s.codes.Keys && r.tokens.Keys == s.tokens.Keys
      && (forall h <- s.codes :: r.codes[h] == s.codes[h].(revoked := s.codes[h].revoked || LedTo(s, id, h, now)))
      && forall t <- s.tokens ::
           r.tokens[t] == s.tokens[t].(revoked :=
             s.tokens[t].revoked || (LedTo(s, id, s.tokens[t].codeHash, now) && now < s.tokens[t].expiresAt))
    case GrantKey(k) =>
      && k in s.consents && r.consents == s.consents[k := s.consents[k].(revoked := true)]
      && r.sessions == s.sessions && r.refreshes == s.refreshes && SameGrants(s, r)
      && Terminations.OnlyRevoked(s.families, r.families,
                                  set f | f in s.families && s.families[f].userId == k.userId
                                          && s.families[f].clientId == k.clientId)
      && Terminations.PairEnded(s.apps, r.apps, k.userId, k.clientId, now)
  }

  lemma RecordRevokedOnly(s: State, cfg: Config, key: Key, now: Time)
    requires Listed(s, cfg, key, now) == IsActive
    ensures RevokesOnly(s, RevokeRecord(s, key, now), key, now)
  {
    hide AccessTokenActive, RefreshFamilyActive;
    match key
    case TokenKey(h) =>
      TokenRevokedOnly(s, h);
    case RefreshKey(h) =>
      Terminations.RevokesExactly(s, {s.refreshes[h].familyId}, {});
      assert {s.refreshes[h].familyId} * s.families.Keys == {s.refreshes[h].familyId};
    case CodeKey(h) =>
      CodeRevokedOnly(s, h, now);
    case RequestKey(id) =>
      RequestRevokedOnly(s, id, now);
    case GrantKey(k) =>
      GrantRevokedOnly(s, k, now);
  }

  lemma TokenRevokedOnly(s: State, h: Id)
    requires h in s.tokens
    ensures RevokeToken(s, h) == s.(tokens := s.tokens[h := s.tokens[h].(revoked := true)])
  {
    var none: set<Id> := {};
    assert none * s.families.Keys == none;
    assert TokensRevoked(s.tokens, none, {h}) == s.tokens[h := s.tokens[h].(revoked := true)];
    assert FamiliesRevoked(s.families, none) == s.families;
  }

  lemma CodeRevokedOnly(s: State, h: Id, now: Time)
    requires h in s.codes && CodeStatus(s.codes[h], now) == IsActive
    ensures RevokesOnly(s, RevokeCodes(s, {h}, now), CodeKey(h), now)
  {
    RevokeOneCode(s, h, now);
    hide RevokeCodes;
  }

  lemma RequestRevokedOnly(s: State, id: Id, now: Time)
    requires id in s.txns
    ensures RevokesOnly(s, RevokeRequest(s, id, now), RequestKey(id), now)
  {
    assert TxnsMarked(s.txns, {id}) == s.txns[id := s.txns[id].(revoked := true)];
    var none: set<Id> := {};
    assert none * s.families.Keys == none && FamiliesRevoked(s.families, none) == s.families;
    var codes := ActiveCodes(s.codes, CodesOfTxn(s.codes, id), now);
    assert forall h :: h in codes <==> LedTo(s, id, h, now);
    hide ActiveCodes, CodesOfTxn, LedTo, TxnsMarked, FamiliesRevoked;
  }

  lemma GrantRevokedOnly(s: State, k: ConsentKey, now: Time)
    requires k in s.consents
    ensures RevokesOnly(s, RevokeGrant(s, k, now), GrantKey(k), now)
  {
    var c := s.consents[k].(revoked := true);
    var s1 := SaveConsent(s, k, c, now);
    var s2 := s1.(txns := TxnsMarked(s1.txns, ActiveTxns(s1.txns, k.userId, k.clientId, now)));
    var s3 := RevokeCodes(s2, CodesOfGrant(s2.codes, k.userId, k.clientId), now);
    var tokens := TokensOfGrant(s3.tokens, k.userId, k.clientId) * LiveTokens(s3.tokens, now);
    hide SaveConsent, TxnsMarked, ActiveTxns, CodesOfGrant, TokensOfGrant, LiveTokens, RevokeCodes, RevokeGrants;
    hide Terminations.OnlyRevoked, Terminations.PairEnded;
    ConsentRevokedOnly(s, k, c, now);
    RevokeCodesOnly(s2, CodesOfGrant(s2.codes, k.userId, k.clientId), now);
    RevokeTokensOnly(s3, tokens);
  }

  lemma ConsentRevokedOnly(s: State, k: ConsentKey, c: Consent, now: Time)
    requires c.revoked
    ensures var r := SaveConsent(s, k, c, now);
            && r.consents == s.consents[k := c] && r.sessions == s.sessions && r.refreshes == s.refreshes
            && SameGrants(s, r)
            && Terminations.OnlyRevoked(s.families, r.families,
                                        set f | f in s.families && s.families[f].userId == k.userId
                                                && s.families[f].clientId == k.clientId)
            && Terminations.PairEnded(s.apps, r.apps, k.userId, k.clientId, now)
  {
    Terminations.PairStops(s, k.userId, k.clientId, now);
    EndAppsRests(s, AppsOfGrant(s.apps, k.userId, k.clientId), AccessRevoked, now);
    hide EndApps, TokensRevoked, AppsOfGrant, Terminations.PairEnded;
  }

  lemma EndAppsRests(s: State, ids: set<Id>, reason: Reason, now: Time)
    ensures var r := EndApps(s, ids, reason, now);
            SameGrants(s, r) && r.refreshes == s.refreshes
  {
  }

  lemma RevokeCodesOnly(s: State, selected: set<Id>, now: Time)
    ensures var r := RevokeCodes(s, selected, now);
            r == s.(codes := r.codes, tokens := r.tokens)
  {
    var none: set<Id> := {};
    assert none * s.families.Keys == none && FamiliesRevoked(s.families, none) == s.families;
  }

  lemma RevokeTokensOnly(s: State, tokens: set<Id>)
    ensures var r := RevokeGrants(s, {}, tokens);
            r == s.(tokens := r.tokens)
  {
    var none: set<Id> := {};
    assert none * s.families.Keys == none && FamiliesRevoked(s.families, none) == s.families;
  }

  // ---------- What revoking a consent leaves ----------

  /** Nothing of this user and client is active or can be used again. */
  ghost predicate PairQuiet(s: State, user: Id, client: Id, now: Time) {
    && (forall h <- s.codes ::
          s.codes[h].userId == user && s.codes[h].clientId == client ==> CodeStatus(s.codes[h], now) != IsActive)
    && (forall h <- s.tokens ::
          s.tokens[h].userId == user && s.tokens[h].clientId == client ==> h !in LiveTokens(s.tokens, now))
    && (forall t <- s.txns :: s.txns[t].userId == user && s.txns[t].clientId == client ==>
          ActivityStatus(s.txns[t].revoked, s.txns[t].consumed, s.txns[t].expiresAt, now) != IsActive)
    && (forall f <- s.families ::
          s.families[f].userId == user && s.families[f].clientId == client ==> s.families[f].revoked)
    && (forall a <- s.apps :: s.apps[a].userId == user && s.apps[a].clientId == client ==> s.apps[a].endedAt.Some?)
  }

  lemma CodesQuiet(s: State, user: Id, client: Id, now: Time)
    ensures var r := RevokeCodes(s, CodesOfGrant(s.codes, user, client), now);
            forall h <- r.codes ::
              r.codes[h].userId == user && r.codes[h].clientId == client ==> CodeStatus(r.codes[h], now) != IsActive
  {
  }

  lemma TokensQuiet(s: State, user: Id, client: Id, now: Time)
    ensures var r := RevokeGrants(s, {}, TokensOfGrant(s.tokens, user, client) * LiveTokens(s.tokens, now));
            forall h <- r.tokens ::
              r.tokens[h].userId == user && r.tokens[h].clientId == client ==> h !in LiveTokens(r.tokens, now)
  {
  }

  lemma TxnsQuiet(txns: map<Id, Txn>, user: Id, client: Id, now: Time)
    ensures var r := TxnsMarked(txns, ActiveTxns(txns, user, client, now));
            forall t <- r ::
              r[t].userId == user && r[t].clientId == client ==>
                ActivityStatus(r[t].revoked, r[t].consumed, r[t].expiresAt, now) != IsActive
  {
  }

  /** What later parts of the revocation keep of its first part. */
  lemma RevokeCodesFrame(s: State, selected: set<Id>, now: Time)
    ensures var r := RevokeCodes(s, selected, now);
            r.txns == s.txns && r.apps == s.apps && r.consents == s.consents && r.families == s.families
  {
  }

  lemma RevokeTokensFrame(s: State, tokens: set<Id>)
    ensures var r := RevokeGrants(s, {}, tokens);
            r.txns == s.txns && r.apps == s.apps && r.consents == s.consents && r.families == s.families
            && r.codes == s.codes
  {
  }

  lemma GrantRevocationQuiet(s: State, k: ConsentKey, now: Time)
    requires k in s.consents
    ensures PairQuiet(RevokeGrant(s, k, now), k.userId, k.clientId, now)
  {
    var s1 := SaveConsent(s, k, s.consents[k].(revoked := true), now);
    var s2 := s1.(txns := TxnsMarked(s1.txns, ActiveTxns(s1.txns, k.userId, k.clientId, now)));
    var s3 := RevokeCodes(s2, CodesOfGrant(s2.codes, k.userId, k.clientId), now);
    var s4 := RevokeGrant(s, k, now);
    GrantRevoked(s, k, now);
    hide RevokeConsentGrants, RevokeCodes, RevokeGrants, TxnsMarked, ActiveTxns, CodesOfGrant, TokensOfGrant,
         LiveTokens, CodeStatus, ActivityStatus;
    TxnsQuiet(s1.txns, k.userId, k.clientId, now);
    RevokeCodesFrame(s2, CodesOfGrant(s2.codes, k.userId, k.clientId), now);
    CodesQuiet(s2, k.userId, k.clientId, now);
    RevokeTokensFrame(s3, TokensOfGrant(s3.tokens, k.userId, k.clientId) * LiveTokens(s3.tokens, now));
    TokensQuiet(s3, k.userId, k.clientId, now);
  }

  ghost predicate FamiliesOut(families: map<Id, Family>, user: Id, client: Id) {
    forall f <- families :: families[f].userId == user && families[f].clientId == client ==> families[f].revoked
  }

  ghost predicate AppsOut(apps: map<Id, App>, user: Id, client: Id) {
    forall a <- apps :: apps[a].userId == user && apps[a].clientId == client ==> apps[a].endedAt.Some?
  }

  ghost predicate CodesOut(codes: map<Id, Code>, user: Id, client: Id) {
    forall h <- codes :: codes[h].userId == user && codes[h].clientId == client ==> codes[h].revoked
  }

  ghost predicate TxnsOut(txns: map<Id, Txn>, user: Id, client: Id) {
    forall t <- txns :: txns[t].userId == user && txns[t].clientId == client ==> txns[t].revoked
  }

  ghost predicate TokensOut(tokens: map<Id, Token>, user: Id, client: Id) {
    forall h <- tokens :: tokens[h].userId == user && tokens[h].clientId == client ==> tokens[h].revoked
  }

  lemma ConsentOut(s: State, k: ConsentKey, c: Consent, now: Time)
    requires c.revoked
    ensures FamiliesOut(SaveConsent(s, k, c, now).families, k.userId, k.clientId)
  {
  }

  lemma MarkedOut(s: State, user: Id, client: Id)
    ensures CodesOut(CodesMarked(s.codes, CodesOfGrant(s.codes, user, client)), user, client)
    ensures TxnsOut(TxnsMarked(s.txns, TxnsOfGrant(s.txns, user, client)), user, client)
  {
  }

  lemma EndedOut(s: State, user: Id, client: Id, now: Time)
    requires CodesOut(s.codes, user, client) && TxnsOut(s.txns, user, client)
    ensures var r := EndApps(s, AppsOfGrant(s.apps, user, client), AccessRevoked, now);
            CodesOut(r.codes, user, client) && TxnsOut(r.txns, user, client) && AppsOut(r.apps, user, client)
            && r.families == s.families
  {
  }

  lemma RevokedOut(s: State, user: Id, client: Id)
    ensures var r := RevokeGrants(s, {}, TokensOfGrant(s.tokens, user, client));
            TokensOut(r.tokens, user, client) && r.codes == s.codes && r.txns == s.txns && r.apps == s.apps
            && r.families == s.families
  {
  }

  lemma OutIsQuiet(s: State, user: Id, client: Id, now: Time)
    requires CodesOut(s.codes, user, client) && TxnsOut(s.txns, user, client) && TokensOut(s.tokens, user, client)
    requires AppsOut(s.apps, user, client) && FamiliesOut(s.families, user, client)
    ensures PairQuiet(s, user, client, now)
  {
  }

  /** Withdrawing a client's access from the session pages leaves as little. */
  lemma ClientAccessQuiet(s: State, user: Id, client: Id, now: Time)
    requires ConsentKey(user, client) in s.consents
    ensures PairQuiet(Logouts.RevokeClientAccess(s, user, client, now), user, client, now)
  {
    hide SaveConsent, EndApps, RevokeGrants, CodesMarked, TxnsMarked, AppsOfGrant, CodesOfGrant, TxnsOfGrant,
         TokensOfGrant, PairQuiet;
    hide CodesOut, TxnsOut, TokensOut, AppsOut, FamiliesOut;
    var k := ConsentKey(user, client);
    var s1 := SaveConsent(s, k, s.consents[k].(revoked := true), now);
    var s2 := s1.(codes := CodesMarked(s1.codes, CodesOfGrant(s1.codes, user, client)),
                  txns := TxnsMarked(s1.txns, TxnsOfGrant(s1.txns, user, client)));
    var s3 := EndApps(s2, AppsOfGrant(s2.apps, user, client), AccessRevoked, now);
    ConsentOut(s, k, s.consents[k].(revoked := true), now);
    MarkedOut(s1, user, client);
    EndedOut(s2, user, client, now);
    RevokedOut(s3, user, client);
    OutIsQuiet(RevokeGrants(s3, {}, TokensOfGrant(s3.tokens, user, client)), user, client, now);
  }
}
