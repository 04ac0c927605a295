/** Administration of clients, policies and entitlements (internal/identity/clients.go,
    internal/identity/oauth.go, internal/identity/registration.go). */
module Clients {
  import opened Records
  import opened Cascades
  import opened Invariants
  import opened Evolution
  import opened Purges
  import opened Steps

  /** The secret a client keeps or is issued. */
  function SecretFor(m: Metadata, secret: Id, drawnId: Id): Id {
    if !m.needsSecret then NONE else if secret == NONE then drawnId else secret
  }

  /** A `NONE` id creates a client under the drawn id. */
  ghost function SaveClient(s: State, hash: Id, id: Id, m: Metadata, freshId: Id, freshSecret: Id, now: Time): Outcome {
    if !SignedInAs(s, hash, true, now) then Denied(PrincipalError(s, hash, now))
    else if id != NONE && id !in s.clients then Denied(NotFound)
    else
      var secret := if id == NONE then NONE else s.clients[id].secret;
      Committed(Cascades.SaveClient(s, if id == NONE then freshId else id,
                                    Client(m, SecretFor(m, secret, freshSecret), now), now))
  }

  ghost function RotateSecret(s: State, hash: Id, id: Id, freshSecret: Id, now: Time): Outcome {
    if !SignedInAs(s, hash, true, now) then Denied(PrincipalError(s, hash, now))
    else if id !in s.clients then Denied(NotFound)
    else if !s.clients[id].metadata.needsSecret then Denied(Invalid)
    else Committed(Cascades.SaveClient(s, id, Client(s.clients[id].metadata, freshSecret, now), now))
  }

  ghost function DeleteClient(s: State, hash: Id, id: Id, now: Time): Outcome {
    if !SignedInAs(s, hash, true, now) then Denied(PrincipalError(s, hash, now))
    else if id !in s.clients then Denied(NotFound)
    else Committed(Cascades.DeleteClient(s, id, now))
  }

  /** Dynamic registration; initial access tokens are not part of this model. */
  ghost function RegisterClient(s: State, id: Id, m: Metadata, freshSecret: Id, now: Time): Outcome {
    if id in s.clients then Denied(Conflict)
    else Committed(Cascades.SaveClient(s, id, Client(m, SecretFor(m, NONE, freshSecret), now), now))
  }

  lemma KnownClientSound(s: State, tx: Tx, id: Id, c: Client, now: Time)
    requires tx.timely ==> now <= tx.now
    requires Starts(s, tx) && (id in s.clients || Drawn(tx, id))
    ensures Sound(s, Cascades.SaveClient(s, id, c, now), tx)
  {
    Begin(s, tx);
    assert id in tx.known;
    assert id !in s.clients ==> id !in tx.used && NoClientApps(s, id);
    hide Inv, Sound, Cascades.SaveClient;
    SaveClientSound(s, tx, id, c, now);
  }

  lemma SaveClientStepSound(s: State, tx: Tx, hash: Id, id: Id, m: Metadata, freshId: Id, freshSecret: Id, now: Time)
    requires tx.timely ==> now <= tx.now
    requires Starts(s, tx) && Drawn(tx, freshId)
    ensures SoundStep(s, SaveClient(s, hash, id, m, freshId, freshSecret, now), tx)
  {
    hide Starts, Sound, Cascades.SaveClient, Drawn, SignedInAs;
    if SaveClient(s, hash, id, m, freshId, freshSecret, now).Committed? {
      var secret := if id == NONE then NONE else s.clients[id].secret;
      KnownClientSound(s, tx, if id == NONE then freshId else id, Client(m, SecretFor(m, secret, freshSecret), now),
                       now);
    }
  }

  lemma RotateSecretSound(s: State, tx: Tx, hash: Id, id: Id, freshSecret: Id, now: Time)
    requires tx.timely ==> now <= tx.now
    requires Starts(s, tx)
    ensures SoundStep(s, RotateSecret(s, hash, id, freshSecret, now), tx)
  {
    hide Starts, Sound, Cascades.SaveClient, SignedInAs;
    if RotateSecret(s, hash, id, freshSecret, now).Committed? {
      KnownClientSound(s, tx, id, Client(s.clients[id].metadata, freshSecret, now), now);
    }
  }

  lemma DeleteClientStepSound(s: State, tx: Tx, hash: Id, id: Id, now: Time)
    requires tx.timely ==> now <= tx.now
    requires Starts(s, tx)
    ensures SoundStep(s, DeleteClient(s, hash, id, now), tx)
  {
    hide Inv, Sound, Cascades.DeleteClient, SignedInAs, KnownIds;
    Begin(s, tx);
    DeleteClientSound(s, tx, id, now);
  }

  lemma RegisterClientSound(s: State, tx: Tx, id: Id, m: Metadata, freshSecret: Id, now: Time)
    requires tx.timely ==> now <= tx.now
    requires Starts(s, tx) && Drawn(tx, id)
    ensures SoundStep(s, RegisterClient(s, id, m, freshSecret, now), tx)
  {
    hide Starts, Sound, Cascades.SaveClient, Drawn;
    KnownClientSound(s, tx, id, Client(m, SecretFor(m, NONE, freshSecret), now), now);
  }

  // ---------- Policies and entitlements ----------

  predicate Confidential(m: Metadata) { m.auth == SecretBasic || m.auth == SecretPost }

  predicate ResourceAccepted(cfg: Config, aud: Audience, v: ResourceScopes) {
    var r := ResourceByAudience(cfg.resources, aud);
    && r.Some? && ValidResourceScopes(v.allowed) && ValidScopeList(v.default)
    && ScopeSubset(v.allowed, r.value.scopes) && ScopeSubset(v.default, v.allowed)
  }

  predicate PolicyAccepted(cfg: Config, m: Metadata, p: Policy) {
    && |p.resources| <= 100 && |p.audiences| <= 100 && ValidScopeList(p.grants)
    && (forall g <- p.grants :: g in [ClientCredentials, PasswordGrant, RefreshGrant] && g in m.grants)
    && (p.passwordEnabled || p.introspection || ClientCredentials in p.grants || PasswordGrant in p.grants ==>
          Confidential(m))
    && (p.refreshEnabled ==> RefreshGrant in p.grants && AuthorizationCode in m.grants)
    && (p.passwordEnabled ==> PasswordGrant in p.grants)
    && (p.refreshInspection ==> p.introspection)
    && (forall aud <- p.resources :: ResourceAccepted(cfg, aud, p.resources[aud]))
    && (p.defaultResource.Some? ==> p.defaultResource.value in p.resources)
    && (forall aud <- p.audiences :: aud == UserInfo || ResourceByAudience(cfg.resources, aud).Some?)
  }

  predicate EntitlementAccepted(cfg: Config, aud: Audience, scopes: seq<Scope>) {
    var r := ResourceByAudience(cfg.resources, aud);
    r.Some? && ValidResourceScopes(scopes) && ScopeSubset(scopes, r.value.scopes)
  }

  ghost function SetPolicy(s: State, cfg: Config, hash: Id, id: Id, p: Policy, now: Time): Outcome {
    if !SignedInAs(s, hash, true, now) then Denied(PrincipalError(s, hash, now))
    else if id !in s.clients then Denied(NotFound)
    else if !PolicyAccepted(cfg, s.clients[id].metadata, p) then Denied(Invalid)
    else Committed(SavePolicy(s, id, p, now))
  }

  ghost function SetAccess(s: State, cfg: Config, hash: Id, id: Id, a: Access, now: Time): Outcome {
    if !SignedInAs(s, hash, true, now) then Denied(PrincipalError(s, hash, now))
    else if id !in s.users then Denied(NotFound)
    else if |a| > 100 || exists aud <- a :: !EntitlementAccepted(cfg, aud, a[aud]) then Denied(Invalid)
    else Committed(SaveAccess(s, id, a, now))
  }

  lemma SetPolicySound(s: State, tx: Tx, hash: Id, id: Id, p: Policy, now: Time)
    requires tx.timely ==> now <= tx.now
    requires Starts(s, tx)
    ensures SoundStep(s, SetPolicy(s, tx.cfg, hash, id, p, now), tx)
  {
    hide Inv, Sound, SavePolicy, SignedInAs, KnownIds, PolicyAccepted;
    Begin(s, tx);
    SavePolicySound(s, tx, id, p, now);
  }

  lemma SetAccessSound(s: State, tx: Tx, hash: Id, id: Id, a: Access, now: Time)
    requires tx.timely ==> now <= tx.now
    requires Starts(s, tx)
    ensures SoundStep(s, SetAccess(s, tx.cfg, hash, id, a, now), tx)
  {
    hide Inv, Sound, SaveAccess, SignedInAs, KnownIds, EntitlementAccepted;
    Begin(s, tx);
    if id in s.users {
      SaveAccessSound(s, tx, id, a, now);
    }
  }
}
