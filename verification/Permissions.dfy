/** What an accepted policy and accepted entitlements are worth: once they are stored, a request is decided by
    what they say, and by nothing else that could be wrong with them. */
module Permissions {
  import opened Records
  import opened Cascades
  import opened Purges
  import opened TokenEndpoint
  import opened Issuance
  import opened Clients
  import Introspection

  lemma PolicyStored(s: State, cfg: Config, hash: Id, id: Id, p: Policy, now: Time)
    requires SetPolicy(s, cfg, hash, id, p, now).Committed?
    ensures var r := SetPolicy(s, cfg, hash, id, p, now).state;
            && id in r.clients && r.clients == s.clients && PolicyOf(r, id) == p
            && PolicyAccepted(cfg, r.clients[id].metadata, p)
  {
    hide PolicyAccepted, SavePolicy, ClientOut;
    SavedPolicy(s, id, p, now);
  }

  /** The policy lists these scopes for a resource that is enabled. */
  predicate Offers(cfg: Config, p: Policy, aud: Audience, scopes: seq<Scope>) {
    var r := ResourceByAudience(cfg.resources, aud);
    && scopes != [] && ValidScopeList(scopes) && aud in p.resources && ScopeSubset(scopes, p.resources[aud].allowed)
    && r.Some? && r.value.enabled
  }

  /** For an accepted policy, what it offers is permitted, but for the account's entitlements. */
  lemma OfferedIsPermitted(
    s: State, cfg: Config, m: Metadata, p: Policy, aud: Audience, scopes: seq<Scope>, owner: Option<Owner>)
    requires PolicyAccepted(cfg, m, p)
    ensures Permitted(s, cfg, p, aud, scopes, owner) <==>
              && Offers(cfg, p, aud, scopes)
              && (owner.Some? ==>
                    aud in AccessOf(s, owner.value.id) && ScopeSubset(scopes, AccessOf(s, owner.value.id)[aud]))
  {
    if aud in p.resources {
      assert ResourceAccepted(cfg, aud, p.resources[aud]);
      var r := ResourceByAudience(cfg.resources, aud);
      assert ScopeSubset(scopes, p.resources[aud].allowed) ==> ScopeSubset(scopes, r.value.scopes);
      assert ValidResourceScopes(p.resources[aud].allowed);
    }
    assert scopes != [] ==> scopes[0] in scopes;
    hide PolicyAccepted;
  }

  /** The defaults of an accepted policy are offered, where there are any. */
  lemma DefaultsOffered(cfg: Config, m: Metadata, p: Policy)
    requires PolicyAccepted(cfg, m, p)
    ensures p.defaultResource.Some? ==> p.defaultResource.value in p.resources
    ensures forall aud <- p.resources ::
              ResourceByAudience(cfg.resources, aud).Some?
              && (Offers(cfg, p, aud, p.resources[aud].default) <==>
                    p.resources[aud].default != [] && ResourceByAudience(cfg.resources, aud).value.enabled)
  {
    forall aud | aud in p.resources
      ensures ResourceByAudience(cfg.resources, aud).Some?
      ensures Offers(cfg, p, aud, p.resources[aud].default) <==>
                p.resources[aud].default != [] && ResourceByAudience(cfg.resources, aud).value.enabled
    {
      assert ResourceAccepted(cfg, aud, p.resources[aud]);
    }
  }

  /** Once a policy is accepted, a client gets by its own credentials exactly what the policy offers: the scopes
      it names, or the defaults. */
  lemma PolicyDecides(
    s: State, cfg: Config, hash: Id, id: Id, p: Policy, now: Time, q: ResourceRequest, access: Id, at: Time)
    requires ValidConfig(cfg) && SetPolicy(s, cfg, hash, id, p, now).Committed?
    ensures var r := SetPolicy(s, cfg, hash, id, p, now).state;
            var aud := if q.resource.Some? then q.resource else p.defaultResource;
            id in r.clients && (IssueResource(r, cfg, id, r.clients[id], None, q, access, at).Committed? <==>
              && ClientCredentials in p.grants && aud.Some? && aud.value in p.resources
              && Offers(cfg, p, aud.value, if q.scope.Some? then q.scope.value else p.resources[aud.value].default))
  {
    PolicyStored(s, cfg, hash, id, p, now);
    var r := SetPolicy(s, cfg, hash, id, p, now).state;
    hide SetPolicy, IssueResource, Permitted, Offers;
    ResourceYields(r, cfg, id, r.clients[id], None, q, access, at);
    forall aud, scopes
      ensures Permitted(r, cfg, p, aud, scopes, None) <==> Offers(cfg, p, aud, scopes)
    {
      OfferedIsPermitted(r, cfg, r.clients[id].metadata, p, aud, scopes, None);
    }
    DefaultsOffered(cfg, r.clients[id].metadata, p);
  }

  /** With a password it gets exactly what the policy offers and the account is entitled to, if the policy
      enables passwords. */
  lemma EntitlementDecides(
    s: State, cfg: Config, hash: Id, id: Id, p: Policy, now: Time, owner: Owner, aud: Audience, scopes: seq<Scope>,
    access: Id, at: Time)
    requires ValidConfig(cfg) && SetPolicy(s, cfg, hash, id, p, now).Committed?
    ensures var r := SetPolicy(s, cfg, hash, id, p, now).state;
            var q := ResourceRequest(Some(aud), Some(scopes));
            id in r.clients && (IssueResource(r, cfg, id, r.clients[id], Some(owner), q, access, at).Committed? <==>
              && cfg.passwordGrantEnabled && p.passwordEnabled && OwnerCurrent(r, owner) && Offers(cfg, p, aud, scopes)
              && aud in AccessOf(r, owner.id) && ScopeSubset(scopes, AccessOf(r, owner.id)[aud]))
  {
    PolicyStored(s, cfg, hash, id, p, now);
    var r := SetPolicy(s, cfg, hash, id, p, now).state;
    hide SetPolicy, IssueResource, Permitted, Offers;
    var q := ResourceRequest(Some(aud), Some(scopes));
    ResourceYields(r, cfg, id, r.clients[id], Some(owner), q, access, at);
    OfferedIsPermitted(r, cfg, r.clients[id].metadata, p, aud, scopes, Some(owner));
    assert Asked(p, q, aud, scopes) <==> aud in p.resources;
  }

  /** While client and policy stay as they are, offline access takes no more than the policy's word, the
      configuration's, and a consent that covers it. */
  lemma OfflineDecides(s: State, cfg: Config, hash: Id, id: Id, p: Policy, now: Time, later: State, c: Code)
    requires SetPolicy(s, cfg, hash, id, p, now).Committed? && c.clientId == id
    requires var r := SetPolicy(s, cfg, hash, id, p, now).state;
             later.clients == r.clients && later.policies == r.policies
    ensures OfflineAllowed(later, cfg, c) <==>
              && cfg.refreshTokensEnabled && p.refreshEnabled
              && var k := ConsentKey(c.userId, id);
              && k in later.consents && !later.consents[k].revoked
              && later.consents[k].policyRevision == c.clientUpdatedAt
              && ScopeSubset(c.scopes, later.consents[k].scopes)
  {
    PolicyStored(s, cfg, hash, id, p, now);
    hide SetPolicy;
  }

  /** The client may introspect exactly if the policy says so. */
  lemma InspectionDecides(s: State, cfg: Config, hash: Id, id: Id, p: Policy, now: Time)
    requires SetPolicy(s, cfg, hash, id, p, now).Committed?
    ensures var r := SetPolicy(s, cfg, hash, id, p, now).state;
            id in r.clients && (Introspection.MayAsk(r, id, r.clients[id]) <==> p.introspection)
  {
    PolicyStored(s, cfg, hash, id, p, now);
    hide SetPolicy;
  }
}
