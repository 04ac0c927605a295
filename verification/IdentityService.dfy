/** The identity service's methods (internal/identity/service.go, clients.go, oauth.go, registration.go,
    sessions.go). Each is one store transaction; it commits what the step functions say or changes nothing. */
module IdentityService {
  import opened Records
  import opened Cascades
  import opened Evolution
  import opened Purges
  import opened Steps
  import Store
  import Accounts
  import Clients
  import Logouts
  import Terminations
  import Monitor

  /** The outcome of a step is what the store holds and what the caller is told. */
  ghost predicate Done(before: State, o: Outcome, after: State, error: Option<Error>) {
    after == Next(before, o) && error == if o.Denied? then Some(o.error) else None
  }

  class Service {
    const store: Store.FileState
    const cfg: Config

    constructor (store: Store.FileState, cfg: Config)
      ensures this.store == store && this.cfg == cfg
    {
      this.store := store;
      this.cfg := cfg;
    }

    /** Saves an account unless its email is taken. */
    method SaveUser(id: Id, user: User, now: Time) returns (error: Option<Error>)
      modifies store
      ensures Done(old(store.Abs()), Accounts.Saved(Cascades.SaveUser(old(store.Abs()), id, user, now)), store.Abs(),
                   error)
      ensures error.None? ==> store.Abs().users == old(store.Abs()).users[id := user]
      ensures error.None? && id in old(store.Abs()).users && SecurityRelevant(old(store.Abs()).users[id], user) ==>
                AccountOut(store.Abs(), id)
    {
      hide Cascades.SaveUser, SecurityRelevant, AccountOut, Store.FileState.Abs;
      SavedUser(store.Abs(), id, user, now);
      var ok := store.SaveUser(id, user, now);
      error := if ok then None else Some(Conflict);
    }

    /** A store gets its first account, an active administrator, or has accounts already. */
    method Bootstrap(id: Id, email: Id, password: Id, now: Time) returns (error: Option<Error>)
      modifies store
      ensures error.None? ==>
                old(store.Abs()).users == map[] && store.Abs().users == map[id := User(email, Admin, true, password)]
      ensures Done(old(store.Abs()), Accounts.Bootstrap(old(store.Abs()), id, email, password, now), store.Abs(), error)
    {
      hide Cascades.SaveUser, SecurityRelevant, AccountOut, Store.FileState.Abs;
      if store.Abs().users != map[] {
        return Some(Initialized);
      }
      error := SaveUser(id, User(email, Admin, true, password), now);
    }

    /** An administrator adds an active account under the drawn identifier; no other account changes. */
    method CreateUser(hash: Id, id: Id, email: Id, role: Role, password: Id, now: Time) returns (error: Option<Error>)
      modifies store
      ensures error.None? ==> store.Abs().users == old(store.Abs()).users[id := User(email, role, true, password)]
      ensures !SignedInAs(old(store.Abs()), hash, true, now) ==> error.Some?
      ensures Done(old(store.Abs()), Accounts.CreateUser(old(store.Abs()), hash, id, email, role, password, now),
                   store.Abs(), error)
    {
      hide Cascades.SaveUser, SecurityRelevant, AccountOut, Store.FileState.Abs, SignedInAs;
      var s := store.Abs();
      if !SignedInAs(s, hash, true, now) {
        return Some(PrincipalError(s, hash, now));
      }
      error := SaveUser(id, User(email, role, true, password), now);
    }

    /** The account keeps its password and gets what was asked for; if that changed anything, it is signed out
        everywhere and nothing issued for it is usable. */
    method UpdateUser(hash: Id, id: Id, email: Id, role: Role, active: bool, now: Time) returns (error: Option<Error>)
      modifies store
      ensures error.None? ==> id in old(store.Abs()).users
      ensures error.None? ==>
                var user := old(store.Abs()).users[id];
                var next := user.(email := email, role := role, active := active);
                store.Abs().users == old(store.Abs()).users[id := next]
                && (next != user ==> AccountOut(store.Abs(), id))
      ensures Done(old(store.Abs()), Accounts.UpdateUser(old(store.Abs()), hash, id, email, role, active, now),
                   store.Abs(), error)
    {
      hide Cascades.SaveUser, PurgeUser, AccountOut, Store.FileState.Abs, SignedInAs, Accounts.LastAdmin;
      var s := store.Abs();
      if !SignedInAs(s, hash, true, now) {
        return Some(PrincipalError(s, hash, now));
      }
      if id !in s.users {
        return Some(NotFound);
      }
      var user := s.users[id];
      if (!active || role != Admin) && Accounts.LastAdmin(s.users, id, user) {
        return Some(LastAdminKept);
      }
      if user.role != role || user.active != active || user.email != email {
        store.DeleteUserSessions(id, now);
        PurgedUser(s, id, now);
      }
      error := SaveUser(id, user.(email := email, role := role, active := active), now);
      if error.Some? {
        store.Rollback(s);
      }
    }

    /** The account and its entitlements are gone, it is signed out everywhere, and nothing issued for it is
        usable. */
    method DeleteUser(hash: Id, id: Id, now: Time) returns (error: Option<Error>)
      modifies store
      ensures error.None? ==>
                store.Abs().users == old(store.Abs()).users - {id}
                && store.Abs().access == old(store.Abs()).access - {id}
      ensures error.None? ==> AccountOut(store.Abs(), id)
      ensures Done(old(store.Abs()), Accounts.DeleteUser(old(store.Abs()), hash, id, now), store.Abs(), error)
    {
      hide Cascades.DeleteUser, AccountOut, Store.FileState.Abs, SignedInAs, Accounts.LastAdmin;
      var s := store.Abs();
      if !SignedInAs(s, hash, true, now) {
        return Some(PrincipalError(s, hash, now));
      }
      if id !in s.users {
        return Some(NotFound);
      }
      if Accounts.LastAdmin(s.users, id, s.users[id]) {
        return Some(LastAdminKept);
      }
      store.DeleteUser(id, now);
      DeletedUser(s, id, now);
      error := None;
    }

    /** Only the signed-in account changes, and only its email; a new email signs it out everywhere. */
    method UpdateProfile(hash: Id, email: Option<Id>, now: Time) returns (error: Option<Error>)
      modifies store
      ensures error.None? ==> SignedInAs(old(store.Abs()), hash, false, now)
      ensures error.None? ==>
                var id := old(store.Abs()).sessions[hash].userId;
                var user := old(store.Abs()).users[id];
                var next := user.(email := if email.Some? then email.value else user.email);
                && store.Abs().users == old(store.Abs()).users[id := next]
                && (email.Some? && email.value != user.email ==> AccountOut(store.Abs(), id))
      ensures Done(old(store.Abs()), Accounts.UpdateProfile(old(store.Abs()), hash, email, now), store.Abs(), error)
    {
      hide Cascades.SaveUser, AccountOut, Store.FileState.Abs;
      var s := store.Abs();
      if !SignedInAs(s, hash, false, now) {
        return Some(Unauthorized);
      }
      var id := s.sessions[hash].userId;
      var user := s.users[id];
      error := SaveUser(id, user.(email := if email.Some? then email.value else user.email), now);
    }

    /** `original` is the password hash the current password was checked against before the transaction. The
        account gets the new password, is signed out everywhere, and nothing issued for it is usable. */
    method ChangePassword(hash: Id, original: Id, password: Id, now: Time) returns (error: Option<Error>)
      modifies store
      ensures error.None? ==> SignedInAs(old(store.Abs()), hash, false, now)
      ensures error.None? ==>
                var id := old(store.Abs()).sessions[hash].userId;
                var user := old(store.Abs()).users[id];
                && user.password == original && AccountOut(store.Abs(), id)
                && store.Abs().users == old(store.Abs()).users[id := user.(password := password)]
      ensures Done(old(store.Abs()), Accounts.ChangePassword(old(store.Abs()), hash, original, password, now),
                   store.Abs(), error)
    {
      hide Cascades.SaveUser, PurgeUser, SecurityRelevant, AccountOut, Store.FileState.Abs;
      var s := store.Abs();
      if !SignedInAs(s, hash, false, now) {
        return Some(Unauthorized);
      }
      var id := s.sessions[hash].userId;
      var user := s.users[id];
      if user.password != original {
        return Some(Unauthorized);
      }
      error := SaveUser(id, user.(password := password), now);
      if error.None? {
        PurgedUser(store.Abs(), id, now);
        store.DeleteUserSessions(id, now);
      }
    }

    /** `found` is the account the password was checked against, `t0` the clock before the transaction, and
        `hash`, `csrf` and `id` are drawn. */
    method Login(
      user: Id, found: User, t0: Time, hash: Id, csrf: Id, id: Id, previous: Id, now: Time)
      returns (error: Option<Error>)
      modifies store
      ensures Done(old(store.Abs()),
                   Accounts.Login(old(store.Abs()), cfg, user, found, t0, hash, csrf, id, previous, now), store.Abs(),
                   error)
    {
      hide PruneLogoutState, Cascades.EndSessions, Store.FileState.Abs;
      var s := store.Abs();
      if !(user in s.users && s.users[user].active && s.users[user].password == found.password
           && s.users[user].email == found.email) {
        return Some(Credentials);
      }
      store.PruneLogoutState(now);
      var m := store.Abs();
      if |m.sessions| >= Accounts.SESSION_CAPACITY {
        store.Rollback(s);
        return Some(CapacityReached);
      }
      var row := Accounts.SignInRow(cfg, user, id, csrf, NONE, t0, t0);
      if HasSession(m, previous) {
        var was := m.sessions[previous];
        if was.userId == user && was.expiresAt > t0 {
          row := Accounts.SignInRow(cfg, user, was.id, csrf, was.device, was.createdAt, t0);
          store.RemoveSessionCredential(previous);
        } else {
          store.EndSession(was.id, AccountSwitch, t0);
        }
      }
      store.SaveSession(hash, row);
      error := None;
    }

    /** The credential is signed out, and exactly its session ended. */
    method Logout(hash: Id, now: Time) returns (error: Option<Error>)
      modifies store
      ensures !HasSession(store.Abs(), hash)
      ensures if HasSession(old(store.Abs()), hash) then
                OnlyEnded(old(store.Abs()).sessions, store.Abs().sessions, {old(store.Abs()).sessions[hash].id},
                          SignOut, now)
              else store.Abs() == old(store.Abs())
      ensures Done(old(store.Abs()), Accounts.Logout(old(store.Abs()), hash, now), store.Abs(), error)
    {
      hide Cascades.EndSessions, OnlyEnded, Store.FileState.Abs;
      var s := store.Abs();
      if HasSession(s, hash) {
        EndSessionsOnly(s, {s.sessions[hash].id}, SignOut, now);
        store.EndSession(s.sessions[hash].id, SignOut, now);
        OldRowEnded(s, hash, SignOut, now);
      }
      error := None;
    }

    /** The session list shows the credential's device and when it was last seen; nothing else changes, so
        neither does who is signed in, and until when. */
    method ObserveSession(hash: Id, device: Id, now: Time) returns (error: Option<Error>)
      modifies store
      ensures forall h, at :: SignedIn(store.Abs(), h, at) == SignedIn(old(store.Abs()), h, at)
      ensures error.None? <==> HasSession(old(store.Abs()), hash)
      ensures error.None? ==>
                && hash in store.Abs().sessions && store.Abs().sessions[hash].device == device
                && store.Abs().sessions[hash].lastSeenAt == now
                && store.Abs().sessions - {hash} == old(store.Abs()).sessions - {hash}
      ensures Done(old(store.Abs()), Accounts.ObserveSession(old(store.Abs()), hash, device, now), store.Abs(), error)
    {
      hide Store.FileState.Abs;
      var s := store.Abs();
      if !HasSession(s, hash) {
        return Some(NotFound);
      }
      store.SaveSession(hash, s.sessions[hash].(lastSeenAt := now, device := device));
      error := None;
    }

    // ---------- Clients ----------

    /** The client has the new metadata, and a secret exactly if the metadata needs one: the one it had, or a
        new one. Nothing issued to it before is usable. */
    method SaveClient(
      hash: Id, id: Id, m: Metadata, freshId: Id, freshSecret: Id, now: Time)
      returns (error: Option<Error>)
      modifies store
      ensures error.None? ==>
                var target := if id == NONE then freshId else id;
                var had := if id != NONE && id in old(store.Abs()).clients then old(store.Abs()).clients[id].secret
                           else NONE;
                && target in store.Abs().clients && store.Abs().clients[target].metadata == m
                && store.Abs().clients[target].secret == (if !m.needsSecret then NONE
                                                          else if had != NONE then had else freshSecret)
                && (target in old(store.Abs()).clients ==> ClientOut(store.Abs(), target))
      ensures Done(old(store.Abs()), Clients.SaveClient(old(store.Abs()), hash, id, m, freshId, freshSecret, now),
                   store.Abs(), error)
    {
      hide Cascades.SaveClient, ClientOut, Store.FileState.Abs, SignedInAs;
      var s := store.Abs();
      if !SignedInAs(s, hash, true, now) {
        return Some(PrincipalError(s, hash, now));
      }
      var target, secret := freshId, NONE;
      if id != NONE {
        if id !in s.clients {
          return Some(NotFound);
        }
        target, secret := id, s.clients[id].secret;
      }
      if m.needsSecret {
        if secret == NONE {
          secret := freshSecret;
        }
      } else {
        secret := NONE;
      }
      store.SaveClient(target, Client(m, secret, now), now);
      SavedClient(s, target, Client(m, secret, now), now);
      error := None;
    }

    /** The client has the new secret and its old metadata, and nothing issued under the old secret is
        usable. */
    method RotateSecret(hash: Id, id: Id, freshSecret: Id, now: Time) returns (error: Option<Error>)
      modifies store
      ensures error.None? ==> id in old(store.Abs()).clients && id in store.Abs().clients
      ensures error.None? ==>
                && store.Abs().clients[id].secret == freshSecret && ClientOut(store.Abs(), id)
                && store.Abs().clients[id].metadata == old(store.Abs()).clients[id].metadata
      ensures Done(old(store.Abs()), Clients.RotateSecret(old(store.Abs()), hash, id, freshSecret, now), store.Abs(),
                   error)
    {
      hide Cascades.SaveClient, ClientOut, Store.FileState.Abs, SignedInAs;
      var s := store.Abs();
      if !SignedInAs(s, hash, true, now) {
        return Some(PrincipalError(s, hash, now));
      }
      if id !in s.clients {
        return Some(NotFound);
      }
      var c := s.clients[id];
      if !c.metadata.needsSecret {
        return Some(Invalid);
      }
      store.SaveClient(id, Client(c.metadata, freshSecret, now), now);
      SavedClient(s, id, Client(c.metadata, freshSecret, now), now);
      error := None;
    }

    /** The client, its policy and everything usable issued to it are gone. */
    method DeleteClient(hash: Id, id: Id, now: Time) returns (error: Option<Error>)
      modifies store
      ensures error.None? ==> id !in store.Abs().clients && id !in store.Abs().policies && ClientOut(store.Abs(), id)
      ensures Done(old(store.Abs()), Clients.DeleteClient(old(store.Abs()), hash, id, now), store.Abs(), error)
    {
      hide Cascades.DeleteClient, ClientOut, Store.FileState.Abs, SignedInAs;
      var s := store.Abs();
      if !SignedInAs(s, hash, true, now) {
        return Some(PrincipalError(s, hash, now));
      }
      if id !in s.clients {
        return Some(NotFound);
      }
      store.DeleteClient(id, now);
      DeletedClient(s, id, now);
      error := None;
    }

    /** A new client is stored, with a secret exactly if its metadata needs one; nothing else changes. */
    method RegisterClient(id: Id, m: Metadata, freshSecret: Id, now: Time) returns (error: Option<Error>)
      modifies store
      ensures error.None? <==> id !in old(store.Abs()).clients
      ensures error.None? ==>
                var c := Client(m, if m.needsSecret then freshSecret else NONE, now);
                store.Abs() == old(store.Abs()).(clients := old(store.Abs()).clients[id := c])
      ensures Done(old(store.Abs()), Clients.RegisterClient(old(store.Abs()), id, m, freshSecret, now), store.Abs(),
                   error)
    {
      hide Store.FileState.Abs;
      if id in store.Abs().clients {
        return Some(Conflict);
      }
      store.SaveClient(id, Client(m, Clients.SecretFor(m, NONE, freshSecret), now), now);
      error := None;
    }

    /** The policy holds, and nothing issued to the client before is usable. */
    method SetOAuthPolicy(hash: Id, id: Id, p: Policy, now: Time) returns (error: Option<Error>)
      modifies store
      ensures error.None? ==> PolicyOf(store.Abs(), id) == p && ClientOut(store.Abs(), id)
      ensures Done(old(store.Abs()), Clients.SetPolicy(old(store.Abs()), cfg, hash, id, p, now), store.Abs(), error)
    {
      hide SavePolicy, PolicyOf, ClientOut, Store.FileState.Abs, SignedInAs, Clients.PolicyAccepted;
      var s := store.Abs();
      if !SignedInAs(s, hash, true, now) {
        return Some(PrincipalError(s, hash, now));
      }
      if id !in s.clients {
        return Some(NotFound);
      }
      if !Clients.PolicyAccepted(cfg, s.clients[id].metadata, p) {
        return Some(Invalid);
      }
      store.SaveOAuthPolicy(id, p, now);
      SavedPolicy(s, id, p, now);
      error := None;
    }

    /** The entitlements hold, and no access token or refresh family of the account is usable. */
    method SetOAuthAccess(hash: Id, id: Id, a: Access, now: Time) returns (error: Option<Error>)
      modifies store
      ensures error.None? ==> AccessOf(store.Abs(), id) == a && UserQuiet(store.Abs(), id)
      ensures Done(old(store.Abs()), Clients.SetAccess(old(store.Abs()), cfg, hash, id, a, now), store.Abs(), error)
    {
      hide SaveAccess, UserQuiet, Store.FileState.Abs, SignedInAs, Clients.EntitlementAccepted;
      var s := store.Abs();
      if !SignedInAs(s, hash, true, now) {
        return Some(PrincipalError(s, hash, now));
      }
      if id !in s.users {
        return Some(NotFound);
      }
      if |a| > 100 || exists aud <- a :: !Clients.EntitlementAccepted(cfg, aud, a[aud]) {
        return Some(Invalid);
      }
      store.SaveOAuthAccess(id, a, now);
      SavedAccess(s, id, a, now);
      error := None;
    }

    // ---------- Ending sessions ----------

    method RevokeOffline(offline: bool, families: set<Id>)
      modifies store
      ensures store.Abs() == Logouts.Offline(old(store.Abs()), offline, families)
    {
      hide RevokeGrants, Store.FileState.Abs;
      if offline {
        store.RevokeFamilies(families);
      }
    }

    method RevokeClientAccess(user: Id, client: Id, now: Time)
      requires ConsentKey(user, client) in store.Abs().consents
      modifies store
      ensures store.Abs() == Logouts.RevokeClientAccess(old(store.Abs()), user, client, now)
    {
      hide SaveConsent, EndApps, RevokeGrants, CodesMarked, TxnsMarked, Store.FileState.Abs;
      hide CodesOfGrant, TxnsOfGrant, TokensOfGrant, AppsOfGrant;
      var k := ConsentKey(user, client);
      store.SaveConsent(k, store.Abs().consents[k].(revoked := true), now);
      ghost var s1 := store.Abs();
      store.RevokeTxns(TxnsOfGrant(store.Abs().txns, user, client));
      store.RevokeCodes(CodesOfGrant(store.Abs().codes, user, client));
      assert store.Abs() == s1.(codes := CodesMarked(s1.codes, CodesOfGrant(s1.codes, user, client)),
                                txns := TxnsMarked(s1.txns, TxnsOfGrant(s1.txns, user, client)));
      store.EndSelectedApps(AppsOfGrant(store.Abs().apps, user, client), AccessRevoked, now);
      store.RevokeSelected({}, TokensOfGrant(store.Abs().tokens, user, client));
    }

    method RetryDelivery(notice: DeliveryId, now: Time) returns (error: Option<Error>)
      modifies store
      ensures Done(old(store.Abs()), Logouts.RetryDelivery(old(store.Abs()), notice, now), store.Abs(), error)
    {
      hide Store.FileState.Abs;
      var s := store.Abs();
      if !(notice in s.deliveries && notice.AppNotice? && notice.channel == Backchannel
           && s.deliveries[notice].status == Failed) {
        return Some(NotFound);
      }
      var d := s.deliveries[notice];
      if now - d.createdAt > RETRY_WINDOW {
        return Some(Invalid);
      }
      store.SaveLogoutDelivery(notice, d.(status := Pending, nextAttempt := Some(now)));
      error := None;
    }

    method EndTarget(
      user: Id, session: Id, admin: bool, target: Logouts.Target, offline: bool, now: Time)
      returns (error: Option<Error>)
      modifies store
      ensures Done(old(store.Abs()), Logouts.EndTarget(old(store.Abs()), user, session, admin, target, offline, now),
                   store.Abs(), error)
    {
      hide Cascades.EndSessions, EndApps, RevokeForUser, Logouts.Offline, Logouts.RevokeClientAccess,
           Logouts.RetryDelivery, Store.FileState.Abs;
      hide SessionIdsOfUser, Logouts.OtherIds, Logouts.FamiliesOfSession, Logouts.FamiliesOfApp;
      var s := store.Abs();
      var reason := if admin then AdminLogout else UserLogout;
      match target {
        case OneSession(id) =>
          if !(exists h <- s.sessions :: s.sessions[h].id == id && (admin || s.sessions[h].userId == user)) {
            return Some(NotFound);
          }
          store.EndSession(id, reason, now);
          EndKeepsFamilies(s, {id}, reason, now);
          RevokeOffline(offline, Logouts.FamiliesOfSession(store.Abs().families, id));
        case OwnSessions(other) =>
          store.EndSelectedSessions(Logouts.OtherIds(s.sessions, user, if other then Some(session) else None), reason,
                                    now);
          if offline {
            store.RevokeAccessTokensForUser(user);
          }
        case OneApp(id) =>
          if id !in s.apps || !(admin || s.apps[id].userId == user) {
            return Some(NotFound);
          }
          store.EndAppSession(id, reason, now);
          EndAppKeepsFamilies(s, {id}, reason, now);
          RevokeOffline(offline, Logouts.FamiliesOfApp(store.Abs().families, id));
        case UserSessions(id) =>
          if !admin {
            return Some(Forbidden);
          }
          if id !in s.users {
            return Some(NotFound);
          }
          store.EndSelectedSessions(SessionIdsOfUser(s.sessions, id), reason, now);
          if offline {
            store.RevokeAccessTokensForUser(id);
          }
        case ClientAccess(client) =>
          if ConsentKey(user, client) !in s.consents {
            return Some(NotFound);
          }
          RevokeClientAccess(user, client, now);
        case RetryNotice(notice) =>
          if !admin {
            return Some(Forbidden);
          }
          error := RetryDelivery(notice, now);
          return;
      }
      error := None;
    }

    /** `checked` is the password hash the presented password was verified against before the transaction. */
    method EndSessions(
      hash: Id, admin: bool, target: Logouts.Target, offline: bool, checked: Option<Id>, operation: Id, now: Time)
      returns (error: Option<Error>)
      modifies store
      ensures Done(old(store.Abs()),
                   Logouts.EndSessionsStep(old(store.Abs()), hash, admin, target, offline, checked, operation, now),
                   store.Abs(), error)
      ensures error.None? && target.OneSession? ==>
                && SessionOver(store.Abs().sessions, target.session)
                && OnlyEnded(old(store.Abs()).sessions, store.Abs().sessions, {target.session},
                             Terminations.ReasonOf(admin), now)
      ensures error.None? && target.OneApp? ==>
                && store.Abs().sessions == old(store.Abs()).sessions
                && Terminations.OneEnded(old(store.Abs()).apps, store.Abs().apps, target.app,
                                         Terminations.ReasonOf(admin), now)
    {
      hide Logouts.EndTarget, OnlyEnded, SessionOver, Terminations.OneEnded, Terminations.OnlyRevoked,
           Terminations.Asks;
      hide Store.FileState.Abs;
      if target.OneSession? {
        Terminations.OneSessionEnded(store.Abs(), hash, admin, target.session, offline, checked, operation, now);
      } else if target.OneApp? {
        Terminations.OneAppEnded(store.Abs(), hash, admin, target.app, offline, checked, operation, now);
      }
      if Logouts.NeedsPassword(target, offline) && checked.None? {
        return Some(Credentials);
      }
      var s := store.Abs();
      if !SignedInAs(s, hash, admin, now) {
        return Some(PrincipalError(s, hash, now));
      }
      var row := s.sessions[hash];
      if Logouts.NeedsPassword(target, offline) && s.users[row.userId].password != checked.value {
        return Some(Unauthorized);
      }
      error := EndTarget(row.userId, row.id, admin, target, offline, now);
      if error.None? {
        store.SaveLogoutOperation(operation, now);
      }
    }

    // ---------- Revoking by hand ----------

    /** The step the activity view repeats for each code: flag it if active, with the live tokens from it. */
    method RevokeCode(h: Id, now: Time)
      modifies store
      ensures store.Abs() == Monitor.RevokeCodes(old(store.Abs()), {h}, now)
    {
      hide Monitor.RevokeCodes, TokensRevoked, Monitor.TokensOfCodes, Monitor.LiveTokens, Store.FileState.Abs;
      var s := store.Abs();
      Monitor.RevokeOneCode(s, h, now);
      if h in s.codes && Monitor.CodeStatus(s.codes[h], now) == Monitor.IsActive {
        store.SaveAuthorizationCode(h, s.codes[h].(revoked := true));
        store.RevokeTokens(Monitor.TokensOfCodes(s.tokens, {h}) * Monitor.LiveTokens(s.tokens, now));
      }
    }

    /** The loop over the selected codes. */
    method RevokeCodes(selected: set<Id>, now: Time)
      modifies store
      ensures store.Abs() == Monitor.RevokeCodes(old(store.Abs()), selected, now)
    {
      hide *;
      var todo := selected;
      ghost var was := store.Abs();
      ghost var done := {};
      Monitor.RevokeNoCodes(was, now);
      while todo != {}
        invariant todo <= selected
        invariant done == selected - todo
        invariant store.Abs() == Monitor.RevokeCodes(was, done, now)
      {
        SomeElement(todo);
        var h :| h in todo;
        todo := todo - {h};
        RevokeCode(h, now);
        Monitor.RevokeCodesUnion(was, done, {h}, now);
        done := done + {h};
      }
      assert done == selected;
    }

    method RevokeGrant(k: ConsentKey, now: Time)
      requires k in store.Abs().consents
      modifies store
      ensures store.Abs() == Monitor.RevokeGrant(old(store.Abs()), k, now)
    {
      hide SaveConsent, RevokeGrants, Monitor.RevokeCodes, TxnsMarked, Monitor.ActiveTxns, CodesOfGrant, TokensOfGrant,
           Monitor.LiveTokens, Store.FileState.Abs;
      store.SaveConsent(k, store.Abs().consents[k].(revoked := true), now);
      store.RevokeTxns(Monitor.ActiveTxns(store.Abs().txns, k.userId, k.clientId, now));
      RevokeCodes(CodesOfGrant(store.Abs().codes, k.userId, k.clientId), now);
      var tokens := store.Abs().tokens;
      store.RevokeSelected({}, TokensOfGrant(tokens, k.userId, k.clientId) * Monitor.LiveTokens(tokens, now));
    }

    method RevokeRecord(key: Monitor.Key, now: Time)
      modifies store
      ensures store.Abs() == Monitor.RevokeRecord(old(store.Abs()), key, now)
    {
      hide Monitor.RevokeGrant, RevokeGrants, Monitor.RevokeCodes, TxnsMarked, Monitor.CodesOfTxn, Store.FileState.Abs;
      var s := store.Abs();
      match key
      case RequestKey(id) =>
        store.RevokeTxns({id});
        RevokeCodes(Monitor.CodesOfTxn(s.codes, id), now);
      case CodeKey(h) => RevokeCode(h, now);
      case TokenKey(h) => store.RevokeAccessToken(h);
      case RefreshKey(h) => if h in s.refreshes { store.RevokeRefreshFamily(s.refreshes[h].familyId); }
      case GrantKey(k) => if k in s.consents { RevokeGrant(k, now); }
    }

    method RevokeActivity(hash: Id, key: Monitor.Key, now: Time) returns (error: Option<Error>)
      modifies store
      ensures Done(old(store.Abs()), Monitor.RevokeActivity(old(store.Abs()), cfg, hash, key, now), store.Abs(), error)
    {
      hide Monitor.RevokeRecord, Monitor.Listed, SignedInAs, Store.FileState.Abs;
      var s := store.Abs();
      if !SignedInAs(s, hash, true, now) {
        return Some(PrincipalError(s, hash, now));
      }
      var status := Monitor.Listed(s, cfg, key, now);
      if status == Monitor.NotListed {
        return Some(NotFound);
      }
      if status == Monitor.IsRevoked {
        return None;
      }
      if status != Monitor.IsActive {
        return Some(NotActive);
      }
      RevokeRecord(key, now);
      error := None;
    }

    method SweepSessions(now: Time) returns (error: Option<Error>)
      modifies store
      ensures Done(old(store.Abs()), Logouts.Sweep(old(store.Abs()), now), store.Abs(), error)
    {
      hide PruneLogoutState, Store.FileState.Abs;
      store.PruneLogoutState(now);
      error := None;
    }
  }

  lemma EndKeepsFamilies(s: State, ids: set<Id>, reason: Reason, now: Time)
    ensures Cascades.EndSessions(s, ids, reason, now).families == s.families
  {
  }

  lemma EndAppKeepsFamilies(s: State, ids: set<Id>, reason: Reason, now: Time)
    ensures EndApps(s, ids, reason, now).families == s.families
  {
  }
}
