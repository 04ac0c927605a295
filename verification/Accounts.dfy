/** Accounts and browser sign-in (internal/identity/service.go), as functions from the store a transaction
    finds to what it commits. */
module Accounts {
  import opened Records
  import opened Cascades
  import opened Invariants
  import opened Evolution
  import opened Purges
  import opened Steps

  // ---------- Creating accounts ----------

  ghost function Saved(o: Option<State>): Outcome {
    if o.None? then Denied(Conflict) else Committed(o.value)
  }

  ghost function Bootstrap(s: State, id: Id, email: Id, password: Id, now: Time): Outcome {
    if s.users != map[] then Denied(Initialized) else Saved(SaveUser(s, id, User(email, Admin, true, password), now))
  }

  ghost function CreateUser(s: State, hash: Id, id: Id, email: Id, role: Role, password: Id, now: Time): Outcome {
    if !SignedInAs(s, hash, true, now) then Denied(PrincipalError(s, hash, now))
    else Saved(SaveUser(s, id, User(email, role, true, password), now))
  }

  lemma NewUserSound(s: State, tx: Tx, id: Id, user: User, now: Time)
    requires tx.timely ==> now <= tx.now
    requires Starts(s, tx) && Drawn(tx, id) && user.active
    requires s.users == map[] ==> user.role == Admin
    ensures SoundStep(s, Saved(SaveUser(s, id, user, now)), tx)
  {
    Begin(s, tx);
    if SaveUser(s, id, user, now).Some? {
      hide Inv, Sound, SaveUser;
      assert id !in s.users;
      assert AdminKept(s.users, s.users[id := user]) by { AdminAdded(s.users, id, user); }
      SaveUserSound(s, tx, id, user, now);
    }
  }

  lemma BootstrapSound(s: State, tx: Tx, id: Id, email: Id, password: Id, now: Time)
    requires tx.timely ==> now <= tx.now
    requires Starts(s, tx) && Drawn(tx, id)
    ensures SoundStep(s, Bootstrap(s, id, email, password, now), tx)
  {
    hide Starts, Sound, SaveUser;
    NewUserSound(s, tx, id, User(email, Admin, true, password), now);
  }

  lemma CreateUserSound(s: State, tx: Tx, hash: Id, id: Id, email: Id, role: Role, password: Id, now: Time)
    requires tx.timely ==> now <= tx.now
    requires Starts(s, tx) && Drawn(tx, id)
    ensures SoundStep(s, CreateUser(s, hash, id, email, role, password, now), tx)
  {
    hide Starts, Sound, SaveUser;
    if SignedInAs(s, hash, true, now) {
      assert s.sessions[hash].userId in s.users;
      NewUserSound(s, tx, id, User(email, role, true, password), now);
    }
  }

  lemma AdminAdded(users: map<Id, User>, id: Id, user: User)
    requires id !in users && (users == map[] ==> IsAdmin(user))
    ensures AdminKept(users, users[id := user])
  {
    if HasAdmin(users) {
      var u :| u in users && users[u].role == Admin && users[u].active;
      assert u in users[id := user] && users[id := user][u] == users[u];
    }
    assert users[id := user][id] == user;
  }

  // ---------- The last administrator ----------

  predicate IsAdmin(u: User) { u.role == Admin && u.active }

  predicate LastAdmin(users: map<Id, User>, id: Id, user: User) {
    IsAdmin(user) && forall o <- users :: o != id ==> !IsAdmin(users[o])
  }

  /** Replacing or deleting an account that is not the last administrator leaves one. */
  lemma AdminStays(users: map<Id, User>, id: Id, after: map<Id, User>)
    requires id in users && ((id in after && IsAdmin(after[id])) || !LastAdmin(users, id, users[id]))
    requires forall u :: u != id ==> (u in after <==> u in users) && (u in users ==> after[u] == users[u])
    ensures HasAdmin(users) ==> HasAdmin(after)
  {
    if HasAdmin(users) {
      var u :| u in users && users[u].role == Admin && users[u].active;
      if id in after && IsAdmin(after[id]) {
        assert HasAdmin(after);
      } else if u != id {
        assert u in after && after[u] == users[u];
      } else {
        var o :| o in users && o != id && IsAdmin(users[o]);
        assert o in after && after[o] == users[o];
      }
    }
  }

  // ---------- Changing accounts ----------

  ghost function UpdateUser(s: State, hash: Id, id: Id, email: Id, role: Role, active: bool, now: Time): Outcome {
    if !SignedInAs(s, hash, true, now) then Denied(PrincipalError(s, hash, now))
    else if id !in s.users then Denied(NotFound)
    else
      var user := s.users[id];
      if (!active || role != Admin) && LastAdmin(s.users, id, user) then Denied(LastAdminKept)
      else
        var s1 := if user.role != role || user.active != active || user.email != email then PurgeUser(s, id, now)
                  else s;
        Saved(SaveUser(s1, id, user.(email := email, role := role, active := active), now))
  }

  ghost function DeleteUser(s: State, hash: Id, id: Id, now: Time): Outcome {
    if !SignedInAs(s, hash, true, now) then Denied(PrincipalError(s, hash, now))
    else if id !in s.users then Denied(NotFound)
    else if LastAdmin(s.users, id, s.users[id]) then Denied(LastAdminKept)
    else Committed(Cascades.DeleteUser(s, id, now))
  }

  ghost function UpdateProfile(s: State, hash: Id, email: Option<Id>, now: Time): Outcome {
    if !SignedInAs(s, hash, false, now) then Denied(Unauthorized)
    else
      var id := s.sessions[hash].userId;
      var user := s.users[id];
      Saved(SaveUser(s, id, user.(email := if email.Some? then email.value else user.email), now))
  }

  /** `original` is the password hash the current password was checked against before the transaction. */
  ghost function ChangePassword(s: State, hash: Id, original: Id, password: Id, now: Time): Outcome {
    if !SignedInAs(s, hash, false, now) then Denied(Unauthorized)
    else
      var id := s.sessions[hash].userId;
      if s.users[id].password != original then Denied(Unauthorized)
      else
        var o := Saved(SaveUser(s, id, s.users[id].(password := password), now));
        if o.Denied? then o else Committed(PurgeUser(o.state, id, now))
  }

  lemma OldUserSound(s: State, tx: Tx, id: Id, user: User, now: Time)
    requires tx.timely ==> now <= tx.now
    requires Inv(s, tx.cfg, tx.known) && id in s.users
    requires HasAdmin(s.users) ==> HasAdmin(s.users[id := user])
    ensures SoundStep(s, Saved(SaveUser(s, id, user, now)), tx)
  {
    if SaveUser(s, id, user, now).Some? {
      assert id in tx.known && id != NONE;
      hide Inv, Sound, SaveUser, HasAdmin;
      assert id in s.users[id := user];
      SaveUserSound(s, tx, id, user, now);
    }
  }

  lemma UpdateUserSound(s: State, tx: Tx, hash: Id, id: Id, email: Id, role: Role, active: bool, now: Time)
    requires tx.timely ==> now <= tx.now
    requires Starts(s, tx)
    ensures SoundStep(s, UpdateUser(s, hash, id, email, role, active, now), tx)
  {
    hide Inv, Evolves, SaveUser, PurgeUser, HasAdmin, UserQuiet, NoUserGrants, NoUserSessions, KnownIds, LastAdmin,
         SignedInAs;
    Begin(s, tx);
    if UpdateUser(s, hash, id, email, role, active, now).Committed? {
      var user := s.users[id];
      var m := if user.role != role || user.active != active || user.email != email then PurgeUser(s, id, now) else s;
      var next := user.(email := email, role := role, active := active);
      var o := Saved(SaveUser(m, id, next, now));
      AdminStays(s.users, id, s.users[id := next]);
      PurgeUserSound(s, tx, id, now);
      SoundStill(s, tx);
      OldUserSound(m, tx, id, next, now);
      SoundThen(s, m, o.state, tx);
    }
  }

  lemma DeleteUserStepSound(s: State, tx: Tx, hash: Id, id: Id, now: Time)
    requires tx.timely ==> now <= tx.now
    requires Starts(s, tx)
    ensures SoundStep(s, DeleteUser(s, hash, id, now), tx)
  {
    hide Inv, Sound, Cascades.DeleteUser, HasAdmin, KnownIds, LastAdmin, SignedInAs;
    Begin(s, tx);
    if DeleteUser(s, hash, id, now).Committed? {
      AdminStays(s.users, id, s.users - {id});
      assert AdminKept(s.users, s.users - {id});
      DeleteUserSound(s, tx, id, now);
    }
  }

  lemma SameRoleAdmin(users: map<Id, User>, id: Id, user: User)
    requires id in users && user.role == users[id].role && user.active == users[id].active
    ensures HasAdmin(users) ==> HasAdmin(users[id := user])
  {
    if HasAdmin(users) {
      var u :| u in users && users[u].role == Admin && users[u].active;
      assert users[id := user][u].role == Admin && users[id := user][u].active;
    }
  }

  lemma UpdateProfileSound(s: State, tx: Tx, hash: Id, email: Option<Id>, now: Time)
    requires tx.timely ==> now <= tx.now
    requires Starts(s, tx)
    ensures SoundStep(s, UpdateProfile(s, hash, email, now), tx)
  {
    Begin(s, tx);
    if SignedInAs(s, hash, false, now) {
      var id := s.sessions[hash].userId;
      var user := s.users[id].(email := if email.Some? then email.value else s.users[id].email);
      SameRoleAdmin(s.users, id, user);
      hide Inv, Sound, SaveUser, HasAdmin;
      OldUserSound(s, tx, id, user, now);
    }
  }

  lemma ChangePasswordSound(s: State, tx: Tx, hash: Id, original: Id, password: Id, now: Time)
    requires tx.timely ==> now <= tx.now
    requires Starts(s, tx)
    ensures SoundStep(s, ChangePassword(s, hash, original, password, now), tx)
  {
    Begin(s, tx);
    if ChangePassword(s, hash, original, password, now).Committed? {
      var id := s.sessions[hash].userId;
      var user := s.users[id].(password := password);
      var m := Saved(SaveUser(s, id, user, now)).state;
      SameRoleAdmin(s.users, id, user);
      hide Inv, Evolves, SaveUser, PurgeUser, HasAdmin, UserQuiet, NoUserGrants, NoUserSessions;
      OldUserSound(s, tx, id, user, now);
      PurgeUserSound(m, tx, id, now);
      SoundThen(s, m, PurgeUser(m, id, now), tx);
    }
  }

  // ---------- Browser sign-in ----------

  const SESSION_CAPACITY := 10000

  /** The row a sign-in creates; a reused session keeps its id, age and device. */
  function SignInRow(cfg: Config, user: Id, id: Id, csrf: Id, device: Id, createdAt: Time, t0: Time): Session {
    Session(id, user, csrf, device, createdAt, t0, t0 + cfg.sessionTtl, Some(t0), None, NotEnded)
  }

  /** `found` is the account the password was checked against and `t0` the clock before the transaction;
      `old` is the credential the browser already held. */
  ghost function Login(
    s: State, cfg: Config, user: Id, found: User, t0: Time, hash: Id, csrf: Id, id: Id, previous: Id,
    now: Time): Outcome
  {
    if !(user in s.users && s.users[user].active && s.users[user].password == found.password
         && s.users[user].email == found.email) then
      Denied(Credentials)
    else
      var m := PruneLogoutState(s, now);
      if |m.sessions| >= SESSION_CAPACITY then Denied(CapacityReached)
      else if HasSession(m, previous) && m.sessions[previous].userId == user && m.sessions[previous].expiresAt > t0 then
        var was := m.sessions[previous];
        Committed(m.(sessions := (m.sessions - {previous})[
                       hash := SignInRow(cfg, user, was.id, csrf, was.device, was.createdAt, t0)]))
      else
        var e := if HasSession(m, previous) then EndSessions(m, {m.sessions[previous].id}, AccountSwitch, t0) else m;
        Committed(e.(sessions := e.sessions[hash := SignInRow(cfg, user, id, csrf, NONE, t0, t0)]))
  }

  lemma LoginSound(s: State, tx: Tx, user: Id, found: User, t0: Time, hash: Id, csrf: Id, id: Id, previous: Id)
    requires tx.timely ==> t0 <= tx.now
    requires Starts(s, tx) && Drawn(tx, hash) && Drawn(tx, id)
    ensures SoundStep(s, Login(s, tx.cfg, user, found, t0, hash, csrf, id, previous, tx.now), tx)
  {
    hide Starts, Sound, KnownIds, PruneLogoutState, EndSessions, SignInRow;
    var o := Login(s, tx.cfg, user, found, t0, hash, csrf, id, previous, tx.now);
    if o.Committed? {
      var m := PruneLogoutState(s, tx.now);
      SweepFirst(s, tx, tx.now);
      SweptLive(s, tx.now);
      if HasSession(m, previous) && m.sessions[previous].userId == user && m.sessions[previous].expiresAt > t0 {
        ReuseSound(s, m, o.state, tx, user, hash, csrf, previous, t0);
      } else {
        SwitchSound(s, m, tx, previous, t0);
        var e := if HasSession(m, previous) then EndSessions(m, {m.sessions[previous].id}, AccountSwitch, t0) else m;
        SignInSound(s, e, o.state, tx, user, hash, csrf, id, t0);
      }
    }
  }

  /** Signing in again keeps the session under a new credential. */
  lemma ReuseSound(s: State, m: State, r: State, tx: Tx, user: Id, hash: Id, csrf: Id, previous: Id, t0: Time)
    requires Sound(s, m, tx) && KnownIds(m, tx.used) && Drawn(tx, hash)
    requires HasSession(m, previous) && m.sessions[previous].userId == user && tx.now < m.sessions[previous].expiresAt
    requires var was := m.sessions[previous];
             var row := SignInRow(tx.cfg, user, was.id, csrf, was.device, was.createdAt, t0);
             r == m.(sessions := (m.sessions - {previous})[hash := row])
    ensures Sound(s, r, tx)
  {
    hide Inv, Evolves, KnownIds;
    var was := m.sessions[previous];
    ReusedRowSound(m, r, tx, previous, hash, SignInRow(tx.cfg, user, was.id, csrf, was.device, was.createdAt, t0));
    SoundThen(s, m, r, tx);
  }

  lemma SignInSound(s: State, m: State, r: State, tx: Tx, user: Id, hash: Id, csrf: Id, id: Id, t0: Time)
    requires Sound(s, m, tx) && KnownIds(m, tx.used) && Drawn(tx, hash) && Drawn(tx, id)
    requires r == m.(sessions := m.sessions[hash := SignInRow(tx.cfg, user, id, csrf, NONE, t0, t0)])
    ensures Sound(s, r, tx)
  {
    hide Inv, Evolves, KnownIds;
    NewRowSound(m, r, tx, hash, SignInRow(tx.cfg, user, id, csrf, NONE, t0, t0));
    SoundThen(s, m, r, tx);
  }

  /** A browser that changes accounts leaves its old session. */
  lemma SwitchSound(s: State, m: State, tx: Tx, previous: Id, t0: Time)
    requires (tx.timely ==> t0 <= tx.now) && Sound(s, m, tx) && KnownIds(m, tx.used)
    ensures var e := if HasSession(m, previous) then EndSessions(m, {m.sessions[previous].id}, AccountSwitch, t0)
                     else m;
            Sound(s, e, tx) && KnownIds(e, tx.used)
  {
    hide Inv, Evolves, KnownIds, EndSessions;
    if HasSession(m, previous) {
      EndKnown(m, tx, {m.sessions[previous].id}, AccountSwitch, t0);
      SoundThen(s, m, EndSessions(m, {m.sessions[previous].id}, AccountSwitch, t0), tx);
    }
  }

  lemma EndKnown(s: State, tx: Tx, ids: set<Id>, reason: Reason, now: Time)
    requires tx.timely ==> now <= tx.now
    requires Inv(s, tx.cfg, tx.known) && KnownIds(s, tx.used)
    ensures Sound(s, EndSessions(s, ids, reason, now), tx) && KnownIds(EndSessions(s, ids, reason, now), tx.used)
  {
    EndSessionsIds(s, tx.used, ids, reason, now);
    hide Inv, Sound, EndSessions, KnownIds;
    EndSessionsSound(s, tx, ids, reason, now);
  }

  lemma EndSessionsIds(s: State, used: set<Id>, ids: set<Id>, reason: Reason, now: Time)
    requires KnownIds(s, used)
    ensures KnownIds(EndSessions(s, ids, reason, now), used)
  {
    hide LiveRows, IdsOf, RowsWithIds, LiveApps, AppsOfSessions, Notices, OpNotices;
  }

  ghost function Logout(s: State, hash: Id, now: Time): Outcome {
    Committed(if HasSession(s, hash) then EndSessions(s, {s.sessions[hash].id}, SignOut, now) else s)
  }

  lemma LogoutSound(s: State, tx: Tx, hash: Id, now: Time)
    requires tx.timely ==> now <= tx.now
    requires Starts(s, tx)
    ensures SoundStep(s, Logout(s, hash, now), tx)
  {
    Begin(s, tx);
    hide Inv, Sound, EndSessions;
    if HasSession(s, hash) {
      EndSessionsSound(s, tx, {s.sessions[hash].id}, SignOut, now);
    } else {
      SoundStill(s, tx);
    }
  }

  ghost function ObserveSession(s: State, hash: Id, device: Id, now: Time): Outcome {
    if !HasSession(s, hash) then Denied(NotFound)
    else Committed(s.(sessions := s.sessions[hash := s.sessions[hash].(lastSeenAt := now, device := device)]))
  }

  lemma ObserveSound(s: State, tx: Tx, hash: Id, device: Id, now: Time)
    requires tx.timely ==> now <= tx.now
    requires Starts(s, tx)
    ensures SoundStep(s, ObserveSession(s, hash, device, now), tx)
  {
    Begin(s, tx);
    var o := ObserveSession(s, hash, device, now);
    if o.Committed? {
      assert RowsTouched(s.sessions, o.state.sessions);
      hide Inv, Sound, RowsTouched;
      TouchedSound(s, o.state, tx);
    }
  }
}
