/** The whole machine: every service step as an event, and the runs made of them. A handler reads the
    store in one transaction and writes it in another, so an event carries what the handler read: a client
    record, the row of a signed-in session, or a logout interaction, each stored at an earlier moment of the
    run (`Possible`). Whatever else an event carries is arbitrary, which allows more runs than the code: clock
    readings taken before the transaction, the account or password a credential was checked against, the
    answer of the separate look at the refresh policy, the session a logout is bound to, and what a new
    logout interaction says. */
module Machine {
  import opened Records
  import opened Outbox
  import opened Invariants
  import opened Evolution
  import opened Steps
  import opened Authorization
  import opened TokenEndpoint
  import Accounts
  import Clients
  import Logouts
  import Deliveries
  import Monitor

  datatype Event =
    | Tick
    | Bootstrap(id: Id, email: Id, password: Id)
    | CreateUser(hash: Id, id: Id, email: Id, role: Role, password: Id)
    | UpdateUser(hash: Id, id: Id, email: Id, role: Role, active: bool)
    | RemoveUser(hash: Id, id: Id)
    | UpdateProfile(hash: Id, newEmail: Option<Id>)
    | ChangePassword(hash: Id, original: Id, password: Id)
    | SignIn(user: Id, found: User, t0: Time, hash: Id, csrf: Id, id: Id, previous: Id)
    | Leave(hash: Id)
    | ObserveSession(hash: Id, device: Id)
    | PutClient(hash: Id, id: Id, metadata: Metadata, freshId: Id, freshSecret: Id)
    | RotateSecret(hash: Id, id: Id, freshSecret: Id)
    | RemoveClient(hash: Id, id: Id)
    | RegisterClient(id: Id, metadata: Metadata, freshSecret: Id)
    | SetPolicy(hash: Id, id: Id, policy: Policy)
    | SetAccess(hash: Id, id: Id, access: Access)
    | EndTargets(hash: Id, admin: bool, target: Logouts.Target, offline: bool, checked: Option<Id>, operation: Id)
    | Sweep
    | PrepareLogout(id: Id, interaction: Interaction)
    | BindLogout(id: Id, interaction: Interaction, session: Id, user: Id)
    | CancelLogout(id: Id, interaction: Interaction)
    | ConfirmLogout(id: Id, interaction: Interaction)
    | RenderLogout(id: Id, interaction: Interaction, framable: set<Id>)
    | StartRequest(client: Id, record: Client, request: Request, offline: bool, row: Option<Session>, binding: Id,
                   txn: Id, t0: Time)
    | MintSilently(client: Id, record: Client, request: Request, offline: bool, session: Id, seen: Session, code: Id,
                   t0: Time)
    | CompleteRequest(txn: Id, binding: Id, session: Id, user: Id, approve: Option<bool>, approved: seq<Scope>,
                      code: Id)
    | ExchangeCode(client: Id, record: Client, code: Id, redirectUri: Id, challenge: Id, drawing: Drawing)
    | UseRefresh(client: Id, record: Client, hash: Id, refresh: RefreshRequest, token: Id, next: Id)
    | IssueGrant(client: Id, record: Client, owner: Option<Owner>, resource: ResourceRequest, token: Id)
    | RevokePresented(client: Id, record: Client, hash: Id)
    | RevokeActivity(hash: Id, key: Monitor.Key)
    | TakeLease(jobs: seq<DeliveryId>, op: Id, client: Id, lease: Id)
    | RecordResult(notice: DeliveryId, lease: Id, answer: Answer)

  datatype Kind = AccountKind | ClientKind | LogoutKind | WorkKind | AuthorizeKind | TokenKind

  function KindOf(e: Event): Kind {
    match e
    case Tick => AccountKind
    case Bootstrap(_, _, _) => AccountKind
    case CreateUser(_, _, _, _, _) => AccountKind
    case UpdateUser(_, _, _, _, _) => AccountKind
    case RemoveUser(_, _) => AccountKind
    case UpdateProfile(_, _) => AccountKind
    case ChangePassword(_, _, _) => AccountKind
    case SignIn(_, _, _, _, _, _, _) => AccountKind
    case Leave(_) => AccountKind
    case ObserveSession(_, _) => AccountKind
    case PutClient(_, _, _, _, _) => ClientKind
    case RotateSecret(_, _, _) => ClientKind
    case RemoveClient(_, _) => ClientKind
    case RegisterClient(_, _, _) => ClientKind
    case SetPolicy(_, _, _) => ClientKind
    case SetAccess(_, _, _) => ClientKind
    case EndTargets(_, _, _, _, _, _) => LogoutKind
    case Sweep => LogoutKind
    case PrepareLogout(_, _) => LogoutKind
    case BindLogout(_, _, _, _) => LogoutKind
    case CancelLogout(_, _) => LogoutKind
    case ConfirmLogout(_, _) => LogoutKind
    case RenderLogout(_, _, _) => LogoutKind
    case RevokeActivity(_, _) => WorkKind
    case TakeLease(_, _, _, _) => WorkKind
    case RecordResult(_, _, _) => WorkKind
    case StartRequest(_, _, _, _, _, _, _, _) => AuthorizeKind
    case MintSilently(_, _, _, _, _, _, _, _) => AuthorizeKind
    case CompleteRequest(_, _, _, _, _, _, _) => AuthorizeKind
    case ExchangeCode(_, _, _, _, _, _) => TokenKind
    case UseRefresh(_, _, _, _, _, _) => TokenKind
    case IssueGrant(_, _, _, _, _) => TokenKind
    case RevokePresented(_, _, _) => TokenKind
  }

  ghost function ApplyAccount(cfg: Config, s: State, e: Event, now: Time): Outcome {
    match e
    case Bootstrap(id, email, password) => Accounts.Bootstrap(s, id, email, password, now)
    case CreateUser(hash, id, email, role, password) => Accounts.CreateUser(s, hash, id, email, role, password, now)
    case UpdateUser(hash, id, email, role, active) => Accounts.UpdateUser(s, hash, id, email, role, active, now)
    case RemoveUser(hash, id) => Accounts.DeleteUser(s, hash, id, now)
    case UpdateProfile(hash, email) => Accounts.UpdateProfile(s, hash, email, now)
    case ChangePassword(hash, original, password) => Accounts.ChangePassword(s, hash, original, password, now)
    case SignIn(user, found, t0, hash, csrf, id, previous) =>
      Accounts.Login(s, cfg, user, found, t0, hash, csrf, id, previous, now)
    case Leave(hash) => Accounts.Logout(s, hash, now)
    case ObserveSession(hash, device) => Accounts.ObserveSession(s, hash, device, now)
    case _ => Committed(s)
  }

  ghost function ApplyClient(cfg: Config, s: State, e: Event, now: Time): Outcome {
    match e
    case PutClient(hash, id, m, freshId, secret) => Clients.SaveClient(s, hash, id, m, freshId, secret, now)
    case RotateSecret(hash, id, secret) => Clients.RotateSecret(s, hash, id, secret, now)
    case RemoveClient(hash, id) => Clients.DeleteClient(s, hash, id, now)
    case RegisterClient(id, m, secret) => Clients.RegisterClient(s, id, m, secret, now)
    case SetPolicy(hash, id, p) => Clients.SetPolicy(s, cfg, hash, id, p, now)
    case SetAccess(hash, id, a) => Clients.SetAccess(s, cfg, hash, id, a, now)
    case _ => Committed(s)
  }

  ghost function ApplyLogout(cfg: Config, s: State, e: Event, now: Time): Outcome {
    match e
    case EndTargets(hash, admin, target, offline, checked, operation) =>
      Logouts.EndSessionsStep(s, hash, admin, target, offline, checked, operation, now)
    case Sweep => Logouts.Sweep(s, now)
    case PrepareLogout(id, v) => Logouts.PrepareLogout(s, id, v, now)
    case BindLogout(id, v, session, user) => Logouts.BindLogout(s, id, v, session, user)
    case CancelLogout(id, v) => Logouts.CancelLogout(s, id, v, now)
    case ConfirmLogout(id, v) => Logouts.ConfirmLogout(s, id, v, now)
    case RenderLogout(_, v, framable) => Logouts.RenderLogout(s, v, framable, now)
    case _ => Committed(s)
  }

  ghost function ApplyWork(cfg: Config, s: State, e: Event, now: Time): Outcome {
    match e
    case RevokeActivity(hash, key) => Monitor.RevokeActivity(s, cfg, hash, key, now)
    case TakeLease(jobs, op, client, lease) => Deliveries.AcquireStep(s, jobs, op, client, lease, now)
    case RecordResult(id, lease, a) => Deliveries.RecordStep(s, id, lease, a, now)
    case _ => Committed(s)
  }

  ghost function ApplyAuthorize(cfg: Config, s: State, e: Event, now: Time): Outcome {
    match e
    case StartRequest(client, c, q, offline, row, binding, txn, t0) =>
      Authorization.Authorize(s, cfg, client, c, q, offline, row, binding, txn, t0)
    case MintSilently(client, c, q, offline, session, seen, code, t0) =>
      Authorization.MintNone(s, cfg, client, c, q, offline, session, seen, code, t0, now)
    case CompleteRequest(txn, binding, session, user, approve, approved, code) =>
      Authorization.Complete(s, cfg, txn, binding, session, user, approve, approved, code, now)
    case _ => Committed(s)
  }

  ghost function ApplyToken(cfg: Config, s: State, e: Event, now: Time): Outcome {
    match e
    case ExchangeCode(client, c, code, redirectUri, challenge, d) =>
      TokenEndpoint.Exchange(s, cfg, client, c, code, redirectUri, challenge, d, now)
    case UseRefresh(client, c, hash, q, access, next) => RefreshStep(s, cfg, client, c, hash, q, access, next, now)
    case IssueGrant(client, c, owner, q, access) =>
      TokenEndpoint.IssueResource(s, cfg, client, c, owner, q, access, now)
    case RevokePresented(client, c, hash) => TokenEndpoint.Revoke(s, client, c, hash)
    case _ => Committed(s)
  }

  ghost function Apply(cfg: Config, s: State, e: Event, now: Time): Outcome {
    match KindOf(e)
    case AccountKind => ApplyAccount(cfg, s, e, now)
    case ClientKind => ApplyClient(cfg, s, e, now)
    case LogoutKind => ApplyLogout(cfg, s, e, now)
    case WorkKind => ApplyWork(cfg, s, e, now)
    case AuthorizeKind => ApplyAuthorize(cfg, s, e, now)
    case TokenKind => ApplyToken(cfg, s, e, now)
  }

  // ---------- Worlds and steps ----------

  /** The random values an event draws and files records under. */
  function Draws(e: Event): set<Id> {
    match e
    case Bootstrap(id, _, _) => {id}
    case CreateUser(_, id, _, _, _) => {id}
    case SignIn(_, _, _, hash, _, id, _) => {hash, id}
    case PutClient(_, _, _, freshId, _) => {freshId}
    case RegisterClient(id, _, _) => {id}
    case PrepareLogout(id, _) => {id}
    case StartRequest(_, _, _, _, _, _, txn, _) => {txn}
    case MintSilently(_, _, _, _, _, _, code, _) => {code}
    case CompleteRequest(_, _, _, _, _, _, code) => {code}
    case ExchangeCode(_, _, _, _, _, d) => {d.access, d.refresh, d.family, d.app}
    case UseRefresh(_, _, _, _, access, next) => {access, next}
    case IssueGrant(_, _, _, _, access) => {access}
    case TakeLease(_, _, _, lease) => {lease}
    case _ => {}
  }

  datatype World = World(state: State, clock: Time, used: set<Id>)

  /** The client record an event carries from the handler's first transaction. */
  function CarriedClient(e: Event): Option<(Id, Client)> {
    match e
    case StartRequest(client, c, _, _, _, _, _, _) => Some((client, c))
    case MintSilently(client, c, _, _, _, _, _, _) => Some((client, c))
    case ExchangeCode(client, c, _, _, _, _) => Some((client, c))
    case UseRefresh(client, c, _, _, _, _) => Some((client, c))
    case IssueGrant(client, c, _, _, _) => Some((client, c))
    case RevokePresented(client, c, _) => Some((client, c))
    case _ => None
  }

  ghost predicate WasStored(past: seq<World>, id: Id, c: Client) {
    exists i :: 0 <= i < |past| && id in past[i].state.clients && past[i].state.clients[id] == c
  }

  /** The session row an event carries: that of the browser that was signed in. */
  function CarriedRow(e: Event): Option<Session> {
    match e
    case StartRequest(_, _, _, _, row, _, _, _) => row
    case MintSilently(_, _, _, _, _, seen, _, _) => Some(seen)
    case _ => None
  }

  ghost predicate WasSignedIn(past: seq<World>, row: Session) {
    exists i, h :: 0 <= i < |past| && HasSession(past[i].state, h) && past[i].state.sessions[h] == row
  }

  /** The logout interaction an event carries. */
  function CarriedInteraction(e: Event): Option<(Id, Interaction)> {
    match e
    case BindLogout(id, v, _, _) => Some((id, v))
    case CancelLogout(id, v) => Some((id, v))
    case ConfirmLogout(id, v) => Some((id, v))
    case RenderLogout(id, v, _) => Some((id, v))
    case _ => None
  }

  ghost predicate WasOpened(past: seq<World>, id: Id, v: Interaction) {
    exists i :: 0 <= i < |past| && id in past[i].state.interactions && past[i].state.interactions[id] == v
  }

  /** What the event carries is what it can have read or drawn. */
  ghost predicate Possible(past: seq<World>, e: Event) {
    && (CarriedClient(e).Some? ==> WasStored(past, CarriedClient(e).value.0, CarriedClient(e).value.1))
    && (CarriedRow(e).Some? ==> WasSignedIn(past, CarriedRow(e).value))
    && (CarriedInteraction(e).Some? ==> WasOpened(past, CarriedInteraction(e).value.0, CarriedInteraction(e).value.1))
    && (e.RecordResult? ==> e.lease != NONE && 0 <= e.answer.jitter < 100)
  }

  ghost predicate Step(cfg: Config, past: seq<World>, e: Event, w: World)
    requires |past| > 0
  {
    var v := past[|past| - 1];
    && Draws(e) !! v.used && v.used + Draws(e) <= w.used && Possible(past, e)
    && w.state == Next(v.state, Apply(cfg, v.state, e, w.clock))
  }

  ghost predicate StepAt(cfg: Config, ws: seq<World>, es: seq<Event>, i: nat)
    requires i < |es| && i + 1 < |ws|
  {
    Step(cfg, ws[..i + 1], es[i], ws[i + 1])
  }

  ghost predicate Run(cfg: Config, ws: seq<World>, es: seq<Event>) {
    && ValidConfig(cfg) && |ws| == |es| + 1
    && ws[0].state == FRESH_STATE && NONE in ws[0].used
    && forall i :: 0 <= i < |es| ==> StepAt(cfg, ws, es, i)
  }

  // ---------- One step ----------

  ghost predicate Retries(e: Event) { e.EndTargets? && e.target.RetryNotice? }

  /** A lease is granted although the result of the last one is still outstanding. */
  ghost predicate Loses(s: State, e: Event, now: Time) {
    e.TakeLease? && !Deliveries.NothingOutstanding(s, e.jobs, e.op, e.client, e.lease, now)
  }

  /** The notices whose lease the event grants or settles. */
  ghost function LeaseMoves(s: State, e: Event, now: Time): set<DeliveryId> {
    match e
    case TakeLease(jobs, op, client, lease) =>
      var job := Deliveries.GrantedJob(s, jobs, op, client, lease, now);
      if job.Some? then {job.value} else {}
    case RecordResult(id, lease, _) => if Holds(s.deliveries, id, lease) then {id} else {}
    case _ => {}
  }

  /** The failed notices the event may bring back. */
  ghost function Revivals(s: State, e: Event): set<DeliveryId> {
    match e
    case EndTargets(_, _, target, _, _, _) => if target.RetryNotice? then {target.notice} else {}
    case RecordResult(id, lease, _) => if Holds(s.deliveries, id, lease) then {id} else {}
    case _ => {}
  }

  /** The session a request may be bound to from a row read before. */
  function BoundBefore(e: Event): set<Id> {
    match e
    case StartRequest(_, _, _, _, row, _, _, _) => if row.Some? then {row.value.id} else {}
    case _ => {}
  }

  function Writes(e: Event): set<Id> {
    match e
    case BindLogout(id, _, _, _) => {id}
    case CancelLogout(id, _) => {id}
    case ConfirmLogout(id, _) => {id}
    case _ => {}
  }

  /** The clock reading a sign-in takes before its transaction is not after it. */
  predicate InTime(e: Event, now: Time) {
    e.SignIn? ==> e.t0 <= now
  }

  ghost function TxOf(cfg: Config, v: World, e: Event, w: World): Tx {
    Tx(cfg, v.used, w.used, v.used, w.clock, e.ExchangeCode?, LeaseMoves(v.state, e, w.clock), Revivals(v.state, e),
       BoundBefore(e), Writes(e), Retries(e), Loses(v.state, e, w.clock), InTime(e, w.clock))
  }

  ghost predicate Carries(s: State, used: set<Id>, e: Event) {
    && (CarriedClient(e).Some? ==> ClientSnapshot(s, used, CarriedClient(e).value.0, CarriedClient(e).value.1))
    && (CarriedInteraction(e).Some? ==> CarriedInteraction(e).value.0 in used)
  }

  lemma AccountStepsSound(s: State, tx: Tx, e: Event)
    requires Starts(s, tx) && Draws(e) !! tx.used && Draws(e) <= tx.known
    requires tx.timely ==> InTime(e, tx.now)
    ensures SoundStep(s, ApplyAccount(tx.cfg, s, e, tx.now), tx)
  {
    hide Starts, Sound, Inv, KnownIds;
    hide Accounts.Bootstrap, Accounts.CreateUser, Accounts.UpdateUser, Accounts.DeleteUser, Accounts.UpdateProfile,
         Accounts.ChangePassword;
    hide Accounts.Login, Accounts.Logout, Accounts.ObserveSession;
    Begin(s, tx);
    SoundStill(s, tx);
    var now := tx.now;
    match e
    case Bootstrap(id, email, password) => Accounts.BootstrapSound(s, tx, id, email, password, now);
    case CreateUser(hash, id, email, role, password) =>
      Accounts.CreateUserSound(s, tx, hash, id, email, role, password, now);
    case UpdateUser(hash, id, email, role, active) =>
      Accounts.UpdateUserSound(s, tx, hash, id, email, role, active, now);
    case RemoveUser(hash, id) => Accounts.DeleteUserStepSound(s, tx, hash, id, now);
    case UpdateProfile(hash, email) => Accounts.UpdateProfileSound(s, tx, hash, email, now);
    case ChangePassword(hash, original, password) => Accounts.ChangePasswordSound(s, tx, hash, original, password, now);
    case SignIn(user, found, t0, hash, csrf, id, previous) =>
      Accounts.LoginSound(s, tx, user, found, t0, hash, csrf, id, previous);
    case Leave(hash) => Accounts.LogoutSound(s, tx, hash, now);
    case ObserveSession(hash, device) => Accounts.ObserveSound(s, tx, hash, device, now);
    case _ =>
  }

  lemma ClientStepsSound(s: State, tx: Tx, e: Event)
    requires Starts(s, tx) && Draws(e) !! tx.used && Draws(e) <= tx.known
    ensures SoundStep(s, ApplyClient(tx.cfg, s, e, tx.now), tx)
  {
    hide Starts, Sound, Inv, KnownIds;
    hide Clients.SaveClient, Clients.RotateSecret, Clients.DeleteClient, Clients.RegisterClient, Clients.SetPolicy,
         Clients.SetAccess;
    Begin(s, tx);
    SoundStill(s, tx);
    var now := tx.now;
    match e
    case PutClient(hash, id, m, freshId, secret) =>
      Clients.SaveClientStepSound(s, tx, hash, id, m, freshId, secret, now);
    case RotateSecret(hash, id, secret) => Clients.RotateSecretSound(s, tx, hash, id, secret, now);
    case RemoveClient(hash, id) => Clients.DeleteClientStepSound(s, tx, hash, id, now);
    case RegisterClient(id, m, secret) => Clients.RegisterClientSound(s, tx, id, m, secret, now);
    case SetPolicy(hash, id, p) => Clients.SetPolicySound(s, tx, hash, id, p, now);
    case SetAccess(hash, id, a) => Clients.SetAccessSound(s, tx, hash, id, a, now);
    case _ =>
  }

  lemma LogoutStepsSound(s: State, tx: Tx, e: Event)
    requires Starts(s, tx) && Draws(e) !! tx.used && Draws(e) <= tx.known && Carries(s, tx.used, e)
    requires (Retries(e) ==> tx.retried) && Revivals(s, e) <= tx.revived && Writes(e) <= tx.written
    ensures SoundStep(s, ApplyLogout(tx.cfg, s, e, tx.now), tx)
  {
    hide Starts, Sound, Inv, KnownIds;
    hide Logouts.EndSessionsStep, Logouts.Sweep, Logouts.PrepareLogout, Logouts.BindLogout, Logouts.CancelLogout,
         Logouts.ConfirmLogout, Logouts.RenderLogout;
    var now := tx.now;
    match e
    case EndTargets(hash, admin, target, offline, checked, operation) =>
      Logouts.EndSessionsStepSound(s, tx, hash, admin, target, offline, checked, operation, now);
    case Sweep => Logouts.SweepStepSound(s, tx, now);
    case _ => BrowserStepsSound(s, tx, e);
  }

  lemma BrowserStepsSound(s: State, tx: Tx, e: Event)
    requires Starts(s, tx) && Draws(e) !! tx.used && Draws(e) <= tx.known && Carries(s, tx.used, e)
    requires Writes(e) <= tx.written && !e.EndTargets? && !e.Sweep?
    ensures SoundStep(s, ApplyLogout(tx.cfg, s, e, tx.now), tx)
  {
    hide Starts, Sound, Inv, KnownIds;
    hide Logouts.PrepareLogout, Logouts.BindLogout, Logouts.CancelLogout, Logouts.ConfirmLogout, Logouts.RenderLogout;
    var now := tx.now;
    match e
    case PrepareLogout(id, i) => Logouts.PrepareLogoutSound(s, tx, id, i, now);
    case BindLogout(id, i, session, user) => Logouts.BindLogoutSound(s, tx, id, i, session, user);
    case CancelLogout(id, i) => Logouts.CancelLogoutSound(s, tx, id, i, now);
    case ConfirmLogout(id, i) => Logouts.ConfirmLogoutSound(s, tx, id, i, now);
    case RenderLogout(_, i, framable) => Logouts.RenderLogoutSound(s, tx, i, framable, now);
    case _ => IdleSound(s, tx);
  }

  lemma IdleSound(s: State, tx: Tx)
    requires Starts(s, tx)
    ensures Sound(s, s, tx)
  {
    hide Sound, Inv, KnownIds;
    Begin(s, tx);
    SoundStill(s, tx);
  }

  lemma WorkStepsSound(s: State, tx: Tx, e: Event)
    requires Starts(s, tx) && Draws(e) !! tx.used && Draws(e) <= tx.known
    requires (e.RecordResult? ==> e.lease != NONE && 0 <= e.answer.jitter < 100) && (Loses(s, e, tx.now) ==> tx.lost)
    requires LeaseMoves(s, e, tx.now) <= tx.leases && Revivals(s, e) <= tx.revived
    ensures SoundStep(s, ApplyWork(tx.cfg, s, e, tx.now), tx)
  {
    hide Starts, Sound, Inv, KnownIds;
    hide Monitor.RevokeActivity, Deliveries.AcquireStep, Deliveries.RecordStep, Deliveries.NothingOutstanding,
         Deliveries.GrantedJob;
    Begin(s, tx);
    SoundStill(s, tx);
    var now := tx.now;
    match e
    case RevokeActivity(hash, key) => Monitor.RevokeActivitySound(s, tx, hash, key, now);
    case TakeLease(jobs, op, client, lease) => Deliveries.AcquireSound(s, tx, jobs, op, client, lease);
    case RecordResult(id, lease, a) => Deliveries.RecordSound(s, tx, id, lease, a);
    case _ =>
  }

  lemma AuthorizeStepsSound(s: State, tx: Tx, e: Event)
    requires Starts(s, tx) && Draws(e) !! tx.used && Draws(e) <= tx.known
    requires Carries(s, tx.used, e) && BoundBefore(e) <= tx.bound
    ensures SoundStep(s, ApplyAuthorize(tx.cfg, s, e, tx.now), tx)
  {
    hide Starts, Sound, Inv, KnownIds;
    hide ClientSnapshot, Authorization.Authorize, Authorization.MintNone, Authorization.Complete;
    Begin(s, tx);
    SoundStill(s, tx);
    var now := tx.now;
    match e
    case StartRequest(client, c, q, offline, row, binding, txn, t0) =>
      AuthorizeSound(s, tx, client, c, q, offline, row, binding, txn, t0);
    case MintSilently(client, c, q, offline, session, seen, code, t0) =>
      MintNoneSound(s, tx, client, c, q, offline, session, seen, code, t0);
    case CompleteRequest(txn, binding, session, user, approve, approved, code) =>
      CompleteSound(s, tx, txn, binding, session, user, approve, approved, code);
    case _ =>
  }

  lemma TokenStepsSound(s: State, tx: Tx, e: Event)
    requires Starts(s, tx) && Draws(e) !! tx.used && Draws(e) <= tx.known
    requires Carries(s, tx.used, e) && (e.ExchangeCode? ==> tx.joins)
    ensures SoundStep(s, ApplyToken(tx.cfg, s, e, tx.now), tx)
  {
    hide Starts, Sound, Inv, KnownIds;
    hide ClientSnapshot, TokenEndpoint.Exchange, RefreshStep, TokenEndpoint.IssueResource, TokenEndpoint.Revoke;
    Begin(s, tx);
    SoundStill(s, tx);
    match e
    case ExchangeCode(client, c, code, redirectUri, challenge, d) =>
      ExchangeSound(s, tx, client, c, code, redirectUri, challenge, d);
    case UseRefresh(client, c, hash, q, access, next) => RefreshStepSound(s, tx, client, c, hash, q, access, next);
    case IssueGrant(client, c, owner, q, access) => IssueResourceSound(s, tx, client, c, owner, q, access);
    case RevokePresented(client, c, hash) => RevokeStepSound(s, tx, client, c, hash);
    case _ =>
  }

  lemma StepSound(cfg: Config, v: World, e: Event, w: World)
    requires Inv(v.state, cfg, v.used) && ValidConfig(cfg) && Draws(e) !! v.used && v.used + Draws(e) <= w.used
    requires Carries(v.state, v.used, e) && (e.RecordResult? ==> e.lease != NONE && 0 <= e.answer.jitter < 100)
    ensures SoundStep(v.state, Apply(cfg, v.state, e, w.clock), TxOf(cfg, v, e, w))
  {
    hide Inv, Sound, KindOf, ApplyAccount, ApplyClient, ApplyLogout, ApplyWork, ApplyAuthorize, ApplyToken, Draws,
         Carries, Loses, Retries;
    hide LeaseMoves, Revivals, BoundBefore, Writes, InTime;
    var tx := TxOf(cfg, v, e, w);
    assert Starts(v.state, tx);
    match KindOf(e)
    case AccountKind => AccountStepsSound(v.state, tx, e);
    case ClientKind => ClientStepsSound(v.state, tx, e);
    case LogoutKind => LogoutStepsSound(v.state, tx, e);
    case WorkKind => WorkStepsSound(v.state, tx, e);
    case AuthorizeKind => AuthorizeStepsSound(v.state, tx, e);
    case TokenKind => TokenStepsSound(v.state, tx, e);
  }

  /** Every step, committed or not, keeps the invariant and evolves the store. */
  lemma AnyStepSound(cfg: Config, v: World, e: Event, w: World)
    requires Inv(v.state, cfg, v.used) && ValidConfig(cfg) && Draws(e) !! v.used && v.used + Draws(e) <= w.used
    requires Carries(v.state, v.used, e) && (e.RecordResult? ==> e.lease != NONE && 0 <= e.answer.jitter < 100)
    requires w.state == Next(v.state, Apply(cfg, v.state, e, w.clock))
    ensures Sound(v.state, w.state, TxOf(cfg, v, e, w))
  {
    hide Inv, Evolves, Apply, Draws;
    StepSound(cfg, v, e, w);
    MoreIds(v.state, cfg, v.used, w.used);
    SoundStill(v.state, TxOf(cfg, v, e, w));
  }

  // ---------- Runs ----------

  lemma ClientsThen(a: map<Id, Client>, b: map<Id, Client>, c: map<Id, Client>, used: set<Id>, more: set<Id>)
    requires ClientsEvolve(a, b, used) && ClientsEvolve(b, c, more) && used <= more
    ensures ClientsEvolve(a, c, used)
  {
  }

  lemma ClientsStill(a: map<Id, Client>, used: set<Id>)
    ensures ClientsEvolve(a, a, used)
  {
  }

  ghost predicate KnownKeys(w: World) {
    w.state.clients.Keys <= w.used && w.state.interactions.Keys <= w.used
  }

  /** The store at a moment of a run, and the clients seen at an earlier one. */
  ghost predicate Reached(cfg: Config, ws: seq<World>, n: nat)
    requires n < |ws|
  {
    && Inv(ws[n].state, cfg, ws[n].used)
    && forall i :: 0 <= i <= n ==>
         ws[i].used <= ws[n].used && KnownKeys(ws[i])
         && ClientsEvolve(ws[i].state.clients, ws[n].state.clients, ws[i].used)
  }

  lemma KnownKeysIn(w: World, cfg: Config)
    requires Inv(w.state, cfg, w.used)
    ensures KnownKeys(w)
  {
    hide SessionsInv, CodesInv, TokensInv, FamiliesInv;
  }

  lemma CarriedSnapshot(cfg: Config, ws: seq<World>, n: nat, e: Event)
    requires n < |ws| && Reached(cfg, ws, n) && Possible(ws[..n + 1], e)
    ensures Carries(ws[n].state, ws[n].used, e)
  {
    hide Inv;
    if CarriedInteraction(e).Some? {
      var id, v := CarriedInteraction(e).value.0, CarriedInteraction(e).value.1;
      var i :| 0 <= i < |ws[..n + 1]| && id in ws[..n + 1][i].state.interactions
               && ws[..n + 1][i].state.interactions[id] == v;
      assert ws[..n + 1][i] == ws[i] && KnownKeys(ws[i]);
    }
    if CarriedClient(e).Some? {
      var id, c := CarriedClient(e).value.0, CarriedClient(e).value.1;
      var i :| 0 <= i < |ws[..n + 1]| && id in ws[..n + 1][i].state.clients && ws[..n + 1][i].state.clients[id] == c;
      assert ws[..n + 1][i] == ws[i] && KnownKeys(ws[i]);
      assert ClientsEvolve(ws[i].state.clients, ws[n].state.clients, ws[i].used);
    }
  }

  /** Every store a run reaches satisfies the invariant, whatever the clock does. */
  lemma {:induction false} RunReaches(cfg: Config, ws: seq<World>, es: seq<Event>, n: nat)
    requires Run(cfg, ws, es) && n < |ws|
    ensures Reached(cfg, ws, n)
  {
    hide Inv, Evolves, Apply, Draws, Possible, Carries, TxOf, ClientsEvolve, KnownKeys;
    if n == 0 {
      FreshStateOk(cfg, ws[0].used);
      ClientsStill(ws[0].state.clients, ws[0].used);
      KnownKeysIn(ws[0], cfg);
    } else {
      RunReaches(cfg, ws, es, n - 1);
      RunStep(cfg, ws, es, n - 1);
      var tx := TxOf(cfg, ws[n - 1], es[n - 1], ws[n]);
      KnownKeysIn(ws[n], cfg);
      ClientsStill(ws[n].state.clients, ws[n].used);
      forall i | 0 <= i < n
        ensures ws[i].used <= ws[n].used && ClientsEvolve(ws[i].state.clients, ws[n].state.clients, ws[i].used)
      {
        ClientsThen(ws[i].state.clients, ws[n - 1].state.clients, ws[n].state.clients, ws[i].used, ws[n - 1].used);
      }
    }
  }

  /** One step of a run, from a store it reaches. */
  lemma RunStep(cfg: Config, ws: seq<World>, es: seq<Event>, n: nat)
    requires Run(cfg, ws, es) && n < |es| && Reached(cfg, ws, n)
    ensures Sound(ws[n].state, ws[n + 1].state, TxOf(cfg, ws[n], es[n], ws[n + 1]))
    ensures ClientsEvolve(ws[n].state.clients, ws[n + 1].state.clients, ws[n].used)
    ensures Inv(ws[n + 1].state, cfg, ws[n + 1].used) && ws[n].used <= ws[n + 1].used
  {
    hide Inv, Apply, Draws, Possible, Carries, ClientsEvolve;
    assert StepAt(cfg, ws, es, n);
    assert ws[..n + 1][|ws[..n + 1]| - 1] == ws[n];
    CarriedSnapshot(cfg, ws, n, es[n]);
    PossibleResult(ws[..n + 1], es[n]);
    AnyStepSound(cfg, ws[n], es[n], ws[n + 1]);
  }

  lemma PossibleResult(past: seq<World>, e: Event)
    requires Possible(past, e)
    ensures e.RecordResult? ==> e.lease != NONE && 0 <= e.answer.jitter < 100
  {
  }

  /** What a step of a run stores, and what its event can have read and drawn. */
  lemma StepStores(cfg: Config, ws: seq<World>, es: seq<Event>, i: nat)
    requires Run(cfg, ws, es) && i < |es|
    ensures ws[i + 1].state == Next(ws[i].state, Apply(cfg, ws[i].state, es[i], ws[i + 1].clock)) && ValidConfig(cfg)
    ensures Possible(ws[..i + 1], es[i]) && Draws(es[i]) !! ws[i].used && Draws(es[i]) <= ws[i + 1].used
  {
    hide Apply, Possible, Draws, Next;
    assert StepAt(cfg, ws, es, i);
    assert ws[..i + 1][|ws[..i + 1]| - 1] == ws[i];
  }

  /** A clock that never goes back. */
  ghost predicate Steady(ws: seq<World>) {
    forall i, j :: 0 <= i <= j < |ws| ==> ws[i].clock <= ws[j].clock
  }

  lemma At(cfg: Config, ws: seq<World>, es: seq<Event>, n: nat)
    requires Run(cfg, ws, es) && n < |ws|
    ensures Inv(ws[n].state, cfg, ws[n].used)
  {
    hide Inv, Run;
    RunReaches(cfg, ws, es, n);
  }

  lemma Onward(cfg: Config, ws: seq<World>, es: seq<Event>, n: nat)
    requires Run(cfg, ws, es) && n < |es|
    ensures Inv(ws[n].state, cfg, ws[n].used) && Inv(ws[n + 1].state, cfg, ws[n + 1].used)
    ensures Evolves(ws[n].state, ws[n + 1].state, TxOf(cfg, ws[n], es[n], ws[n + 1])) && ws[n].used <= ws[n + 1].used
  {
    hide Inv, Evolves, StepAt;
    RunReaches(cfg, ws, es, n);
    RunStep(cfg, ws, es, n);
  }

  lemma {:induction false} UsedGrows(cfg: Config, ws: seq<World>, es: seq<Event>, i: nat, j: nat)
    requires Run(cfg, ws, es) && i <= j < |ws|
    ensures ws[i].used <= ws[j].used
  {
    hide Run, Inv, ClientsEvolve;
    RunReaches(cfg, ws, es, j);
  }
}
