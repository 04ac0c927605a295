/** The records of the identity store and the configuration the protocol handlers run under.

    A record is filed under its own key (`ID` or `Hash` in the source); the key is not repeated
    inside the record. A random token and its SHA-256 hash are one `Id`: hashing is injective, and
    only hashes are stored. The empty string is `NONE`. A timestamp that may be zero is an
    `Option<Time>`. */
module Records {

  datatype Option<+T> = None | Some(value: T)

  type Id = int

  const NONE: Id := 0

  /** Nanoseconds since the epoch. */
  type Time = int

  const SECOND: Time := 1_000_000_000
  const HOUR: Time := 3600 * SECOND
  const RETENTION: Time := 30 * 24 * HOUR
  const RETRY_WINDOW: Time := 24 * HOUR

  // ---------- Grants ----------

  /** `ClaimScope` is one of profile, email, address and phone. */
  datatype Scope = OpenId | OfflineAccess | ClaimScope(name: string) | Named(name: string)

  datatype Grant = AuthorizationCode | Implicit | RefreshGrant | ClientCredentials | PasswordGrant | NoGrant

  datatype Audience = UserInfo | Api(uri: string)

  datatype SubjectKind = UserSubject | ClientSubject | NoSubject

  datatype AuthMethod = NoAuth | SecretBasic | SecretPost | OtherAuth

  /** The parts of a client's metadata the protocol reads. `compatible` and `needsSecret` stand for
      the audits `auditMetadata` and `needsClientSecret`, which depend on the metadata alone. */
  datatype Metadata = Metadata(
    grants: seq<Grant>, auth: AuthMethod, compatible: bool, needsSecret: bool,
    redirectUris: seq<Id>, backchannelUri: Id, frontchannelUri: Id)

  datatype Client = Client(metadata: Metadata, secret: Id, updatedAt: Time)

  datatype Role = RegularUser | Admin

  datatype User = User(email: Id, role: Role, active: bool, password: Id)

  datatype ResourceScopes = ResourceScopes(allowed: seq<Scope>, default: seq<Scope>)

  datatype Policy = Policy(
    grants: seq<Grant>, resources: map<Audience, ResourceScopes>, defaultResource: Option<Audience>,
    introspection: bool, audiences: seq<Audience>, refreshInspection: bool, refreshEnabled: bool, passwordEnabled: bool)

  const NO_POLICY: Policy := Policy([], map[], None, false, [], false, false, false)

  type Access = map<Audience, seq<Scope>>

  datatype Txn = Txn(
    opSessionId: Id, revoked: bool, reauthenticateAfter: Option<Time>, clientId: Id, redirectUri: Id,
    scopes: seq<Scope>, codeChallenge: Id, promptConsent: bool, maxAge: Option<int>, bindingHash: Id,
    userId: Id, authTime: int, clientUpdatedAt: Time, consumed: bool, expiresAt: Time, createdAt: Time)

  datatype Code = Code(
    opSessionId: Id, appSessionId: Id, revoked: bool, createdAt: Time, retainUntil: Option<Time>,
    transactionId: Id, clientId: Id, userId: Id, redirectUri: Id, scopes: seq<Scope>, authTime: int,
    codeChallenge: Id, clientUpdatedAt: Time, consumed: bool, expiresAt: Time)

  datatype Token = Token(
    opSessionId: Id, appSessionId: Id, grantType: Grant, subjectKind: SubjectKind, familyId: Id,
    originalGrant: Grant, clientId: Id, userId: Id, audience: Audience, scopes: seq<Scope>,
    codeHash: Id, issuedAt: Time, expiresAt: Time, revoked: bool)

  datatype Family = Family(
    appSessionId: Id, opSessionId: Id, clientId: Id, userId: Id, codeHash: Id, audience: Audience,
    scopes: seq<Scope>, authTime: int, clientRevision: Time, createdAt: Time, absoluteExpiry: Time,
    idleExpiry: Time, retainUntil: Time, revoked: bool)

  datatype Refresh = Refresh(familyId: Id, scopes: seq<Scope>, issuedAt: Time, consumed: bool)

  datatype ConsentKey = ConsentKey(userId: Id, clientId: Id)

  datatype Consent = Consent(scopes: seq<Scope>, policyRevision: Time, grantedAt: Time, revoked: bool)

  // ---------- Sessions and the logout outbox ----------

  datatype Reason =
    | NotEnded | UserLogout | AdminLogout | SignOut | Expired | SecurityChange | ClientChanged
    | AccessPolicyChanged | AccessRevoked | AccountSwitch | BrowserLogout

  datatype Session = Session(
    id: Id, userId: Id, csrf: Id, device: Id, createdAt: Time, lastSeenAt: Time, expiresAt: Time,
    authTime: Option<Time>, endedAt: Option<Time>, endReason: Reason)

  datatype App = App(
    opSessionId: Id, clientId: Id, userId: Id, createdAt: Time, lastSeenAt: Time,
    endedAt: Option<Time>, endReason: Reason)

  datatype Channel = Local | Backchannel | Frontchannel | NoChannel

  datatype Status =
    | Ended | Pending | Delivering | Acknowledged | Failed | BrowserUnavailable | Unconfirmed | Unsupported

  datatype DeliveryError = NoError | RetryWindowExpired | DestinationChanged | UnsafeDestination | OtherError

  /** "op-" + session, and app + "-" + channel ("unsupported" when there is no channel). */
  datatype DeliveryId = OpNotice(session: Id) | AppNotice(app: Id, channel: Channel)

  datatype Attempt = Attempt(at: Time, httpStatus: int, error: DeliveryError)

  datatype Delivery = Delivery(
    opSessionId: Id, clientId: Id, reason: Reason, status: Status, endpoint: Id, createdAt: Time,
    updatedAt: Time, nextAttempt: Option<Time>, leaseUntil: Option<Time>, leaseId: Id, attempts: int,
    httpStatus: int, error: DeliveryError, history: seq<Attempt>)

  datatype Interaction = Interaction(
    clientId: Id, appSessionId: Id, bindingHash: Id, csrf: Id, opSessionId: Id, userId: Id,
    expiresAt: Time, completed: bool)

  // ---------- The store ----------

  /** A snapshot of the whole store. `operations` keeps only the creation time the sweep reads. */
  datatype State = State(
    sessions: map<Id, Session>,
    apps: map<Id, App>,
    deliveries: map<DeliveryId, Delivery>,
    interactions: map<Id, Interaction>,
    operations: map<Id, Time>,
    policies: map<Id, Policy>,
    access: map<Id, Access>,
    families: map<Id, Family>,
    refreshes: map<Id, Refresh>,
    clients: map<Id, Client>,
    users: map<Id, User>,
    txns: map<Id, Txn>,
    codes: map<Id, Code>,
    tokens: map<Id, Token>,
    consents: map<ConsentKey, Consent>)

  const FRESH_STATE: State :=
    State(map[], map[], map[], map[], map[], map[], map[], map[], map[], map[], map[], map[], map[], map[], map[])

  datatype Resource = Resource(audience: Audience, scopes: seq<Scope>, enabled: bool)

  datatype Config = Config(
    resources: seq<Resource>, passwordGrantEnabled: bool, refreshTokensEnabled: bool,
    refreshMaxTtl: Time, refreshInactivityTtl: Time, transactionTtl: Time, codeTtl: Time,
    accessTokenTtl: Time, sessionTtl: Time)

  /** The limits configuration loading enforces when the protocol is enabled. */
  predicate ValidConfig(cfg: Config) {
    && 0 < cfg.refreshInactivityTtl <= cfg.refreshMaxTtl
    && 0 < cfg.transactionTtl && 0 < cfg.codeTtl && 0 < cfg.accessTokenTtl
    && 60 * SECOND <= cfg.sessionTtl
    && (forall r <- cfg.resources :: r.audience != UserInfo)
  }

  // ---------- Scopes, resources, clocks ----------

  predicate ScopeSubset(requested: seq<Scope>, allowed: seq<Scope>) {
    forall s <- requested :: s in allowed
  }

  /** `validScopeList`, without the limits on a scope's own characters and length. */
  predicate ValidScopeList<T(==)>(list: seq<T>) {
    |list| <= 100 && forall i, j :: 0 <= i < j < |list| ==> list[i] != list[j]
  }

  /** Resource scopes may not take the name of a provider scope. */
  predicate ValidResourceScopes(scopes: seq<Scope>) {
    ValidScopeList(scopes) && forall s <- scopes :: s.Named?
  }

  function ResourceByAudience(resources: seq<Resource>, aud: Audience): Option<Resource> {
    if resources == [] then None
    else if resources[0].audience == aud then Some(resources[0])
    else ResourceByAudience(resources[1..], aud)
  }

  /** A zero time is never after `now`. */
  predicate After(t: Option<Time>, now: Time) {
    t.Some? && t.value > now
  }

  function MinTime(a: Time, b: Time): Time {
    if a < b then a else b
  }

  // ---------- Lookups ----------

  predicate Live(r: Session) { r.endedAt.None? }

  /** `fileState.Session`: an ended credential is not found. */
  predicate HasSession(s: State, hash: Id) {
    hash in s.sessions && Live(s.sessions[hash])
  }

  predicate SessionActive(s: State, id: Id, now: Time) {
    exists h <- s.sessions :: s.sessions[h].id == id && Live(s.sessions[h]) && now < s.sessions[h].expiresAt
  }

  function PolicyOf(s: State, client: Id): Policy {
    if client in s.policies then s.policies[client] else NO_POLICY
  }

  function AccessOf(s: State, user: Id): Access {
    if user in s.access then s.access[user] else map[]
  }

  function AllowedScopes(p: Policy, aud: Audience): seq<Scope> {
    if aud in p.resources then p.resources[aud].allowed else []
  }

  function EntitledScopes(a: Access, aud: Audience): seq<Scope> {
    if aud in a then a[aud] else []
  }

  /** A loop over a set that is not empty finds an element. */
  lemma SomeElement(s: set<Id>)
    ensures s == {} || exists x :: x in s
  {
    if forall x :: x !in s {
      assert s == {};
    }
  }
}
