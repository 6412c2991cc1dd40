/**
 The relations of the identity provider's database, the settings its services
 read, and the messages of the risk engine (PDP).

 A row does not repeat its primary key: every table is a map from key to row,
 or a set when the key is the whole row. `Directory` is who exists and what they
 may do; `Auth` is what logging in leaves behind.
 */
module Models {
  import opened Wrappers

  type Id = string
  type Time = int
  type byte = x: int | 0 <= x < 256
  type Bytes = seq<byte>

  // ------------------------------------------------------------- directory

  datatype Branding = Branding(
    displayName: string, loginStyle: string, logoUrl: Option<string>, primary: string, accent: string)

  datatype Tenant = Tenant(
    name: string, isPlatform: bool, consoleApp: Option<Id>, adminGroup: Option<Id>, branding: Branding)

  datatype Application = Application(
    clientId: Option<string>, tenant: Id, name: string, enabled: bool,
    redirectUri: Option<string>, alwaysPasskey: bool)

  datatype User = User(
    tenant: Id, email: string, passwordHash: string, enabled: bool,
    isAdmin: bool, alwaysPasskey: bool, lastLogin: Option<Time>)

  datatype Group = Group(tenant: Id, name: string, description: string)

  datatype Permission = Permission(app: Id, resource: string, operation: string, description: string)

  datatype Role = Role(tenant: Id, app: Id, name: string, description: string)

  datatype Membership = Membership(group: Id, user: Id)
  datatype RolePermission = RolePermission(role: Id, permission: Id)
  datatype GroupRole = GroupRole(group: Id, role: Id)

  datatype Directory = Directory(
    tenants: map<Id, Tenant>,
    domains: map<string, Id>,
    apps: map<Id, Application>,
    users: map<Id, User>,
    groups: map<Id, Group>,
    members: set<Membership>,
    permissions: map<Id, Permission>,
    roles: map<Id, Role>,
    rolePermissions: set<RolePermission>,
    groupRoles: set<GroupRole>)

  // ------------------------------------------------------------- logging in

  /** Keyed by the hash of the bearer token. */
  datatype Session = Session(
    user: Id, app: Id, expiresAt: Time, enrollUntil: Option<Time>, nonce: Option<Bytes>)

  datatype ActivationCode = ActivationCode(
    user: Id, issuedBy: string, expiresAt: Time, consumedAt: Option<Time>, nonce: Option<Bytes>)

  datatype Challenge = Challenge(
    user: Id, app: Id, risk: Risk, expiresAt: Time, consumedAt: Option<Time>,
    nonce: Option<Bytes>, ceremony: bool, deniedReason: Option<string>)

  datatype Credential = Credential(user: Id, publicKey: Bytes, signCount: int)

  datatype AuthCode = AuthCode(
    session: string, user: Id, app: Id, redirectUri: string, expiresAt: Time, consumedAt: Option<Time>)

  datatype Auth = Auth(
    sessions: map<string, Session>,
    activations: map<string, ActivationCode>,
    challenges: map<Id, Challenge>,
    credentials: map<Id, Credential>,
    codes: map<string, AuthCode>)

  datatype Store = Store(dir: Directory, auth: Auth)

  // ------------------------------------------------------------- risk engine

  datatype Action = ALLOW | REQUIRE_MFA | REAUTHENTICATE | BLOCK
  datatype Level = LOW | MEDIUM | HIGH | CRITICAL
  datatype EngineMode = OFF | MONITOR | ACTIVE
  datatype BasePolicy = PASSWORD_ONLY | ALWAYS_MFA
  datatype Policy = Policy(mode: EngineMode, base: BasePolicy)

  datatype Reason = Reason(code: string, signal: string, detail: string)

  /** `verdict` is what the engine thinks; `enforced` is what it asks for. */
  datatype Decision = Decision(
    event: Id, score: real, level: Level, verdict: Action, enforced: Action,
    reasons: seq<Reason>, fallback: bool)

  /** The part of a decision a challenge keeps; `action` is what was applied after the floor. */
  datatype Risk = Risk(
    event: Option<Id>, action: Action, score: Option<real>, level: Option<Level>, reasons: seq<Reason>)

  datatype Outcome =
    | AUTHENTICATED | MFA_REQUIRED | REAUTH_REQUIRED | BLOCKED
    | INVALID_CREDENTIALS | ACCESS_DENIED | SECOND_FACTOR_MISSING

  datatype Token = Token(raw: string, expiresAt: Time)
  datatype Redirect = Redirect(uri: string, code: string)

  datatype LoginResponse = LoginResponse(
    outcome: Outcome, user: Option<Id>, event: Option<Id>, action: Option<Action>,
    score: Option<real>, level: Option<Level>, reasons: seq<Reason>,
    session: Option<Token>, challenge: Option<Id>, redirect: Option<Redirect>,
    passkeyOffer: bool, unusual: bool, detail: string)

  /** An answer that carries nothing but its outcome. */
  function Bare(outcome: Outcome): LoginResponse {
    LoginResponse(outcome, None, None, None, None, None, [], None, None, None, false, false, "")
  }

  // ------------------------------------------------------------- settings

  /** What a PDP outage degrades to: ALLOW and BLOCK cannot be configured. */
  datatype OutageAction = DegradeToMfa | DegradeToReauth

  datatype Settings = Settings(
    sessionTtl: int, challengeTtl: int, callbackTtl: int, enrollWindow: int, activationTtl: int,
    mockOtp: bool, otpCode: string, outage: OutageAction)

  /** The browser's WebAuthn answer; `id` is absent when it is not a string. */
  datatype Assertion = Assertion(id: Option<string>, body: Bytes)
  datatype NewCredential = NewCredential(id: Id, publicKey: Bytes, signCount: int)

  /** What the service asks of its libraries, as functions it knows nothing else about. */
  datatype Oracles = Oracles(
    hash: string -> string,
    dummyDigest: string,
    passwordOk: (string, string) -> bool,
    verifyGet: (Assertion, Bytes, Bytes, int) -> Option<int>,
    verifyCreate: (Assertion, Bytes) -> Option<NewCredential>)

  // ------------------------------------------------------------- text

  predicate Space(c: char) { c in " \t\n\r" }

  function Strip(s: string): string {
    if s != "" && Space(s[0]) then Strip(s[1..])
    else if s != "" && Space(s[|s| - 1]) then Strip(s[..|s| - 1])
    else s
  }

  function LowerChar(c: char): char {
    if 'A' <= c <= 'Z' then (c as int + 32) as char else c
  }

  function Lower(s: string): string {
    seq(|s|, i requires 0 <= i < |s| => LowerChar(s[i]))
  }

  function NormaliseEmail(s: string): string { Lower(Strip(s)) }
}
