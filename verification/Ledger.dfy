/**
  The tables behind the OAuth grants and the events that change them
  (backend/internal/httpapi/oauth.go and database/migrations/0003_oidc.sql).

  An event is one committed change. `Enabled` says what the database guarantees at the
  instant of commit even when handlers interleave, so it is deliberately weak: checks may
  have been made earlier than `now`, a revocation may have seen only part of a family, and
  a consent may be merged into a stale list. `Atomic` adds what holds when the handler ran
  as a single step. Theorems that need `Atomic` say so.
 */
module Ledger {
  import opened Accounts
  import opened Scopes

  // ----- Configuration tables -----

  datatype Client = Client(
    app: Id, clientId: string, secretHash: Option<Hash>, isPublic: bool, enabled: bool,
    allowed: seq<string>, accessTtl: Time, idTtl: Time, refreshTtl: Time)

  /** SHA-256, for lookups and, in base64url, for PKCE challenges (section 4.2 of RFC 7636). */
  datatype Digests = Digests(sha: string -> Hash, s256: string -> string)

  /** Everything administrators and users change elsewhere. */
  datatype Env = Env(
    digests: Digests,
    clients: map<string, Client>,
    redirects: set<(Id, string)>,
    users: map<Id, User>,
    sessions: map<Hash, Session>,
    policy: Policy)

  // ----- Grant tables; rows are keyed by their unique column -----

  datatype Request = Request(
    app: Id, user: Id, redirect: string, nonce: string, scope: string, challenge: string,
    expires: Time, consumedAt: Option<Time>)

  datatype Code = Code(
    app: Id, user: Id, redirect: string, nonce: string, scope: string, challenge: string,
    expires: Time, consumedAt: Option<Time>)

  datatype Refresh = Refresh(
    family: Id, parent: Option<Hash>, app: Id, user: Id, scope: string,
    expires: Time, consumedAt: Option<Time>, revokedAt: Option<Time>)

  datatype Subject = UserSubject(id: Id) | ClientSubject(clientId: string)

  datatype Access = Access(
    app: Id, user: Option<Id>, subject: Subject, scope: string, expires: Time, revokedAt: Option<Time>)

  datatype Db = Db(
    requests: map<Hash, Request>,
    codes: map<Hash, Code>,
    refresh: map<Hash, Refresh>,
    access: map<Id, Access>,
    consents: map<(Id, Id), seq<string>>)

  datatype World = World(env: Env, db: Db, now: Time)

  const EmptyDb := Db(map[], map[], map[], map[], map[])

  // ----- The authorization request -----

  datatype Query = Query(
    responseType: string, clientId: string, redirect: string, state: string, nonce: string,
    challenge: string, challengeMethod: string, scope: string, promptNone: bool)

  /** loadOAuthClient: the client and its application must both exist and be enabled. */
  function LoadClient(env: Env, clientId: string): Option<Client> {
    if clientId in env.clients && env.clients[clientId].enabled then Some(env.clients[clientId]) else None
  }

  /** validateAuthorizationRequest. */
  predicate QueryOk(env: Env, q: Query) {
    && q.responseType == "code" && q.clientId != "" && q.redirect != "" && q.state != ""
    && var client := LoadClient(env, q.clientId);
    && client.Some?
    && (client.value.app, q.redirect) in env.redirects
    && q.challengeMethod == "S256" && q.challenge != ""
    && Split(q.scope).Ok?
    && "openid" in Split(q.scope).value
    && ContainsAll(client.value.allowed, Split(q.scope).value)
  }

  /** The part of authorize before consent is looked at. */
  predicate Authorized(env: Env, now: Time, session: Hash, q: Query) {
    && QueryOk(env, q)
    && var p := PrincipalOf(env.users, env.sessions, session, now);
    && p.Some?
    && !p.value.mustChangePassword
    && (Required(env.policy, p.value.user, Some(env.clients[q.clientId].app)) ==> p.value.mfaVerified)
  }

  function AppOf(env: Env, q: Query): Id
    requires QueryOk(env, q)
  {
    env.clients[q.clientId].app
  }

  function UserOf(env: Env, session: Hash): Id
    requires session in env.sessions
  {
    env.sessions[session].user
  }

  /** normalizeRequestedScope: what is stored for the requested scopes. */
  function StoredScope(q: Query): string {
    Join(ScopeList(q.scope))
  }

  // ----- PKCE, sections 4.1 and 4.6 of RFC 7636 -----

  predicate VerifierChar(c: char) {
    || 'a' <= c <= 'z' || 'A' <= c <= 'Z' || '0' <= c <= '9'
    || c == '-' || c == '.' || c == '_' || c == '~'
  }

  predicate ValidVerifier(v: string) {
    43 <= |v| <= 128 && forall i :: 0 <= i < |v| ==> VerifierChar(v[i])
  }

  predicate VerifyPkce(digests: Digests, verifier: string, challenge: string) {
    ValidVerifier(verifier) && digests.s256(verifier) == challenge
  }

  // ----- Events -----

  /** The fresh values issueUserTokens writes. */
  datatype Mint = Mint(jti: Id, token: Hash, accessExpires: Time, refreshExpires: Time)

  /** `at` is the time read by the expiry check, `started` the transaction's now(). */
  datatype Event =
    | Advance(env: Env, now: Time)
    | Ask(session: Hash, query: Query, token: Hash)
    | Grant(session: Hash, query: Query, code: Hash)
    | Deny(user: Id, token: Hash, started: Time, at: Time)
    | Approve(user: Id, token: Hash, code: Hash, base: seq<string>, started: Time, at: Time)
    | Exchange(app: Id, code: Hash, redirect: string, verifier: string, family: Id, mint: Mint, started: Time, at: Time)
    | Rotate(app: Id, token: Hash, mint: Mint, started: Time, at: Time)
    | Revoke(family: Id, rows: set<Hash>, started: Time)
    | IssueMachine(client: Client, scope: string, jti: Id, expires: Time)
    | RevokeAccess(app: Id, jti: Id, started: Time)

  function ConsentOf(db: Db, user: Id, app: Id): seq<string> {
    if (user, app) in db.consents then db.consents[(user, app)] else []
  }

  function FamilyRows(refresh: map<Hash, Refresh>, family: Id): set<Hash> {
    set h | h in refresh && refresh[h].family == family
  }

  predicate RequestUsable(db: Db, user: Id, token: Hash, at: Time) {
    && token in db.requests
    && db.requests[token].user == user
    && db.requests[token].consumedAt == None
    && at <= db.requests[token].expires
  }

  predicate CodeUsable(db: Db, digests: Digests, app: Id, code: Hash, redirect: string, verifier: string, at: Time) {
    && code in db.codes
    && var row := db.codes[code];
    && row.app == app
    && row.consumedAt == None
    && at <= row.expires
    && row.redirect == redirect
    && VerifyPkce(digests, verifier, row.challenge)
  }

  predicate RefreshUsable(db: Db, app: Id, token: Hash, at: Time) {
    && token in db.refresh
    && var row := db.refresh[token];
    && row.app == app
    && row.consumedAt == None && row.revokedAt == None
    && at <= row.expires
  }

  predicate MintFresh(db: Db, mint: Mint) {
    mint.jti !in db.access && mint.token !in db.refresh
  }

  ghost predicate Enabled(w: World, e: Event) {
    match e
    case Advance(env, now) => w.now <= now && env.digests == w.env.digests
    case Ask(session, q, token) =>
      Authorized(w.env, w.now, session, q) && token !in w.db.requests
    case Grant(session, q, code) =>
      && Authorized(w.env, w.now, session, q)
      && ContainsAll(ConsentOf(w.db, UserOf(w.env, session), AppOf(w.env, q)), ScopeList(q.scope))
      && code !in w.db.codes
    case Deny(user, token, started, at) =>
      started <= at <= w.now && RequestUsable(w.db, user, token, at)
    case Approve(user, token, code, base, started, at) =>
      started <= at <= w.now && RequestUsable(w.db, user, token, at) && code !in w.db.codes
    case Exchange(app, code, redirect, verifier, family, mint, started, at) =>
      && started <= at <= w.now
      && CodeUsable(w.db, w.env.digests, app, code, redirect, verifier, at)
      && MintFresh(w.db, mint)
      && FamilyRows(w.db.refresh, family) == {}
    case Rotate(app, token, mint, started, at) =>
      && started <= at <= w.now
      && RefreshUsable(w.db, app, token, at)
      && MintFresh(w.db, mint)
    case Revoke(family, rows, started) =>
      started <= w.now && rows <= FamilyRows(w.db.refresh, family)
    case IssueMachine(client, scope, jti, expires) =>
      jti !in w.db.access && "openid" !in ScopeList(scope)
    case RevokeAccess(app, jti, started) =>
      started <= w.now
  }

  /** signIDToken refuses a missing or inactive user, and runs when `openid` is granted. */
  predicate IdTokenOk(env: Env, user: Id, scope: string) {
    "openid" in ScopeList(scope) ==> user in env.users && env.users[user].active
  }

  predicate MintTimes(client: Client, mint: Mint, now: Time) {
    mint.accessExpires == now + client.accessTtl && mint.refreshExpires == now + client.refreshTtl
  }

  predicate EnabledClientFor(env: Env, clientId: string, app: Id) {
    LoadClient(env, clientId).Some? && env.clients[clientId].app == app
  }

  /** What holds besides `Enabled` when a handler runs as one step. */
  ghost predicate Atomic(w: World, e: Event) {
    match e
    case Advance(_, _) => true
    case Ask(_, _, _) => true
    case Grant(_, _, _) => true
    case Deny(_, _, started, at) => started == at == w.now
    case Approve(user, token, _, base, started, at) =>
      && started == at == w.now
      && token in w.db.requests
      && base == ConsentOf(w.db, user, w.db.requests[token].app)
    case Exchange(app, code, _, _, _, mint, started, at) =>
      && started == at == w.now
      && code in w.db.codes
      && IdTokenOk(w.env, w.db.codes[code].user, w.db.codes[code].scope)
      && (exists id :: EnabledClientFor(w.env, id, app) && MintTimes(w.env.clients[id], mint, w.now))
    case Rotate(app, token, mint, started, at) =>
      && started == at == w.now
      && token in w.db.refresh
      && IdTokenOk(w.env, w.db.refresh[token].user, w.db.refresh[token].scope)
      && (exists id :: EnabledClientFor(w.env, id, app) && MintTimes(w.env.clients[id], mint, w.now))
    case Revoke(family, rows, started) =>
      started == w.now && rows == FamilyRows(w.db.refresh, family)
    case IssueMachine(client, scope, _, expires) =>
      && !client.isPublic
      && ContainsAll(client.allowed, ScopeList(scope))
      && expires == w.now + client.accessTtl
    case RevokeAccess(_, _, started) => started == w.now
  }

  // ----- Effects -----

  function CodeFrom(r: Request, expires: Time): Code {
    Code(r.app, r.user, r.redirect, r.nonce, r.scope, r.challenge, expires, None)
  }

  function ConsumeRequest(db: Db, token: Hash, started: Time): Db
    requires token in db.requests
  {
    db.(requests := db.requests[token := db.requests[token].(consumedAt := Some(started))])
  }

  /** The two inserts of issueUserTokens. */
  function MintTokens(db: Db, mint: Mint, family: Id, parent: Option<Hash>, app: Id, user: Id, scope: string): Db {
    db.(access := db.access[mint.jti := Access(app, Some(user), UserSubject(user), scope, mint.accessExpires, None)],
        refresh := db.refresh[mint.token := Refresh(family, parent, app, user, scope, mint.refreshExpires, None, None)])
  }

  /** COALESCE(revoked_at, now()): the first revocation time is kept. */
  function Revoked(r: Refresh, started: Time): Refresh {
    if r.revokedAt == None then r.(revokedAt := Some(started)) else r
  }

  function RevokeRows(refresh: map<Hash, Refresh>, rows: set<Hash>, started: Time): map<Hash, Refresh> {
    map h | h in refresh :: if h in rows then Revoked(refresh[h], started) else refresh[h]
  }

  function ApplyAsk(env: Env, db: Db, now: Time, session: Hash, q: Query, token: Hash): Db
    requires QueryOk(env, q) && session in env.sessions
  {
    db.(requests := db.requests[token := Request(AppOf(env, q), UserOf(env, session), q.redirect, q.nonce,
                                                 StoredScope(q), q.challenge, now + 5 * MINUTE, None)])
  }

  function ApplyGrant(env: Env, db: Db, now: Time, session: Hash, q: Query, code: Hash): Db
    requires QueryOk(env, q) && session in env.sessions
  {
    db.(codes := db.codes[code := Code(AppOf(env, q), UserOf(env, session), q.redirect, q.nonce,
                                       StoredScope(q), q.challenge, now + 2 * MINUTE, None)])
  }

  function ApplyApprove(db: Db, token: Hash, code: Hash, base: seq<string>, started: Time): Db
    requires token in db.requests
  {
    var r := db.requests[token];
    ConsumeRequest(db, token, started).(
      consents := db.consents[(r.user, r.app) := Merge(base, ScopeList(r.scope))],
      codes := db.codes[code := CodeFrom(r, started + 2 * MINUTE)])
  }

  function ApplyExchange(db: Db, code: Hash, family: Id, mint: Mint, started: Time): Db
    requires code in db.codes
  {
    var c := db.codes[code];
    MintTokens(db.(codes := db.codes[code := c.(consumedAt := Some(started))]), mint, family, None, c.app, c.user,
               c.scope)
  }

  function ApplyRotate(db: Db, token: Hash, mint: Mint, started: Time): Db
    requires token in db.refresh
  {
    var r := db.refresh[token];
    MintTokens(db.(refresh := db.refresh[token := r.(consumedAt := Some(started))]), mint, r.family, Some(token), r.app,
               r.user, r.scope)
  }

  /** UPDATE .. WHERE jti=$1 AND application_id=$2. */
  function ApplyRevokeAccess(db: Db, app: Id, jti: Id, started: Time): Db {
    if jti in db.access && db.access[jti].app == app && db.access[jti].revokedAt == None
    then db.(access := db.access[jti := db.access[jti].(revokedAt := Some(started))])
    else db
  }

  ghost function ApplyDb(w: World, e: Event): Db
    requires Enabled(w, e)
  {
    match e
    case Advance(_, _) => w.db
    case Ask(session, q, token) => ApplyAsk(w.env, w.db, w.now, session, q, token)
    case Grant(session, q, code) => ApplyGrant(w.env, w.db, w.now, session, q, code)
    case Deny(_, token, started, _) => ConsumeRequest(w.db, token, started)
    case Approve(_, token, code, base, started, _) => ApplyApprove(w.db, token, code, base, started)
    case Exchange(_, code, _, _, family, mint, started, _) => ApplyExchange(w.db, code, family, mint, started)
    case Rotate(_, token, mint, started, _) => ApplyRotate(w.db, token, mint, started)
    case Revoke(_, rows, started) => w.db.(refresh := RevokeRows(w.db.refresh, rows, started))
    case IssueMachine(client, scope, jti, expires) =>
      w.db.(access := w.db.access[jti := Access(client.app, None, ClientSubject(client.clientId), scope, expires,
                                                None)])
    case RevokeAccess(app, jti, started) => ApplyRevokeAccess(w.db, app, jti, started)
  }

  ghost function Apply(w: World, e: Event): World
    requires Enabled(w, e)
  {
    if e.Advance? then World(e.env, w.db, e.now) else w.(db := ApplyDb(w, e))
  }

  // ----- Runs -----

  /** A run: `worlds[i]`, then `events[i]`, then `worlds[i + 1]`. */
  datatype Run = Run(worlds: seq<World>, events: seq<Event>)

  ghost predicate StepAt(run: Run, i: nat)
    requires i + 1 < |run.worlds| && i < |run.events|
  {
    Enabled(run.worlds[i], run.events[i]) && run.worlds[i + 1] == Apply(run.worlds[i], run.events[i])
  }

  ghost predicate IsRun(run: Run) {
    && |run.worlds| == |run.events| + 1
    && run.worlds[0].db == EmptyDb
    && forall i :: 0 <= i < |run.events| ==> StepAt(run, i)
  }

  /** Every handler ran as one step. */
  ghost predicate IsAtomicRun(run: Run) {
    && IsRun(run)
    && forall i :: 0 <= i < |run.events| ==> Atomic(run.worlds[i], run.events[i])
  }

  lemma {:induction false} ClockMonotone(run: Run, i: nat, j: nat)
    requires IsRun(run) && i <= j < |run.worlds|
    ensures run.worlds[i].now <= run.worlds[j].now
    ensures run.worlds[i].env.digests == run.worlds[j].env.digests
    decreases j
  {
    if i < j {
      ClockMonotone(run, i, j - 1);
      assert StepAt(run, j - 1);
    }
  }
}
