/**
  The OAuth handlers, each run as one step (backend/internal/httpapi/oauth.go).

  A handler works on a private copy of the tables and stores it back at commit, so every
  early return is a rollback. `fault` numbers the database or entropy call that fails
  (0 for none). `history` records the run so far; Valid() ties the tables to its last
  state, which is how the theorems about runs reach the handlers.
 */
module GrantServer {
  import opened Accounts
  import opened Scopes
  import opened Ledger
  import opened Families
  import opened Conservation
  import opened Provenance

  datatype AuthorizeReply =
    | BadRequest            // problem page: client, redirect URI or parameters
    | ErrorRedirect(error: string)
    | SignIn                // login, or a pending password change
    | SecondFactor
    | CodeIssued(code: string)
    | ConsentPage(token: string)
    | CsrfMissing           // the request row is already stored
    | Broken

  datatype Validation = Refused(reply: AuthorizeReply) | Accepted(client: Client, scopes: seq<string>)

  datatype ConsentReply = Rejected | Unauthenticated | Invalid | Denied | Approved(code: string) | ConsentBroken

  datatype TokenReply =
    | Tokens(jti: Id, refresh: string, scope: string)
    | MachineToken(accessId: Id, granted: string)
    | InvalidRequest
    | InvalidGrant
    | ReuseDetected
    | Expired
    | Unauthorized
    | InvalidScope
    | ServerError

  /** The random values drawn by issueUserTokens. */
  datatype Secrets = Secrets(jti: Id, refresh: string)

  /** What parseAccessToken recovers from a signed access token. */
  datatype Claims = Claims(jti: Id, audience: set<string>)

  ghost function Last(run: Run): World
    requires run.worlds != []
  {
    run.worlds[|run.worlds| - 1]
  }

  ghost function Extend(run: Run, e: Event): Run
    requires run.worlds != [] && Enabled(Last(run), e)
  {
    Run(run.worlds + [Apply(Last(run), e)], run.events + [e])
  }

  lemma ExtendRun(run: Run, e: Event)
    requires run.worlds != [] && IsAtomicRun(run) && Enabled(Last(run), e) && Atomic(Last(run), e)
    ensures Extend(run, e).worlds != []
    ensures IsAtomicRun(Extend(run, e)) && Last(Extend(run, e)) == Apply(Last(run), e)
  {
    var longer := Extend(run, e);
    forall i | 0 <= i < |longer.events| ensures StepAt(longer, i) && Atomic(longer.worlds[i], longer.events[i]) {
      if i < |run.events| {
        assert StepAt(run, i) && Atomic(run.worlds[i], run.events[i]);
      }
    }
  }

  lemma AdvanceIs(w: World, env: Env, now: Time)
    requires w.now <= now && env.digests == w.env.digests
    ensures Enabled(w, Advance(env, now)) && Atomic(w, Advance(env, now))
    ensures Apply(w, Advance(env, now)) == World(env, w.db, now)
  {
  }

  /** A denied request is used up, and nothing else happens. */
  lemma DenyIs(w: World, user: Id, key: Hash)
    requires RequestUsable(w.db, user, key, w.now)
    ensures
      var e := Deny(user, key, w.now, w.now);
      && Enabled(w, e) && Atomic(w, e)
      && ApplyDb(w, e) == w.db.(requests := w.db.requests[key := w.db.requests[key].(consumedAt := Some(w.now))])
  {
  }

  /** An approved one is used up, its scopes are merged into the recorded ones, and a code is
      stored. */
  lemma ApproveIs(w: World, user: Id, key: Hash, code: Hash)
    requires RequestUsable(w.db, user, key, w.now) && code !in w.db.codes
    ensures
      var r := w.db.requests[key];
      var base := ConsentOf(w.db, user, r.app);
      var e := Approve(user, key, code, base, w.now, w.now);
      && Enabled(w, e) && Atomic(w, e)
      && ApplyDb(w, e) == w.db.(
           requests := w.db.requests[key := r.(consumedAt := Some(w.now))],
           consents := w.db.consents[(user, r.app) := Merge(base, ScopeList(r.scope))],
           codes := w.db.codes[code := CodeFrom(r, w.now + 2 * MINUTE)])
  {
    hide ScopeList, Merge;
  }

  function MintOf(client: Client, s: Secrets, digests: Digests, now: Time): Mint {
    Mint(s.jti, digests.sha(s.refresh), now + client.accessTtl, now + client.refreshTtl)
  }

  class Server {
    const digests: Digests
    var clients: map<string, Client>
    var redirects: set<(Id, string)>
    var users: map<Id, User>
    var sessions: map<Hash, Session>
    var policy: Policy
    var requests: map<Hash, Request>
    var codes: map<Hash, Code>
    var refresh: map<Hash, Refresh>
    var access: map<Id, Access>
    var consents: map<(Id, Id), seq<string>>
    var now: Time
    ghost var history: Run

    function Configuration(): Env reads this {
      Env(digests, clients, redirects, users, sessions, policy)
    }

    function Tables(): Db reads this {
      Db(requests, codes, refresh, access, consents)
    }

    ghost function State(): World reads this {
      World(Configuration(), Tables(), now)
    }

    ghost predicate Valid() reads this {
      history.worlds != [] && IsAtomicRun(history) && Last(history) == State()
    }

    /** `e` was carried out as one atomic step. */
    twostate predicate Did(e: Event) reads this {
      && old(Valid()) && Valid()
      && Enabled(old(State()), e) && Atomic(old(State()), e)
      && State() == Apply(old(State()), e)
      && history == Extend(old(history), e)
    }

    twostate predicate Untouched() reads this {
      Valid() && State() == old(State()) && history == old(history)
    }

    constructor (digests: Digests, now: Time)
      ensures Valid() && this.digests == digests && State().db == EmptyDb
    {
      this.digests := digests;
      clients, redirects, users, sessions := map[], {}, map[], map[];
      policy := Policy(false, {}, {}, {});
      requests, codes, refresh, access, consents := map[], map[], map[], map[], map[];
      this.now := now;
      history := Run([World(Env(digests, map[], {}, map[], map[], Policy(false, {}, {}, {})), EmptyDb, now)], []);
    }

    /** Note down a step whose effect the tables already show. */
    ghost method Record(before: World, e: Event)
      requires history.worlds != [] && IsAtomicRun(history) && Last(history) == before
      requires Enabled(before, e) && Atomic(before, e) && State() == Apply(before, e)
      modifies `history
      ensures Valid() && history == Extend(old(history), e)
    {
      hide Enabled, Atomic, Apply, IsAtomicRun;
      ExtendRun(history, e);
      history := Extend(history, e);
    }

    /** Time passes and administrators or users change anything outside the grant tables. */
    method Advance(
        clients: map<string, Client>, redirects: set<(Id, string)>, users: map<Id, User>,
        sessions: map<Hash, Session>, policy: Policy, now: Time)
      requires Valid() && this.now <= now
      modifies this
      ensures Did(Ledger.Advance(Env(digests, clients, redirects, users, sessions, policy), now))
    {
      hide Enabled, Atomic, Apply, IsAtomicRun, Extend, Last;
      ghost var before, env := State(), Env(digests, clients, redirects, users, sessions, policy);
      AdvanceIs(before, env, now);
      this.clients, this.redirects, this.users := clients, redirects, users;
      this.sessions, this.policy, this.now := sessions, policy, now;
      Record(before, Ledger.Advance(env, now));
    }

    /** Store the grant tables of a committed transaction. */
    method Commit(tx: Db, ghost e: Event)
      requires Valid()
      requires !e.Advance? && Enabled(State(), e) && Atomic(State(), e) && tx == ApplyDb(State(), e)
      modifies `requests, `codes, `refresh, `access, `consents, `history
      ensures Did(e)
    {
      hide Enabled, Atomic, ApplyDb, StepAt;
      ExtendRun(history, e);
      history := Extend(history, e);
      requests, codes, refresh, access, consents := tx.requests, tx.codes, tx.refresh, tx.access, tx.consents;
    }

    // ----- authorize -----

    /** validateAuthorizationRequest. */
    method ValidateAuthorizationRequest(q: Query) returns (r: Validation)
      ensures r.Accepted? <==> QueryOk(Configuration(), q)
      ensures r == Refused(BadRequest) <==>
                || q.responseType != "code" || q.clientId == "" || q.redirect == "" || q.state == ""
                || q.clientId !in clients || !clients[q.clientId].enabled
                || (clients[q.clientId].app, q.redirect) !in redirects
      ensures r == Refused(ErrorRedirect("invalid_request")) <==>
                r != Refused(BadRequest) && (q.challengeMethod != "S256" || q.challenge == "")
      ensures r.Accepted? <==>
                && r != Refused(BadRequest) && r != Refused(ErrorRedirect("invalid_request"))
                && Split(q.scope).Ok? && "openid" in Split(q.scope).value
                && forall x :: x in Split(q.scope).value ==> x in clients[q.clientId].allowed
      ensures r.Accepted? ==> r.client == clients[q.clientId] && Split(q.scope) == Ok(r.scopes)
      ensures r.Refused? ==>
                || r.reply == BadRequest || r.reply == ErrorRedirect("invalid_request")
                || r.reply == ErrorRedirect("invalid_scope")
    {
      hide Split;
      if q.responseType != "code" || q.clientId == "" || q.redirect == "" || q.state == "" {
        return Refused(BadRequest);
      }
      var client := LoadClient(Configuration(), q.clientId);
      if client.None? || (client.value.app, q.redirect) !in redirects {
        return Refused(BadRequest);
      }
      if q.challengeMethod != "S256" || q.challenge == "" {
        return Refused(ErrorRedirect("invalid_request"));
      }
      var scopes := SplitScope(q.scope);
      if scopes.Err? || "openid" !in scopes.value || !ContainsAll(client.value.allowed, scopes.value) {
        return Refused(ErrorRedirect("invalid_scope"));
      }
      return Accepted(client.value, scopes.value);
    }

    /** The part of authorize that looks at the signed-in user. */
    method CheckUser(cookie: Option<string>, q: Query, client: Client, fault: nat)
        returns (reply: Option<AuthorizeReply>)
      requires QueryOk(Configuration(), q) && client == clients[q.clientId]
      ensures reply.None? <==>
                fault != 1 && cookie.Some? && Authorized(Configuration(), now, digests.sha(cookie.value), q)
      ensures reply.None? <==>
                && fault != 1 && cookie.Some?
                && var h := digests.sha(cookie.value);
                && h in sessions && !sessions[h].revoked && now < sessions[h].expires
                && sessions[h].user in users && users[sessions[h].user].active
                && !users[sessions[h].user].mustChangePassword
                && (|| sessions[h].mfaVerified
                    || (&& !policy.everyone && client.app !in policy.apps
                        && forall g :: g in policy.groups ==> (g, sessions[h].user) !in policy.members))
      ensures reply.Some? ==>
          reply.value.SignIn? || reply.value.SecondFactor? || reply.value.Broken? || reply.value.ErrorRedirect?
    {
      hide QueryOk;
      if cookie.None? {
        return Some(if q.promptNone then ErrorRedirect("login_required") else SignIn);
      }
      var p := PrincipalOf(users, sessions, digests.sha(cookie.value), now);
      if p.None? {
        return Some(if q.promptNone then ErrorRedirect("login_required") else SignIn);
      }
      if p.value.mustChangePassword {
        return Some(SignIn);
      }
      if fault == 1 {
        return Some(Broken);
      }
      if Required(policy, p.value.user, Some(client.app)) && !p.value.mfaVerified {
        return Some(if q.promptNone then ErrorRedirect("interaction_required") else SecondFactor);
      }
      return None;
    }

    /** authorize: a code is issued when everything checks out and consent already covers
        the request; otherwise, if the user may be asked, the request is stored. */
    method Authorize(cookie: Option<string>, q: Query, csrfCookie: bool, freshCode: string, freshToken: string,
        fault: nat)
        returns (r: AuthorizeReply)
      requires Valid()
      modifies `requests, `codes, `refresh, `access, `consents, `history
      ensures r.CodeIssued? || r.ConsentPage? || r.CsrfMissing? ==>
                cookie.Some? && old(Authorized(Configuration(), now, digests.sha(cookie.value), q))
      ensures r.CodeIssued? ==> r.code == freshCode && Did(Grant(digests.sha(cookie.value), q, digests.sha(freshCode)))
      ensures r.ConsentPage? ==> r.token == freshToken && csrfCookie
      ensures r.ConsentPage? || r.CsrfMissing? ==> Did(Ask(digests.sha(cookie.value), q, digests.sha(freshToken)))
      ensures !r.CodeIssued? && !r.ConsentPage? && !r.CsrfMissing? ==> Untouched()
      ensures fault == 0 && cookie.Some? && old(Authorized(Configuration(), now, digests.sha(cookie.value), q)) ==>
                var granted := old(ConsentOf(Tables(), sessions[digests.sha(cookie.value)].user,
                                             clients[q.clientId].app));
                if ContainsAll(granted, ScopeList(q.scope)) then digests.sha(freshCode) !in old(codes) ==> r.CodeIssued?
                else if q.promptNone then r == ErrorRedirect("consent_required")
                else digests.sha(freshToken) !in old(requests) ==> r.ConsentPage? || r.CsrfMissing?
    {
      var checked := ValidateAuthorizationRequest(q);
      if checked.Refused? {
        return checked.reply;
      }
      var client, scopes := checked.client, checked.scopes;
      var refused := CheckUser(cookie, q, client, fault);
      if refused.Some? {
        return refused.value;
      }
      hide QueryOk, Split;
      var session := digests.sha(cookie.value);
      var user := sessions[session].user;
      var key := (user, client.app);
      if fault == 2 {
        return Broken;
      }
      if key in consents && ContainsAll(consents[key], scopes) {
        var stored := StoreCode(session, q, client, user, Join(scopes), freshCode, fault == 3);
        return if stored then CodeIssued(freshCode) else Broken;
      }
      assert !ContainsAll(ConsentOf(Tables(), user, client.app), scopes) by {
        SplitAccepts(q.scope);
      }
      if q.promptNone {
        return ErrorRedirect("consent_required");
      }
      var stored := StoreRequest(session, q, client, user, Join(scopes), freshToken, fault == 4);
      if !stored {
        return Broken;
      }
      if !csrfCookie {
        return CsrfMissing;
      }
      return ConsentPage(freshToken);
    }

    /** storeAuthorizationCode: a digest already in the table breaks its unique constraint. */
    method StoreCode(session: Hash, q: Query, client: Client, user: Id, scope: string, freshCode: string, fails: bool)
        returns (ok: bool)
      requires Valid() && Authorized(Configuration(), now, session, q)
      requires ContainsAll(ConsentOf(Tables(), sessions[session].user, clients[q.clientId].app), ScopeList(q.scope))
      requires client == clients[q.clientId] && user == sessions[session].user && scope == StoredScope(q)
      modifies `requests, `codes, `refresh, `access, `consents, `history
      ensures ok <==> !fails && digests.sha(freshCode) !in old(codes)
      ensures ok ==> Did(Grant(session, q, digests.sha(freshCode)))
      ensures !ok ==> Untouched()
    {
      hide StoredScope, Authorized, QueryOk, Valid, ScopeList;
      if fails || digests.sha(freshCode) in codes {
        return false;
      }
      var code := Code(client.app, user, q.redirect, q.nonce, scope, q.challenge, now + 2 * MINUTE, None);
      Commit(Tables().(codes := codes[digests.sha(freshCode) := code]), Grant(session, q, digests.sha(freshCode)));
      ok := true;
    }

    /** The INSERT of a pending authorization request. */
    method StoreRequest(session: Hash, q: Query, client: Client, user: Id, scope: string, freshToken: string,
                        fails: bool) returns (ok: bool)
      requires Valid() && Authorized(Configuration(), now, session, q)
      requires client == clients[q.clientId] && user == sessions[session].user && scope == StoredScope(q)
      modifies `requests, `codes, `refresh, `access, `consents, `history
      ensures ok <==> !fails && digests.sha(freshToken) !in old(requests)
      ensures ok ==> Did(Ask(session, q, digests.sha(freshToken)))
      ensures !ok ==> Untouched()
    {
      hide StoredScope, Authorized, QueryOk, Valid;
      if fails || digests.sha(freshToken) in requests {
        return false;
      }
      var request := Request(client.app, user, q.redirect, q.nonce, scope, q.challenge, now + 5 * MINUTE, None);
      Commit(Tables().(requests := requests[digests.sha(freshToken) := request]),
             Ask(session, q, digests.sha(freshToken)));
      ok := true;
    }

    // ----- authorizeConsent -----

    method AuthorizeConsent(cookie: Option<string>, csrfMatches: bool, token: string, approve: bool, freshCode: string,
        fault: nat)
        returns (r: ConsentReply)
      requires Valid()
      modifies `requests, `codes, `refresh, `access, `consents, `history
      ensures r.Denied? || r.Approved? ==>
                && cookie.Some? && csrfMatches && approve == r.Approved?
                && old(PrincipalOf(users, sessions, digests.sha(cookie.value), now)).Some?
                && !old(PrincipalOf(users, sessions, digests.sha(cookie.value), now)).value.mustChangePassword
      ensures r.Denied? ==> Did(Deny(old(sessions[digests.sha(cookie.value)].user), digests.sha(token), now, now))
      ensures r.Approved? ==>
                && r.code == freshCode
                && digests.sha(token) in old(requests)
                && var user := old(sessions[digests.sha(cookie.value)].user);
                Did(Approve(user, digests.sha(token), digests.sha(freshCode),
                            old(ConsentOf(Tables(), user, requests[digests.sha(token)].app)), now, now))
      ensures !r.Denied? && !r.Approved? ==> Untouched()
      ensures fault == 0 && csrfMatches && cookie.Some? && token != "" && digests.sha(freshCode) !in old(codes)
              && old(PrincipalOf(users, sessions, digests.sha(cookie.value), now)).Some?
              && !old(PrincipalOf(users, sessions, digests.sha(cookie.value), now)).value.mustChangePassword
              && old(RequestUsable(Tables(), sessions[digests.sha(cookie.value)].user, digests.sha(token), now))
              ==> r.Denied? || r.Approved?
    {
      if !csrfMatches {
        return Rejected;
      }
      if cookie.None? {
        return Unauthenticated;
      }
      var p := PrincipalOf(users, sessions, digests.sha(cookie.value), now);
      if p.None? || p.value.mustChangePassword {
        return Unauthenticated;
      }
      if token == "" {
        return Invalid;
      }
      if fault == 1 {
        return ConsentBroken;
      }
      r := DecideRequest(p.value.user, digests.sha(token), approve, freshCode, fault);
    }

    /** The transaction of authorizeConsent for the signed-in user. */
    method DecideRequest(user: Id, key: Hash, approve: bool, freshCode: string, fault: nat) returns (r: ConsentReply)
      requires Valid()
      modifies `requests, `codes, `refresh, `access, `consents, `history
      ensures r.Denied? || r.Approved? ==> approve == r.Approved?
      ensures r.Denied? ==> Did(Deny(user, key, now, now))
      ensures r.Approved? ==>
                && r.code == freshCode && key in old(requests)
                && Did(Approve(user, key, digests.sha(freshCode), old(ConsentOf(Tables(), user, requests[key].app)),
                               now, now))
      ensures !r.Denied? && !r.Approved? ==> Untouched()
      ensures r.Invalid? <==>
                || fault == 2 || key !in old(requests)
                || old(requests[key].user != user || requests[key].consumedAt.Some? || requests[key].expires < now)
      ensures !r.Invalid? && !approve ==> r == if fault == 3 || fault == 4 then ConsentBroken else Denied
      ensures !r.Invalid? && approve ==>
                if fault == 3 || 5 <= fault <= 7 || digests.sha(freshCode) in old(codes) then r == ConsentBroken
                else r.Approved?
    {
      hide Enabled, Atomic, ApplyDb, Apply, IsAtomicRun, Split, Merge, Extend, Last, CodeFrom;
      var tx := Tables();
      if fault == 2 || key !in tx.requests {
        return Invalid;
      }
      var row := tx.requests[key];
      if row.user != user || row.consumedAt != None || now > row.expires {
        return Invalid;
      }
      if fault == 3 {
        return ConsentBroken;
      }
      if !approve {
        if fault == 4 {
          return ConsentBroken;
        }
        tx := tx.(requests := tx.requests[key := row.(consumedAt := Some(now))]);
        DenyIs(State(), user, key);
        Commit(tx, Deny(user, key, now, now));
        return Denied;
      }
      r := ApproveRequest(user, key, freshCode, fault);
    }

    /** The rest of that transaction when the user approves. */
    method ApproveRequest(user: Id, key: Hash, freshCode: string, fault: nat) returns (r: ConsentReply)
      requires Valid() && RequestUsable(Tables(), user, key, now)
      modifies `requests, `codes, `refresh, `access, `consents, `history
      ensures r.Approved? <==> (fault < 5 || fault > 7) && digests.sha(freshCode) !in old(codes)
      ensures r.Approved? ==>
                && r.code == freshCode
                && Did(Approve(user, key, digests.sha(freshCode), old(ConsentOf(Tables(), user, requests[key].app)),
                               now, now))
      ensures !r.Approved? ==> r == ConsentBroken && Untouched()
    {
      hide Enabled, Atomic, ApplyDb, Apply, IsAtomicRun, Split, Merge, Extend, Last, CodeFrom;
      var row := requests[key];
      var tx := Tables().(requests := requests[key := row.(consumedAt := Some(now))]);
      var requested := SplitScope(row.scope);
      if fault == 5 {
        return ConsentBroken;
      }
      var existing := if (user, row.app) in tx.consents then tx.consents[(user, row.app)] else [];
      var merged := MergeScopes(existing, if requested.Ok? then requested.value else []);
      tx := tx.(consents := tx.consents[(user, row.app) := merged]);
      if fault == 6 || digests.sha(freshCode) in tx.codes {
        return ConsentBroken;
      }
      tx := tx.(codes := tx.codes[digests.sha(freshCode) := CodeFrom(row, now + 2 * MINUTE)]);
      if fault == 7 {
        return ConsentBroken;
      }
      ApproveIs(State(), user, key, digests.sha(freshCode));
      Commit(tx, Approve(user, key, digests.sha(freshCode), existing, now, now));
      return Approved(freshCode);
    }

    // ----- token endpoint -----

    /** signIDToken: refused for a missing or inactive user. */
    method SignIdToken(user: Id, fault: nat) returns (ok: bool)
      ensures ok <==> fault != 13 && user in users && users[user].active
    {
      return fault != 13 && user in users && users[user].active;
    }

    /** issueAccessToken for a user, inside an open transaction. */
    method IssueAccessToken(tx: Db, client: Client, user: Id, scope: string, jti: Id, fault: nat)
        returns (r: Result<Db>)
      ensures r.Ok? <==> fault != 11 && fault != 12 && jti !in tx.access
      ensures r.Ok? ==>
                r.value == tx.(access := tx.access[jti := Access(client.app, Some(user), UserSubject(user), scope,
                                                                 now + client.accessTtl, None)])
    {
      if fault == 11 || fault == 12 || jti in tx.access {
        return Err;
      }
      return Ok(tx.(access := tx.access[jti := Access(client.app, Some(user), UserSubject(user), scope,
                                                      now + client.accessTtl, None)]));
    }

    /** issueUserTokens inside an open transaction. */
    method IssueUserTokens(tx: Db, client: Client, user: Id, scope: string, family: Id, parent: Option<Hash>,
        s: Secrets, fault: nat)
        returns (r: Result<Db>)
      ensures r.Ok? <==> && !(11 <= fault <= 14)
                         && MintFresh(tx, MintOf(client, s, digests, now))
                         && IdTokenOk(Configuration(), user, scope)
      ensures r.Ok? ==>
          r.value == MintTokens(tx, MintOf(client, s, digests, now), family, parent, client.app, user, scope)
    {
      hide Split;
      var access := IssueAccessToken(tx, client, user, scope, s.jti, fault);
      if access.Err? {
        return Err;
      }
      var scopes := SplitScope(scope);
      if scopes.Ok? && "openid" in scopes.value {
        var ok := SignIdToken(user, fault);
        if !ok {
          return Err;
        }
      }
      var w, key := access.value, digests.sha(s.refresh);
      if fault == 13 || fault == 14 || key in w.refresh {
        return Err;
      }
      w := w.(refresh := w.refresh[key := Refresh(family, parent, client.app, user, scope, now + client.refreshTtl,
                                                  None, None)]);
      return Ok(w);
    }

    /** authorizationCodeGrant. A code buys tokens exactly when every check passes and no
        call fails; otherwise every table is as before. */
    method AuthorizationCodeGrant(clientId: string, client: Client, code: string, redirect: string, verifier: string,
                                  family: Id, s: Secrets, fault: nat) returns (r: TokenReply)
      requires Valid() && LoadClient(Configuration(), clientId) == Some(client)
      requires FamilyRows(refresh, family) == {} // RandomUUID
      modifies `requests, `codes, `refresh, `access, `consents, `history
      ensures r.Tokens? <==>
                && (fault == 0 || fault > 14) && code != "" && redirect != "" && 43 <= |verifier| <= 128
                && (forall i :: 0 <= i < |verifier| ==>
                      || 'a' <= verifier[i] <= 'z' || 'A' <= verifier[i] <= 'Z' || '0' <= verifier[i] <= '9'
                      || verifier[i] == '-' || verifier[i] == '.' || verifier[i] == '_' || verifier[i] == '~')
                && digests.sha(code) in old(codes)
                && (var c := old(codes[digests.sha(code)]);
                    && c.app == client.app && c.redirect == redirect && c.consumedAt == None && now <= c.expires
                    && digests.s256(verifier) == c.challenge
                    && ("openid" in ScopeSet(c.scope) ==> c.user in users && users[c.user].active))
                && s.jti !in old(access) && digests.sha(s.refresh) !in old(refresh)
      ensures r.Tokens? ==>
                && r.jti == s.jti && r.refresh == s.refresh && r.scope == old(codes[digests.sha(code)].scope)
                && Did(Exchange(client.app, digests.sha(code), redirect, verifier, family,
                                MintOf(client, s, digests, now), now, now))
                && var c := old(codes[digests.sha(code)]);
                && codes == old(codes)[digests.sha(code) := c.(consumedAt := Some(now))]
                && refresh == old(refresh)[
                     digests.sha(s.refresh) := Refresh(family, None, client.app, c.user, c.scope,
                                                       now + client.refreshTtl, None, None)]
                && access == old(access)[
                     s.jti := Access(client.app, Some(c.user), UserSubject(c.user), c.scope,
                                     now + client.accessTtl, None)]
      ensures !r.Tokens? ==> Untouched()
    {
      if code == "" || redirect == "" || !ValidVerifier(verifier) {
        return InvalidRequest;
      }
      if fault == 1 {
        return ServerError;
      }
      var tx, key := Tables(), digests.sha(code);
      if 2 <= fault <= 8 || key !in tx.codes || tx.codes[key].app != client.app {
        return InvalidGrant;
      }
      var row := tx.codes[key];
      if row.consumedAt != None || now > row.expires || row.redirect != redirect
         || !VerifyPkce(digests, verifier, row.challenge) {
        return InvalidGrant;
      }
      if fault == 9 {
        return ServerError;
      }
      tx := tx.(codes := tx.codes[key := row.(consumedAt := Some(now))]);
      var issued := IssueUserTokens(tx, client, row.user, row.scope, family, None, s, fault);
      if issued.Err? || fault == 10 {
        return ServerError;
      }
      assert EnabledClientFor(Configuration(), clientId, client.app);
      Commit(issued.value,
             Exchange(client.app, key, redirect, verifier, family, MintOf(client, s, digests, now), now, now));
      return Tokens(s.jti, s.refresh, row.scope);
    }

    /** refreshTokenGrant. Presenting a spent or revoked token revokes the whole family and
        commits; a live one is replaced by its successor; anything else changes nothing. */
    method RefreshTokenGrant(clientId: string, client: Client, raw: string, s: Secrets, fault: nat)
        returns (r: TokenReply)
      requires Valid() && LoadClient(Configuration(), clientId) == Some(client)
      modifies `requests, `codes, `refresh, `access, `consents, `history
      ensures r.Tokens? <==>
                && (fault == 0 || fault > 14) && raw != "" && digests.sha(raw) in old(refresh)
                && (var t := old(refresh[digests.sha(raw)]);
                    && t.app == client.app && t.consumedAt == None && t.revokedAt == None && now <= t.expires
                    && ("openid" in ScopeSet(t.scope) ==> t.user in users && users[t.user].active))
                && s.jti !in old(access) && digests.sha(s.refresh) !in old(refresh)
      ensures r.Tokens? ==>
                && r.jti == s.jti && r.refresh == s.refresh && r.scope == old(refresh[digests.sha(raw)].scope)
                && Did(Rotate(client.app, digests.sha(raw), MintOf(client, s, digests, now), now, now))
                && var t := old(refresh[digests.sha(raw)]);
                && refresh == old(refresh)[digests.sha(raw) := t.(consumedAt := Some(now))][
                     digests.sha(s.refresh) := Refresh(t.family, Some(digests.sha(raw)), client.app, t.user, t.scope,
                                                       now + client.refreshTtl, None, None)]
                && access == old(access)[
                     s.jti := Access(client.app, Some(t.user), UserSubject(t.user), t.scope,
                                     now + client.accessTtl, None)]
      ensures r.ReuseDetected? <==>
                && raw != "" && !(1 <= fault <= 8)
                && digests.sha(raw) in old(refresh) && old(refresh[digests.sha(raw)].app) == client.app
                && (old(refresh[digests.sha(raw)].consumedAt).Some? || old(refresh[digests.sha(raw)].revokedAt).Some?)
      ensures r.ReuseDetected? && !(fault == 9 || fault == 10) ==>
                var family := old(refresh[digests.sha(raw)].family);
                && Did(Revoke(family, old(FamilyRows(refresh, family)), now))
                && refresh.Keys == old(refresh).Keys
                && forall h :: h in refresh ==>
                     if old(refresh[h].family) == family
                     then refresh[h].family == family && refresh[h].revokedAt.Some?
                     else refresh[h] == old(refresh[h])
      ensures !r.Tokens? && (r.ReuseDetected? ==> fault == 9 || fault == 10) ==> Untouched()
    {
      if raw == "" {
        return InvalidRequest;
      }
      if fault == 1 {
        return ServerError;
      }
      var tx, key := Tables(), digests.sha(raw);
      if 2 <= fault <= 8 || key !in tx.refresh || tx.refresh[key].app != client.app {
        return InvalidGrant;
      }
      var row := tx.refresh[key];
      if row.consumedAt != None || row.revokedAt != None {
        // a failing UPDATE or COMMIT is ignored
        if fault == 9 || fault == 10 {
          return ReuseDetected;
        }
        RevokeFamily(key);
        return ReuseDetected;
      }
      if now > row.expires {
        return Expired;
      }
      if fault == 9 {
        return ServerError;
      }
      tx := tx.(refresh := tx.refresh[key := row.(consumedAt := Some(now))]);
      var issued := IssueUserTokens(tx, client, row.user, row.scope, row.family, Some(key), s, fault);
      if issued.Err? || fault == 10 {
        return ServerError;
      }
      assert EnabledClientFor(Configuration(), clientId, client.app);
      Commit(issued.value, Rotate(client.app, key, MintOf(client, s, digests, now), now, now));
      return Tokens(s.jti, s.refresh, row.scope);
    }

    /** clientCredentialsGrant: confidential clients only, allowed scopes only, never `openid`. */
    method ClientCredentialsGrant(clientId: string, client: Client, rawScope: string, jti: Id, fault: nat)
        returns (r: TokenReply)
      requires Valid() && LoadClient(Configuration(), clientId) == Some(client)
      modifies `requests, `codes, `refresh, `access, `consents, `history
      ensures r.MachineToken? <==>
                && fault == 0 && !client.isPublic && jti !in old(access)
                && Split(rawScope).Ok? && "openid" !in Split(rawScope).value
                && forall x :: x in Split(rawScope).value ==> x in client.allowed
      ensures r.MachineToken? ==>
                && r.accessId == jti && ScopeList(r.granted) == Split(rawScope).value
                && Did(IssueMachine(client, r.granted, jti, now + client.accessTtl))
                && codes == old(codes) && refresh == old(refresh)
                && access == old(access)[
                     jti := Access(client.app, None, ClientSubject(client.clientId), r.granted,
                                   now + client.accessTtl, None)]
      ensures !r.MachineToken? ==> Untouched()
    {
      if client.isPublic {
        return Unauthorized;
      }
      var scopes := SplitScope(rawScope);
      if scopes.Err? || !ContainsAll(client.allowed, scopes.value) || "openid" in scopes.value {
        return InvalidScope;
      }
      if fault != 0 || jti in access {
        return ServerError;
      }
      var scope := Join(scopes.value);
      SplitJoinSplit(rawScope);
      var tx := Tables();
      tx := tx.(access := tx.access[jti := Access(client.app, None, ClientSubject(client.clientId), scope,
                                                  now + client.accessTtl, None)]);
      Commit(tx, IssueMachine(client, scope, jti, now + client.accessTtl));
      return MachineToken(jti, scope);
    }

    // ----- revocation and introspection -----

    /** The UPDATE of oauth_refresh_tokens by family_id that reuse and revocation share. */
    method RevokeFamily(key: Hash)
      requires Valid() && key in refresh
      modifies `requests, `codes, `refresh, `access, `consents, `history
      ensures
        var family := old(refresh[key].family);
        && Did(Revoke(family, old(FamilyRows(refresh, family)), now))
        && refresh.Keys == old(refresh).Keys
        && forall h :: h in refresh ==>
             if old(refresh[h].family) == family
             then refresh[h].family == family && refresh[h].revokedAt.Some?
             else refresh[h] == old(refresh[h])
    {
      var tx := Tables();
      var family := tx.refresh[key].family;
      var members := FamilyRows(tx.refresh, family);
      ghost var e := Revoke(family, members, now);
      assert key in members;
      AtomicRevokeKills(State(), e);
      Commit(tx.(refresh := RevokeRows(tx.refresh, members, now)), e);
    }

    /** revokeToken (section 2 of RFC 7009): a refresh token takes its whole family with it, an
        access token is revoked alone, and anything else changes nothing. */
    method RevokeToken(client: Client, raw: string, claims: Option<Claims>, fault: bool)
      requires Valid()
      modifies `requests, `codes, `refresh, `access, `consents, `history
      ensures !fault && raw != "" && digests.sha(raw) in old(refresh)
              && old(refresh[digests.sha(raw)].app) == client.app ==>
                var family := old(refresh[digests.sha(raw)].family);
                && Did(Revoke(family, old(FamilyRows(refresh, family)), now))
                && refresh.Keys == old(refresh).Keys
                && forall h :: h in refresh ==>
                     if old(refresh[h].family) == family
                     then refresh[h].family == family && refresh[h].revokedAt.Some?
                     else refresh[h] == old(refresh[h])
      ensures !fault && raw != "" && claims.Some? && client.clientId in claims.value.audience
              && !(digests.sha(raw) in old(refresh) && old(refresh[digests.sha(raw)].app) == client.app) ==>
                && Did(RevokeAccess(client.app, claims.value.jti, now))
                && (claims.value.jti in access && access[claims.value.jti].app == client.app ==>
                      access[claims.value.jti].revokedAt.Some?)
      ensures
        && !(digests.sha(raw) in old(refresh) && old(refresh[digests.sha(raw)].app) == client.app)
        && !(claims.Some? && client.clientId in claims.value.audience)
        ==> Untouched()
      ensures fault || raw == "" ==> Untouched()
    {
      if raw == "" || fault {
        return;
      }
      var key := digests.sha(raw);
      var tx := Tables();
      if key in tx.refresh && tx.refresh[key].app == client.app {
        RevokeFamily(key);
        return;
      }
      if claims.Some? && client.clientId in claims.value.audience {
        var jti := claims.value.jti;
        if jti in tx.access && tx.access[jti].app == client.app && tx.access[jti].revokedAt == None {
          tx := tx.(access := tx.access[jti := tx.access[jti].(revokedAt := Some(now))]);
        }
        Commit(tx, RevokeAccess(client.app, jti, now));
      }
    }

    /** introspectToken (section 2.2 of RFC 7662) after client authentication. */
    method Introspect(client: Client, raw: string, claims: Option<Claims>) returns (active: bool)
      requires !client.isPublic && raw != ""
      ensures digests.sha(raw) in refresh && refresh[digests.sha(raw)].app == client.app ==>
                && var t := refresh[digests.sha(raw)];
                active <==> t.consumedAt == None && t.revokedAt == None && now < t.expires
      ensures !(digests.sha(raw) in refresh && refresh[digests.sha(raw)].app == client.app) ==>
                (active <==> && claims.Some? && client.clientId in claims.value.audience
                             && claims.value.jti in access && access[claims.value.jti].app == client.app
                             && access[claims.value.jti].revokedAt == None && now < access[claims.value.jti].expires)
    {
      var key := digests.sha(raw);
      if key in refresh && refresh[key].app == client.app {
        var row := refresh[key];
        return row.consumedAt == None && row.revokedAt == None && now < row.expires;
      }
      if claims.None? || client.clientId !in claims.value.audience {
        return false;
      }
      var jti := claims.value.jti;
      if jti !in access || access[jti].app != client.app {
        return false;
      }
      return access[jti].revokedAt == None && now < access[jti].expires;
    }

    /** Whatever calls were made so far, the tables satisfy every law proved of runs. */
    lemma Guarantees()
      requires Valid()
      ensures ChainInv(refresh)
      ensures Balanced(Tables())
      ensures OpenidInv(Tables())
      ensures ConsentInv(Tables())
      ensures AllTraced(history, |history.events|, Tables())
      ensures TokensTraced(history, |history.events|, Tables())
    {
      var n := |history.events|;
      EveryFamilyIsAChain(history, n);
      TokensAreConserved(history, n);
      EveryUserGrantHasOpenid(history, n);
      GrantsStayWithinConsent(history, n);
      CodesComeFromAuthorize(history, n);
      TokensComeFromExchange(history, n);
    }
  }
}
