/**
  The laws of the grant tables said outright: every statement here is about columns of the
  tables and fields of a request, with no predicate of the model in between. They hold of
  every run, including those of interleaved transactions, unless they say "atomic".
 */
module GrantLaws {
  import opened Accounts
  import opened Scopes
  import opened Ledger
  import opened Families
  import opened Conservation
  import opened Provenance

  // ----- Authorize -----

  /** A code was stored because of an authorize step `j`, at most seven minutes before it
      expires, in whose state the client was enabled, the redirect URI registered for it, PKCE
      S256 present, every scope allowed, the session live and of an active user without a
      pending password change, and the second factor done where any rule binds the user
      (sections 3.3 and 4.1.2 of RFC 6749). */
  lemma CodeWasAuthorized(run: Run, i: nat, h: Hash) returns (j: nat)
    requires IsRun(run) && i < |run.worlds| && h in run.worlds[i].db.codes
    ensures j < i && (run.events[j].Ask? || run.events[j].Grant?)
    ensures
      var c := run.worlds[i].db.codes[h];
      var env, now, q, s := run.worlds[j].env, run.worlds[j].now, run.events[j].query, run.events[j].session;
      && q.clientId in env.clients && env.clients[q.clientId].enabled && env.clients[q.clientId].app == c.app
      && (c.app, c.redirect) in env.redirects && q.redirect == c.redirect
      && q.responseType == "code" && q.state != ""
      && q.challengeMethod == "S256" && q.challenge != "" && q.challenge == c.challenge && q.nonce == c.nonce
      && ScopeSet(c.scope) == ScopeSet(q.scope) && "openid" in ScopeSet(c.scope)
      && (forall x :: x in ScopeSet(c.scope) ==> x in env.clients[q.clientId].allowed)
      && s in env.sessions && env.sessions[s].user == c.user
      && !env.sessions[s].revoked && now < env.sessions[s].expires
      && c.user in env.users && env.users[c.user].active && !env.users[c.user].mustChangePassword
      && (env.policy.everyone ==> env.sessions[s].mfaVerified)
      && (forall g :: g in env.policy.groups && (g, c.user) in env.policy.members ==> env.sessions[s].mfaVerified)
      && (c.app in env.policy.apps ==> env.sessions[s].mfaVerified)
      && c.expires <= now + 420_000_000
  {
    hide IsRun, Enabled, ScopeSet;
    CodesComeFromAuthorize(run, i);
    var c := run.worlds[i].db.codes[h];
    assert CodeTraced(run, i, c);
    assert Traced(run, i, c.user, c.app, c.redirect, c.scope, c.challenge, c.nonce, c.expires, 7 * MINUTE);
    j :| 0 <= j < i && AuthorizeStep(run, j, c.user, c.app, c.redirect, c.scope, c.challenge, c.nonce)
         && c.expires <= run.worlds[j].now + 7 * MINUTE;
    RunLength(run);
    StepWasChecked(run, j, c.user, c.app, c.redirect, c.scope, c.challenge, c.nonce);
  }

  /** And so was every pending request, at most five minutes before it expires. */
  lemma RequestWasAuthorized(run: Run, i: nat, h: Hash) returns (j: nat)
    requires IsRun(run) && i < |run.worlds| && h in run.worlds[i].db.requests
    ensures j < i && (run.events[j].Ask? || run.events[j].Grant?)
    ensures
      var r := run.worlds[i].db.requests[h];
      var env, now, q, s := run.worlds[j].env, run.worlds[j].now, run.events[j].query, run.events[j].session;
      && q.clientId in env.clients && env.clients[q.clientId].enabled && env.clients[q.clientId].app == r.app
      && (r.app, r.redirect) in env.redirects && q.redirect == r.redirect
      && q.responseType == "code" && q.state != ""
      && q.challengeMethod == "S256" && q.challenge != "" && q.challenge == r.challenge && q.nonce == r.nonce
      && ScopeSet(r.scope) == ScopeSet(q.scope) && "openid" in ScopeSet(r.scope)
      && (forall x :: x in ScopeSet(r.scope) ==> x in env.clients[q.clientId].allowed)
      && s in env.sessions && env.sessions[s].user == r.user
      && !env.sessions[s].revoked && now < env.sessions[s].expires
      && r.user in env.users && env.users[r.user].active && !env.users[r.user].mustChangePassword
      && (env.policy.everyone ==> env.sessions[s].mfaVerified)
      && (forall g :: g in env.policy.groups && (g, r.user) in env.policy.members ==> env.sessions[s].mfaVerified)
      && (r.app in env.policy.apps ==> env.sessions[s].mfaVerified)
      && r.expires <= now + 300_000_000
  {
    hide IsRun, Enabled, ScopeSet;
    CodesComeFromAuthorize(run, i);
    var r := run.worlds[i].db.requests[h];
    assert RequestTraced(run, i, r);
    assert Traced(run, i, r.user, r.app, r.redirect, r.scope, r.challenge, r.nonce, r.expires, 5 * MINUTE);
    j :| 0 <= j < i && AuthorizeStep(run, j, r.user, r.app, r.redirect, r.scope, r.challenge, r.nonce)
         && r.expires <= run.worlds[j].now + 5 * MINUTE;
    RunLength(run);
    StepWasChecked(run, j, r.user, r.app, r.redirect, r.scope, r.challenge, r.nonce);
  }

  lemma RunLength(run: Run)
    requires IsRun(run)
    ensures |run.worlds| == |run.events| + 1
  {
  }

  lemma StepWasChecked(run: Run, j: nat, user: Id, app: Id, redirect: string, scope: string,
      challenge: string, nonce: string)
    requires AuthorizeStep(run, j, user, app, redirect, scope, challenge, nonce)
    ensures run.events[j].Ask? || run.events[j].Grant?
    ensures
      var env, now, q, s := run.worlds[j].env, run.worlds[j].now, run.events[j].query, run.events[j].session;
      && q.clientId in env.clients && env.clients[q.clientId].enabled && env.clients[q.clientId].app == app
      && (app, redirect) in env.redirects && q.redirect == redirect
      && q.responseType == "code" && q.state != ""
      && q.challengeMethod == "S256" && q.challenge != "" && q.challenge == challenge && q.nonce == nonce
      && ScopeSet(scope) == ScopeSet(q.scope) && "openid" in ScopeSet(scope)
      && (forall x :: x in ScopeSet(scope) ==> x in env.clients[q.clientId].allowed)
      && s in env.sessions && env.sessions[s].user == user
      && !env.sessions[s].revoked && now < env.sessions[s].expires
      && user in env.users && env.users[user].active && !env.users[user].mustChangePassword
      && (env.policy.everyone ==> env.sessions[s].mfaVerified)
      && (forall g :: g in env.policy.groups && (g, user) in env.policy.members ==> env.sessions[s].mfaVerified)
      && (app in env.policy.apps ==> env.sessions[s].mfaVerified)
  {
    hide Split, Join, StoredScope;
    var q := run.events[j].query;
    StoredScopeReadsBack(q);
  }

  // ----- The code exchange -----

  /** Every exchange is of a live code of the same client, repeats its redirect URI, and presents
      a verifier of 43 to 128 unreserved characters (section 4.1 of RFC 7636) whose S256 digest is
      the challenge of the authorize step `j` (section 4.6), at most seven minutes after it. */
  lemma ExchangeWasChecked(run: Run, k: nat) returns (j: nat)
    requires IsRun(run) && k < |run.events| && run.events[k].Exchange?
    ensures
      var w, e := run.worlds[k], run.events[k];
      && e.code in w.db.codes
      && var c := w.db.codes[e.code];
      && c.app == e.app && c.redirect == e.redirect && c.consumedAt == None
      && e.started <= e.at <= c.expires && e.at <= w.now
      && w.env.digests.s256(e.verifier) == c.challenge
    ensures
      var v := run.events[k].verifier;
      && 43 <= |v| <= 128
      && forall i :: 0 <= i < |v| ==>
           || 'a' <= v[i] <= 'z' || 'A' <= v[i] <= 'Z' || '0' <= v[i] <= '9'
           || v[i] == '-' || v[i] == '.' || v[i] == '_' || v[i] == '~'
    ensures
      && j < k && (run.events[j].Ask? || run.events[j].Grant?)
      && run.events[j].query.redirect == run.events[k].redirect
      && run.worlds[j].env.digests.s256(run.events[k].verifier) == run.events[j].query.challenge
      && run.events[k].at <= run.worlds[j].now + 420_000_000
  {
    hide Authorized, StoredScope, IsRun, ScopeSet;
    RunLength(run);
    StepIsEnabled(run, k);
    var e := run.events[k];
    j := CodeWasAuthorized(run, k, e.code);
    SameDigests(run, j, k);
  }

  lemma StepIsEnabled(run: Run, k: nat)
    requires IsRun(run) && k < |run.events|
    ensures Enabled(run.worlds[k], run.events[k]) && run.worlds[k + 1] == Apply(run.worlds[k], run.events[k])
  {
    assert StepAt(run, k);
  }

  lemma SameDigests(run: Run, j: nat, k: nat)
    requires IsRun(run) && j <= k < |run.worlds|
    ensures run.worlds[j].env.digests == run.worlds[k].env.digests && run.worlds[j].now <= run.worlds[k].now
  {
    ClockMonotone(run, j, k);
  }

  /** What an exchange leaves: the code used up, one refresh token that starts a new family, and
      one access token, all for the code's user, application and scope; nothing else. */
  lemma ExchangeLeaves(run: Run, k: nat)
    requires IsRun(run) && k < |run.events| && run.events[k].Exchange?
    ensures
      var e, before, after := run.events[k], run.worlds[k].db, run.worlds[k + 1].db;
      && e.code in before.codes && e.mint.token !in before.refresh && e.mint.jti !in before.access
      && (forall h :: h in before.refresh ==> before.refresh[h].family != e.family)
      && var c := before.codes[e.code];
      && after.codes == before.codes[e.code := c.(consumedAt := Some(e.started))]
      && after.refresh == before.refresh[
           e.mint.token := Refresh(e.family, None, c.app, c.user, c.scope, e.mint.refreshExpires, None, None)]
      && after.access == before.access[
           e.mint.jti := Access(c.app, Some(c.user), UserSubject(c.user), c.scope, e.mint.accessExpires, None)]
      && after.requests == before.requests && after.consents == before.consents
  {
    StepIsEnabled(run, k);
    var e, db := run.events[k], run.worlds[k].db;
    assert FamilyRows(db.refresh, e.family) == {};
    forall h | h in db.refresh ensures db.refresh[h].family != e.family {
      assert h !in FamilyRows(db.refresh, e.family);
    }
  }

  // ----- Refresh, reuse and revocation -----

  /** Every rotation is of a token of the same client that is neither consumed nor revoked nor
      past its expiry; it is consumed and gains one successor in its family with the same
      grant, and one access token; nothing else changes (section 6 of RFC 6749). */
  lemma RotationWasChecked(run: Run, k: nat)
    requires IsRun(run) && k < |run.events| && run.events[k].Rotate?
    ensures
      var e, before, after := run.events[k], run.worlds[k].db, run.worlds[k + 1].db;
      && e.token in before.refresh && e.mint.token !in before.refresh && e.mint.jti !in before.access
      && var r := before.refresh[e.token];
      && r.app == e.app && r.consumedAt == None && r.revokedAt == None
      && e.started <= e.at <= r.expires && e.at <= run.worlds[k].now
      && after.refresh == before.refresh[e.token := r.(consumedAt := Some(e.started))][
           e.mint.token := Refresh(r.family, Some(e.token), r.app, r.user, r.scope, e.mint.refreshExpires, None, None)]
      && after.access == before.access[
           e.mint.jti := Access(r.app, Some(r.user), UserSubject(r.user), r.scope, e.mint.accessExpires, None)]
      && after.codes == before.codes && after.requests == before.requests && after.consents == before.consents
  {
    StepIsEnabled(run, k);
  }

  /** A revocation marks the rows it reached, keeps the first time of those marked before, and
      changes nothing else. */
  lemma RevocationLeaves(run: Run, k: nat)
    requires IsRun(run) && k < |run.events| && run.events[k].Revoke?
    ensures
      var e, before, after := run.events[k], run.worlds[k].db, run.worlds[k + 1].db;
      && (forall h :: h in e.rows ==> h in before.refresh && before.refresh[h].family == e.family)
      && after.refresh.Keys == before.refresh.Keys
      && (forall h :: h in before.refresh ==>
            after.refresh[h] == if h in e.rows && before.refresh[h].revokedAt == None
                                then before.refresh[h].(revokedAt := Some(e.started)) else before.refresh[h])
      && after.codes == before.codes && after.requests == before.requests && after.consents == before.consents
      && after.access == before.access
  {
    StepIsEnabled(run, k);
    var e, before := run.events[k], run.worlds[k].db;
    assert forall h :: h in e.rows ==> h in FamilyRows(before.refresh, e.family);
  }

  /** Once every member of a family is revoked, then in every continuation the family has no
      other members, they stay revoked, and none of them is rotated. */
  lemma RevokedFamilyStaysRevoked(run: Run, family: Id, i: nat, j: nat)
    requires IsRun(run) && i <= j < |run.worlds|
    requires exists h :: h in run.worlds[i].db.refresh && run.worlds[i].db.refresh[h].family == family
    requires forall h :: h in run.worlds[i].db.refresh && run.worlds[i].db.refresh[h].family == family ==>
               run.worlds[i].db.refresh[h].revokedAt.Some?
    ensures forall h :: h in run.worlds[j].db.refresh && run.worlds[j].db.refresh[h].family == family ==>
              && h in run.worlds[i].db.refresh && run.worlds[i].db.refresh[h].family == family
              && run.worlds[j].db.refresh[h].revokedAt.Some?
    ensures forall k :: i <= k < j && run.events[k].Rotate? ==>
              && run.events[k].token in run.worlds[k].db.refresh
              && run.worlds[k].db.refresh[run.events[k].token].family != family
  {
    hide IsRun, ReportedActive, RefreshUsable;
    var h0 :| h0 in run.worlds[i].db.refresh && run.worlds[i].db.refresh[h0].family == family;
    assert h0 in FamilyRows(run.worlds[i].db.refresh, family);
    DeadForever(run, family, i, j);
    forall h | h in run.worlds[j].db.refresh && run.worlds[j].db.refresh[h].family == family
      ensures h in run.worlds[i].db.refresh && run.worlds[i].db.refresh[h].family == family
      ensures run.worlds[j].db.refresh[h].revokedAt.Some?
    {
      assert h in FamilyRows(run.worlds[j].db.refresh, family);
      assert h in FamilyRows(run.worlds[i].db.refresh, family);
    }
  }

  /** The shape of families: a token is consumed exactly when another member names it as parent;
      two members have no common parent, one root and one unconsumed member; and all members
      have the same application, user and scope. */
  lemma FamiliesAreChains(run: Run, i: nat, a: Hash)
    requires IsRun(run) && i < |run.worlds| && a in run.worlds[i].db.refresh
    ensures
      var t := run.worlds[i].db.refresh;
      && (t[a].consumedAt.Some? <==> exists b :: b in t && t[b].family == t[a].family && t[b].parent == Some(a))
      && (forall b, c ::
            b in t && c in t && t[b].family == t[c].family == t[a].family && t[b].parent == t[c].parent ==> b == c)
      && (exists b :: b in t && t[b].family == t[a].family && t[b].parent == None)
      && (exists b :: b in t && t[b].family == t[a].family && t[b].consumedAt == None)
      && (forall b, c ::
            b in t && c in t && t[b].family == t[c].family == t[a].family && t[b].consumedAt == t[c].consumedAt == None
            ==> b == c)
      && (forall b :: b in t && t[b].family == t[a].family ==>
            t[b].app == t[a].app && t[b].user == t[a].user && t[b].scope == t[a].scope)
  {
    hide IsRun;
    EveryFamilyIsAChain(run, i);
    OneFamily(run.worlds[i].db.refresh, a);
  }

  lemma OneFamily(t: map<Hash, Refresh>, a: Hash)
    requires ChainInv(t) && a in t
    ensures t[a].consumedAt.Some? <==> exists b :: b in t && t[b].family == t[a].family && t[b].parent == Some(a)
    ensures forall b, c ::
              b in t && c in t && t[b].family == t[c].family == t[a].family && t[b].parent == t[c].parent ==> b == c
    ensures exists b :: b in t && t[b].family == t[a].family && t[b].parent == None
    ensures exists b :: b in t && t[b].family == t[a].family && t[b].consumedAt == None
    ensures forall b, c ::
              b in t && c in t && t[b].family == t[c].family == t[a].family
              && t[b].consumedAt == None && t[c].consumedAt == None
              ==> b == c
    ensures forall b :: b in t && t[b].family == t[a].family ==>
              t[b].app == t[a].app && t[b].user == t[a].user && t[b].scope == t[a].scope
  {
    var family := t[a].family;
    assert a in FamilyRows(t, family);
    var chain :| IsChain(t, family, chain);
    var k := IndexOf(t, family, chain, a);
    var last := |chain| - 1;
    assert Link(t, family, chain, 0) && Link(t, family, chain, last);
    forall b | b in t && t[b].family == family
      ensures t[b].app == t[a].app && t[b].user == t[a].user && t[b].scope == t[a].scope
      ensures t[b].consumedAt == None ==> b == chain[last]
      ensures t[b].parent == None ==> b == chain[0]
    {
      assert b in FamilyRows(t, family);
      var n := IndexOf(t, family, chain, b);
    }
    if t[a].consumedAt.Some? {
      assert Link(t, family, chain, k + 1);
      assert t[chain[k + 1]].parent == Some(a);
    }
    forall b | b in t && t[b].family == family && t[b].parent == Some(a) ensures t[a].consumedAt.Some? {
      assert b in FamilyRows(t, family);
      var n := IndexOf(t, family, chain, b);
      assert chain[n - 1] == a == chain[k];
    }
    forall b, c | b in t && c in t && t[b].family == t[c].family == family && t[b].parent == t[c].parent
      ensures b == c
    {
      SameParent(t, family, chain, b, c);
    }
  }

  lemma SameParent(t: map<Hash, Refresh>, family: Id, chain: seq<Hash>, b: Hash, c: Hash)
    requires IsChain(t, family, chain) && b in FamilyRows(t, family) && c in FamilyRows(t, family)
    requires t[b].parent == t[c].parent
    ensures b == c
  {
    var m, n := IndexOf(t, family, chain, b), IndexOf(t, family, chain, c);
    if m > 0 && n > 0 {
      assert chain[m - 1] == chain[n - 1];
    }
  }

  // ----- Consent forms -----

  /** Every approval is of a pending, unused and unexpired request of that very user; it uses the
      request up, records the list it started from and the requested scopes, and stores one
      code with the request's user, application, redirect URI, scope, challenge and nonce that
      lives two minutes. */
  lemma ApprovalWasChecked(run: Run, k: nat)
    requires IsRun(run) && k < |run.events| && run.events[k].Approve?
    ensures
      var e, before, after := run.events[k], run.worlds[k].db, run.worlds[k + 1].db;
      && e.token in before.requests && e.code !in before.codes
      && var r := before.requests[e.token];
      && r.user == e.user && r.consumedAt == None && e.started <= e.at <= r.expires && e.at <= run.worlds[k].now
      && after.requests == before.requests[e.token := r.(consumedAt := Some(e.started))]
      && after.codes == before.codes[
           e.code := Code(r.app, r.user, r.redirect, r.nonce, r.scope, r.challenge, e.started + 120_000_000, None)]
      && (r.user, r.app) in after.consents
      && Elements(after.consents[(r.user, r.app)]) == Elements(e.base) + ScopeSet(r.scope)
      && (forall p :: p != (r.user, r.app) ==>
            (p in after.consents <==> p in before.consents)
            && (p in before.consents ==> after.consents[p] == before.consents[p]))
      && after.refresh == before.refresh && after.access == before.access
  {
    hide ScopeList, Merge;
    StepIsEnabled(run, k);
    var e := run.events[k];
    MergeProperties(e.base, ScopeList(run.worlds[k].db.requests[e.token].scope));
  }

  /** A denial uses up a pending request of that very user and does nothing else. */
  lemma DenialWasChecked(run: Run, k: nat)
    requires IsRun(run) && k < |run.events| && run.events[k].Deny?
    ensures
      var e, before, after := run.events[k], run.worlds[k].db, run.worlds[k + 1].db;
      && e.token in before.requests
      && var r := before.requests[e.token];
      && r.user == e.user && r.consumedAt == None && e.started <= e.at <= r.expires
      && after == before.(requests := before.requests[e.token := r.(consumedAt := Some(e.started))])
  {
    StepIsEnabled(run, k);
  }

  /** A code is granted without a form only within recorded consent, and lives two minutes; a
      request waits five. */
  lemma AuthorizeLeaves(run: Run, k: nat)
    requires IsRun(run) && k < |run.events| && (run.events[k].Grant? || run.events[k].Ask?)
    ensures
      var e, w, after := run.events[k], run.worlds[k], run.worlds[k + 1].db;
      && e.query.clientId in w.env.clients && e.session in w.env.sessions
      && var user, app := w.env.sessions[e.session].user, w.env.clients[e.query.clientId].app;
      && (e.Grant? ==>
            && e.code !in w.db.codes && (user, app) in w.db.consents
            && ScopeSet(e.query.scope) <= Elements(w.db.consents[(user, app)])
            && e.code in after.codes
            && after == w.db.(codes := w.db.codes[e.code := after.codes[e.code]])
            && after.codes[e.code] == Code(app, user, e.query.redirect, e.query.nonce, after.codes[e.code].scope,
                                           e.query.challenge, w.now + 120_000_000, None)
            && ScopeSet(after.codes[e.code].scope) == ScopeSet(e.query.scope))
      && (e.Ask? ==>
            && e.token !in w.db.requests && e.token in after.requests
            && after == w.db.(requests := w.db.requests[e.token := after.requests[e.token]])
            && after.requests[e.token] == Request(app, user, e.query.redirect, e.query.nonce,
                                                  after.requests[e.token].scope, e.query.challenge,
                                                  w.now + 300_000_000, None)
            && ScopeSet(after.requests[e.token].scope) == ScopeSet(e.query.scope))
  {
    hide Split, Join;
    StepIsEnabled(run, k);
    var e, w := run.events[k], run.worlds[k];
    StoredScopeReadsBack(e.query);
    if e.Grant? {
      SomeScope(e.query);
    }
  }

  lemma SomeScope(q: Query)
    requires Split(q.scope).Ok? && "openid" in Split(q.scope).value
    ensures ScopeList(q.scope) != [] && "openid" in ScopeList(q.scope)
  {
    hide Split;
  }

  // ----- Counts, consent and users -----

  /** Conservation: refresh tokens = consumed codes + consumed refresh tokens, user access tokens =
      refresh tokens, and unconsumed refresh tokens = families = consumed codes. */
  lemma TokensAddUp(run: Run, i: nat)
    requires IsRun(run) && i < |run.worlds|
    ensures
      var db := run.worlds[i].db;
      && |db.refresh.Keys| == |set h | h in db.codes && db.codes[h].consumedAt.Some?|
                              + |set h | h in db.refresh && db.refresh[h].consumedAt.Some?|
      && |set j | j in db.access && db.access[j].user.Some?| == |db.refresh.Keys|
      && |set h | h in db.refresh && db.refresh[h].consumedAt == None|
         == |set h | h in db.refresh :: db.refresh[h].family|
      && |set h | h in db.refresh :: db.refresh[h].family| == |set h | h in db.codes && db.codes[h].consumedAt.Some?|
  {
    hide IsRun;
    TokensAreConserved(run, i);
    var db := run.worlds[i].db;
    assert (set h | h in db.codes && db.codes[h].consumedAt.Some?) == ConsumedCodes(db.codes);
    assert (set h | h in db.refresh && db.refresh[h].consumedAt.Some?) == ConsumedRefresh(db.refresh);
    assert (set j | j in db.access && db.access[j].user.Some?) == UserAccess(db.access);
    assert (set h | h in db.refresh && db.refresh[h].consumedAt == None) == UnconsumedRefresh(db.refresh);
    assert (set h | h in db.refresh :: db.refresh[h].family) == FamilyIds(db.refresh);
  }

  /** Every grant to a user is for `openid` at least; machine tokens never are (AccessSteps). */
  lemma UsersGrantOpenid(run: Run, i: nat)
    requires IsRun(run) && i < |run.worlds|
    ensures
      var db := run.worlds[i].db;
      && (forall h :: h in db.requests ==> "openid" in ScopeSet(db.requests[h].scope))
      && (forall h :: h in db.codes ==> "openid" in ScopeSet(db.codes[h].scope))
      && (forall h :: h in db.refresh ==> "openid" in ScopeSet(db.refresh[h].scope))
      && (forall j :: j in db.access && db.access[j].user.Some? ==> "openid" in ScopeSet(db.access[j].scope))
  {
    hide IsRun;
    EveryUserGrantHasOpenid(run, i);
  }

  /** Atomic runs: a confidential client gets a token for itself, for allowed scopes, for as long
      as its settings say. */
  lemma MachineTokens(run: Run, k: nat)
    requires IsAtomicRun(run) && k < |run.events| && run.events[k].IssueMachine?
    ensures
      var e := run.events[k];
      && !e.client.isPublic && e.expires == run.worlds[k].now + e.client.accessTtl
      && forall x :: x in ScopeSet(e.scope) ==> x in e.client.allowed
  {
    assert Atomic(run.worlds[k], run.events[k]);
  }

  /** Atomic runs: tokens are issued to active users only, by an enabled client of the same
      application, and live as long as that client's settings say. */
  lemma IssuedWithinLifetimes(run: Run, k: nat) returns (id: string)
    requires IsAtomicRun(run) && k < |run.events| && (run.events[k].Exchange? || run.events[k].Rotate?)
    ensures
      var e, w := run.events[k], run.worlds[k];
      && id in w.env.clients && w.env.clients[id].enabled && w.env.clients[id].app == e.app
      && e.mint.accessExpires == w.now + w.env.clients[id].accessTtl
      && e.mint.refreshExpires == w.now + w.env.clients[id].refreshTtl
      && e.at == e.started == w.now
    ensures
      var e, w := run.events[k], run.worlds[k];
      && (e.Exchange? ==>
            && e.code in w.db.codes && w.db.codes[e.code].user in w.env.users
            && w.env.users[w.db.codes[e.code].user].active)
      && (e.Rotate? ==>
            && e.token in w.db.refresh && w.db.refresh[e.token].user in w.env.users
            && w.env.users[w.db.refresh[e.token].user].active)
  {
    hide Enabled, IdTokenOk;
    TokensOnlyForActiveUsers(run, k);
    assert Atomic(run.worlds[k], run.events[k]);
    var e, w := run.events[k], run.worlds[k];
    id :| EnabledClientFor(w.env, id, e.app) && MintTimes(w.env.clients[id], e.mint, w.now);
  }

  /** Atomic runs: every scope of every stored code, refresh token and user access token is in the
      recorded consent of its user and application, and consent only grows. */
  lemma ScopesWithinConsent(run: Run, i: nat)
    requires IsAtomicRun(run) && i < |run.worlds|
    ensures
      var db := run.worlds[i].db;
      && (forall h, x :: h in db.codes && x in ScopeSet(db.codes[h].scope) ==>
            (db.codes[h].user, db.codes[h].app) in db.consents
            && x in db.consents[(db.codes[h].user, db.codes[h].app)])
      && (forall h, x :: h in db.refresh && x in ScopeSet(db.refresh[h].scope) ==>
            (db.refresh[h].user, db.refresh[h].app) in db.consents
            && x in db.consents[(db.refresh[h].user, db.refresh[h].app)])
      && (forall j, x :: j in db.access && db.access[j].user.Some? && x in ScopeSet(db.access[j].scope) ==>
            (db.access[j].user.value, db.access[j].app) in db.consents
            && x in db.consents[(db.access[j].user.value, db.access[j].app)])
    ensures i > 0 ==>
      var before, after := run.worlds[i - 1].db.consents, run.worlds[i].db.consents;
      forall p, x :: p in before && x in before[p] ==> p in after && x in after[p]
  {
    hide IsAtomicRun, ScopeSet;
    GrantsStayWithinConsent(run, i);
    var db := run.worlds[i].db;
    forall h, x | h in db.codes && x in ScopeSet(db.codes[h].scope)
      ensures (db.codes[h].user, db.codes[h].app) in db.consents
      ensures x in db.consents[(db.codes[h].user, db.codes[h].app)]
    {
      assert Within(db.consents, db.codes[h].user, db.codes[h].app, db.codes[h].scope);
    }
    forall h, x | h in db.refresh && x in ScopeSet(db.refresh[h].scope)
      ensures (db.refresh[h].user, db.refresh[h].app) in db.consents
      ensures x in db.consents[(db.refresh[h].user, db.refresh[h].app)]
    {
      assert Within(db.consents, db.refresh[h].user, db.refresh[h].app, db.refresh[h].scope);
    }
    forall j, x | j in db.access && db.access[j].user.Some? && x in ScopeSet(db.access[j].scope)
      ensures (db.access[j].user.value, db.access[j].app) in db.consents
      ensures x in db.consents[(db.access[j].user.value, db.access[j].app)]
    {
      assert Within(db.consents, db.access[j].user.value, db.access[j].app, db.access[j].scope);
    }
    if i > 0 {
      var before, after := run.worlds[i - 1].db.consents, run.worlds[i].db.consents;
      forall p, x | p in before && x in before[p] ensures p in after && x in after[p] {
        assert Granted(before, p.0, p.1) <= Granted(after, p.0, p.1);
        assert x in Granted(before, p.0, p.1);
      }
    }
  }

  /** Every refresh token comes from one exchange of a code of the same user, application and
      scope, which started its family; every user access token from such an exchange too. */
  lemma TokenWasExchanged(run: Run, i: nat, h: Hash) returns (k: nat)
    requires IsRun(run) && i < |run.worlds| && h in run.worlds[i].db.refresh
    ensures k < i && run.events[k].Exchange? && run.events[k].code in run.worlds[k].db.codes
    ensures
      var t, c := run.worlds[i].db.refresh[h], run.worlds[k].db.codes[run.events[k].code];
      c.user == t.user && c.app == t.app && c.scope == t.scope && run.events[k].family == t.family
  {
    hide IsRun;
    TokensComeFromExchange(run, i);
    RunLength(run);
    var t := run.worlds[i].db.refresh[h];
    assert RefreshTraced(run, i, t.family, t.user, t.app, t.scope);
    k :| 0 <= k < i && ExchangeStep(run, k, t.user, t.app, t.scope) && run.events[k].family == t.family;
  }

  lemma AccessTokenWasExchanged(run: Run, i: nat, j: Id) returns (k: nat)
    requires IsRun(run) && i < |run.worlds| && j in run.worlds[i].db.access && run.worlds[i].db.access[j].user.Some?
    ensures k < i && run.events[k].Exchange? && run.events[k].code in run.worlds[k].db.codes
    ensures
      var t, c := run.worlds[i].db.access[j], run.worlds[k].db.codes[run.events[k].code];
      c.user == t.user.value && c.app == t.app && c.scope == t.scope
  {
    hide IsRun;
    TokensComeFromExchange(run, i);
    RunLength(run);
    var t := run.worlds[i].db.access[j];
    assert AccessTraced(run, i, t.user.value, t.app, t.scope);
    k :| 0 <= k < i && ExchangeStep(run, k, t.user.value, t.app, t.scope);
  }

  /** Machine tokens and the revocation of single access tokens. */
  lemma AccessSteps(run: Run, k: nat)
    requires IsRun(run) && k < |run.events|
    ensures
      var e, before, after := run.events[k], run.worlds[k].db, run.worlds[k + 1].db;
      && (e.IssueMachine? ==>
            && e.jti !in before.access && "openid" !in ScopeSet(e.scope)
            && after == before.(access := before.access[
                 e.jti := Access(e.client.app, None, ClientSubject(e.client.clientId), e.scope, e.expires, None)]))
      && (e.RevokeAccess? ==>
            && after == before.(access := after.access) && after.access.Keys == before.access.Keys
            && forall j :: j in before.access ==>
                 after.access[j] == if j == e.jti && before.access[j].app == e.app && before.access[j].revokedAt == None
                                    then before.access[j].(revokedAt := Some(e.started)) else before.access[j])
  {
    hide ScopeList;
    StepIsEnabled(run, k);
  }
}
