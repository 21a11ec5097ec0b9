/**
  Where every grant comes from (sections 4.1.2 and 4.1.3 of RFC 6749). Following the rows
  back through the run ends at one authorize step in which the redirect URI was registered,
  the scopes were allowed, PKCE S256 was present, no password change was pending and the
  MFA rule was met: that is what `Authorized` says of the state before that step.
  Holds for every run, including those of interleaved transactions.
 */
module Provenance {
  import opened Accounts
  import opened Scopes
  import opened Ledger

  /** Event `j` is an authorize step for this user, application and query. */
  ghost predicate AuthorizeStep(run: Run, j: nat, user: Id, app: Id, redirect: string, scope: string,
      challenge: string, nonce: string) {
    && j < |run.events| && j < |run.worlds|
    && (run.events[j].Ask? || run.events[j].Grant?)
    && var env, q, session := run.worlds[j].env, run.events[j].query, run.events[j].session;
    && Authorized(env, run.worlds[j].now, session, q)
    && UserOf(env, session) == user && AppOf(env, q) == app
    && q.redirect == redirect && StoredScope(q) == scope
    && q.challenge == challenge && q.nonce == nonce
  }

  /** An authorize step before `i`, no more than `age` before `limit`. */
  ghost predicate Traced(run: Run, i: nat, user: Id, app: Id, redirect: string, scope: string, challenge: string,
      nonce: string, limit: Time, age: Time) {
    exists j ::
      && 0 <= j < i && AuthorizeStep(run, j, user, app, redirect, scope, challenge, nonce)
      && limit <= run.worlds[j].now + age
  }

  ghost predicate RequestTraced(run: Run, i: nat, r: Request) {
    Traced(run, i, r.user, r.app, r.redirect, r.scope, r.challenge, r.nonce, r.expires, 5 * MINUTE)
  }

  ghost predicate CodeTraced(run: Run, i: nat, c: Code) {
    Traced(run, i, c.user, c.app, c.redirect, c.scope, c.challenge, c.nonce, c.expires, 7 * MINUTE)
  }

  ghost predicate AllTraced(run: Run, i: nat, db: Db) {
    && (forall h :: h in db.requests ==> RequestTraced(run, i, db.requests[h]))
    && (forall h :: h in db.codes ==> CodeTraced(run, i, db.codes[h]))
  }

  lemma LaterTraced(run: Run, i: nat, db: Db)
    requires AllTraced(run, i, db)
    ensures AllTraced(run, i + 1, db)
  {
    forall h | h in db.requests ensures RequestTraced(run, i + 1, db.requests[h]) {
      assert RequestTraced(run, i, db.requests[h]);
    }
    forall h | h in db.codes ensures CodeTraced(run, i + 1, db.codes[h]) {
      assert CodeTraced(run, i, db.codes[h]);
    }
  }

  /** Requests and codes are only ever created or marked consumed, so a property that does
      not look at the mark needs checking only where a row is created. */
  lemma RowsKept(w: World, e: Event, p: Request -> bool, q: Code -> bool)
    requires Enabled(w, e)
    requires forall h :: h in w.db.requests ==> p(w.db.requests[h])
    requires forall h :: h in w.db.codes ==> q(w.db.codes[h])
    requires forall r, t :: p(r) ==> p(r.(consumedAt := t))
    requires forall c, t :: q(c) ==> q(c.(consumedAt := t))
    requires e.Ask? ==> p(ApplyDb(w, e).requests[e.token])
    requires e.Grant? ==> q(ApplyDb(w, e).codes[e.code])
    requires e.Approve? ==> q(CodeFrom(w.db.requests[e.token], e.started + 2 * MINUTE))
    ensures forall h :: h in Apply(w, e).db.requests ==> p(Apply(w, e).db.requests[h])
    ensures forall h :: h in Apply(w, e).db.codes ==> q(Apply(w, e).db.codes[h])
  {
  }

  lemma CreatedTraced(run: Run, i: nat)
    requires IsRun(run) && i < |run.events|
    requires AllTraced(run, i + 1, run.worlds[i].db)
    ensures StepAt(run, i)
    ensures
      var w, e := run.worlds[i], run.events[i];
      && (e.Ask? ==> RequestTraced(run, i + 1, ApplyDb(w, e).requests[e.token]))
      && (e.Grant? ==> CodeTraced(run, i + 1, ApplyDb(w, e).codes[e.code]))
      && (e.Approve? ==> CodeTraced(run, i + 1, CodeFrom(w.db.requests[e.token], e.started + 2 * MINUTE)))
  {
    assert StepAt(run, i);
    var w, e := run.worlds[i], run.events[i];
    match e
    case Ask(session, q, token) =>
      var r := ApplyDb(w, e).requests[token];
      assert AuthorizeStep(run, i, r.user, r.app, r.redirect, r.scope, r.challenge, r.nonce);
    case Grant(session, q, code) =>
      var c := ApplyDb(w, e).codes[code];
      assert AuthorizeStep(run, i, c.user, c.app, c.redirect, c.scope, c.challenge, c.nonce);
    case Approve(user, token, code, base, started, at) =>
      ApprovedTraced(run, i + 1, w.db.requests[token], started);
    case _ =>
  }

  lemma StepTraced(run: Run, i: nat)
    requires IsRun(run) && i < |run.events|
    requires AllTraced(run, i + 1, run.worlds[i].db)
    ensures AllTraced(run, i + 1, run.worlds[i + 1].db)
  {
    CreatedTraced(run, i);
    RowsKept(run.worlds[i], run.events[i], r => RequestTraced(run, i + 1, r), c => CodeTraced(run, i + 1, c));
  }

  /** A request lives five minutes and the code it turns into two more. */
  lemma ApprovedTraced(run: Run, i: nat, r: Request, started: Time)
    requires RequestTraced(run, i, r) && started <= r.expires
    ensures CodeTraced(run, i, CodeFrom(r, started + 2 * MINUTE))
  {
    var j :| 0 <= j < i && AuthorizeStep(run, j, r.user, r.app, r.redirect, r.scope, r.challenge, r.nonce)
             && r.expires <= run.worlds[j].now + 5 * MINUTE;
  }

  /** Every stored request and code comes from an authorize step for the same user,
      application, redirect URI, scope, challenge and nonce, and a code expires at most seven
      minutes after that step. */
  lemma {:induction false} CodesComeFromAuthorize(run: Run, i: nat)
    requires IsRun(run) && i < |run.worlds|
    ensures AllTraced(run, i, run.worlds[i].db)
    decreases i
  {
    if i > 0 {
      CodesComeFromAuthorize(run, i - 1);
      LaterTraced(run, i - 1, run.worlds[i - 1].db);
      StepTraced(run, i - 1);
    }
  }

  /** Event `k` exchanges a code of this user, application and scope. */
  ghost predicate ExchangeStep(run: Run, k: nat, user: Id, app: Id, scope: string) {
    && k < |run.events| && k < |run.worlds|
    && run.events[k].Exchange?
    && run.events[k].code in run.worlds[k].db.codes
    && var c := run.worlds[k].db.codes[run.events[k].code];
    && c.user == user && c.app == app && c.scope == scope
  }

  /** Every exchange repeats the redirect URI of its authorize step, presents a verifier of
      that step's challenge, and is checked at most seven minutes after it. */
  lemma ExchangeMatchesAuthorize(run: Run, k: nat)
    requires IsRun(run) && k < |run.events| && run.events[k].Exchange?
    ensures
      var e := run.events[k];
      && e.code in run.worlds[k].db.codes
      && var c := run.worlds[k].db.codes[e.code];
      exists j ::
        && 0 <= j < k
        && AuthorizeStep(run, j, c.user, e.app, e.redirect, c.scope, c.challenge, c.nonce)
        && VerifyPkce(run.worlds[j].env.digests, e.verifier, run.events[j].query.challenge)
        && e.at <= run.worlds[j].now + 7 * MINUTE
  {
    var e := run.events[k];
    assert StepAt(run, k);
    CodesComeFromAuthorize(run, k);
    var c := run.worlds[k].db.codes[e.code];
    assert CodeTraced(run, k, c);
    var j :| 0 <= j < k && AuthorizeStep(run, j, c.user, c.app, c.redirect, c.scope, c.challenge, c.nonce)
             && c.expires <= run.worlds[j].now + 7 * MINUTE;
    ClockMonotone(run, j, k);
  }

  ghost predicate RefreshTraced(run: Run, i: nat, family: Id, user: Id, app: Id, scope: string) {
    exists k :: 0 <= k < i && ExchangeStep(run, k, user, app, scope) && run.events[k].family == family
  }

  ghost predicate AccessTraced(run: Run, i: nat, user: Id, app: Id, scope: string) {
    exists k :: 0 <= k < i && ExchangeStep(run, k, user, app, scope)
  }

  /** Tables in which `p` holds of every refresh token's family, user, application and
      scope, and `q` of every user access token's user, application and scope. */
  ghost predicate Tokens(db: Db, p: (Id, Id, Id, string) -> bool, q: (Id, Id, string) -> bool) {
    && (forall h :: h in db.refresh ==>
          p(db.refresh[h].family, db.refresh[h].user, db.refresh[h].app, db.refresh[h].scope))
    && (forall j :: j in db.access && db.access[j].user.Some? ==>
          q(db.access[j].user.value, db.access[j].app, db.access[j].scope))
  }

  /** Rotation passes family, user, application and scope on unchanged. */
  lemma TokensKept(w: World, e: Event, p: (Id, Id, Id, string) -> bool, q: (Id, Id, string) -> bool)
    requires Enabled(w, e) && Tokens(w.db, p, q)
    requires forall f, u, a, s :: p(f, u, a, s) ==> q(u, a, s)
    requires e.Exchange? ==>
               var c := w.db.codes[e.code]; p(e.family, c.user, c.app, c.scope)
    ensures Tokens(Apply(w, e).db, p, q)
  {
    match e
    case Rotate(app, token, mint, started, at) =>
      var r := w.db.refresh[token];
      assert p(r.family, r.user, r.app, r.scope);
    case Revoke(family, rows, started) =>
    case _ =>
  }

  ghost predicate TokensTraced(run: Run, i: nat, db: Db) {
    Tokens(db, (f, u, a, s) => RefreshTraced(run, i, f, u, a, s), (u, a, s) => AccessTraced(run, i, u, a, s))
  }

  lemma LaterTokensTraced(run: Run, i: nat, db: Db)
    requires TokensTraced(run, i, db)
    ensures TokensTraced(run, i + 1, db)
  {
    forall f, u, a, s | RefreshTraced(run, i, f, u, a, s) ensures RefreshTraced(run, i + 1, f, u, a, s) {
    }
    forall u, a, s | AccessTraced(run, i, u, a, s) ensures AccessTraced(run, i + 1, u, a, s) {
    }
  }

  lemma StepTokensTraced(run: Run, i: nat)
    requires IsRun(run) && i < |run.events|
    requires TokensTraced(run, i + 1, run.worlds[i].db)
    ensures TokensTraced(run, i + 1, run.worlds[i + 1].db)
  {
    assert StepAt(run, i);
    var w, e := run.worlds[i], run.events[i];
    if e.Exchange? {
      var c := w.db.codes[e.code];
      assert ExchangeStep(run, i, c.user, c.app, c.scope);
    }
    TokensKept(w, e, (f, u, a, s) => RefreshTraced(run, i + 1, f, u, a, s),
               (u, a, s) => AccessTraced(run, i + 1, u, a, s));
  }

  /** Every refresh token descends from one exchange that opened its family, and every
      user access token from an exchange, with the same user, application and scope; by
      ExchangeMatchesAuthorize that exchange in turn goes back to an authorize step. */
  lemma {:induction false} TokensComeFromExchange(run: Run, i: nat)
    requires IsRun(run) && i < |run.worlds|
    ensures TokensTraced(run, i, run.worlds[i].db)
    decreases i
  {
    if i > 0 {
      TokensComeFromExchange(run, i - 1);
      LaterTokensTraced(run, i - 1, run.worlds[i - 1].db);
      StepTokensTraced(run, i - 1);
    }
  }

  /** A code is exchanged at most once, and a refresh token gains at most one successor:
      two events that spend the same row are the same event. */
  lemma SpentOnce(run: Run, i: nat, k: nat)
    requires IsRun(run) && i < k < |run.events|
    ensures run.events[i].Exchange? && run.events[k].Exchange? ==> run.events[i].code != run.events[k].code
    ensures run.events[i].Rotate? && run.events[k].Rotate? ==> run.events[i].token != run.events[k].token
  {
    assert StepAt(run, i) && StepAt(run, k);
    var e := run.events[i];
    if e.Exchange? {
      CodeStaysSpent(run, i + 1, k, e.code);
    } else if e.Rotate? {
      TokenStaysSpent(run, i + 1, k, e.token);
    }
  }

  lemma {:induction false} CodeStaysSpent(run: Run, i: nat, k: nat, h: Hash)
    requires IsRun(run) && i <= k < |run.worlds|
    requires h in run.worlds[i].db.codes && run.worlds[i].db.codes[h].consumedAt.Some?
    ensures h in run.worlds[k].db.codes && run.worlds[k].db.codes[h] == run.worlds[i].db.codes[h]
    decreases k
  {
    if i < k {
      CodeStaysSpent(run, i, k - 1, h);
      assert StepAt(run, k - 1);
    }
  }

  lemma {:induction false} TokenStaysSpent(run: Run, i: nat, k: nat, h: Hash)
    requires IsRun(run) && i <= k < |run.worlds|
    requires h in run.worlds[i].db.refresh && run.worlds[i].db.refresh[h].consumedAt.Some?
    ensures h in run.worlds[k].db.refresh
    ensures run.worlds[k].db.refresh[h].consumedAt == run.worlds[i].db.refresh[h].consumedAt
    decreases k
  {
    if i < k {
      TokenStaysSpent(run, i, k - 1, h);
      assert StepAt(run, k - 1);
    }
  }
}
