/**
  Conservation of tokens over every run, and the standing facts about stored scopes:
  every user grant carries `openid`, and (with atomic handlers) stays within consent.
 */
module Conservation {
  import opened Accounts
  import opened Scopes
  import opened Ledger
  import opened Families

  // ----- Counting -----

  function ConsumedCodes(codes: map<Hash, Code>): set<Hash> {
    set h | h in codes && codes[h].consumedAt.Some?
  }

  function ConsumedRefresh(refresh: map<Hash, Refresh>): set<Hash> {
    set h | h in refresh && refresh[h].consumedAt.Some?
  }

  function UnconsumedRefresh(refresh: map<Hash, Refresh>): set<Hash> {
    set h | h in refresh && refresh[h].consumedAt == None
  }

  function FamilyIds(refresh: map<Hash, Refresh>): set<Id> {
    set h | h in refresh :: refresh[h].family
  }

  function UserAccess(access: map<Id, Access>): set<Id> {
    set j | j in access && access[j].user.Some?
  }

  ghost predicate Balanced(db: Db) {
    && |db.refresh.Keys| == |ConsumedCodes(db.codes)| + |ConsumedRefresh(db.refresh)|
    && |UserAccess(db.access)| == |db.refresh.Keys|
    && |UnconsumedRefresh(db.refresh)| == |FamilyIds(db.refresh)| == |ConsumedCodes(db.codes)|
  }

  lemma ConsumeCodeCounts(codes: map<Hash, Code>, code: Hash, used: Code)
    requires code in codes && codes[code].consumedAt == None && used.consumedAt.Some?
    ensures |ConsumedCodes(codes[code := used])| == |ConsumedCodes(codes)| + 1
  {
    assert ConsumedCodes(codes[code := used]) == ConsumedCodes(codes) + {code};
  }

  lemma InsertAccessCounts(access: map<Id, Access>, jti: Id, row: Access)
    requires jti !in access && row.user.Some?
    ensures |UserAccess(access[jti := row])| == |UserAccess(access)| + 1
  {
    assert UserAccess(access[jti := row]) == UserAccess(access) + {jti};
  }

  lemma InsertRefreshCounts(refresh: map<Hash, Refresh>, token: Hash, row: Refresh)
    requires token !in refresh && row.consumedAt == None
    ensures
      var after := refresh[token := row];
      && |after.Keys| == |refresh.Keys| + 1
      && |ConsumedRefresh(after)| == |ConsumedRefresh(refresh)|
      && |UnconsumedRefresh(after)| == |UnconsumedRefresh(refresh)| + 1
  {
    hide ConsumedRefresh, UnconsumedRefresh;
    var after := refresh[token := row];
    assert after.Keys == refresh.Keys + {token};
    InsertedUnconsumed(refresh, token, row);
  }

  lemma InsertedUnconsumed(refresh: map<Hash, Refresh>, token: Hash, row: Refresh)
    requires token !in refresh && row.consumedAt == None
    ensures ConsumedRefresh(refresh[token := row]) == ConsumedRefresh(refresh)
    ensures UnconsumedRefresh(refresh[token := row]) == UnconsumedRefresh(refresh) + {token}
    ensures token !in UnconsumedRefresh(refresh)
  {
  }

  lemma SameSet<T>(a: set<T>, b: set<T>)
    requires forall x :: x in a <==> x in b
    ensures a == b
  {
  }

  lemma NewFamilyId(refresh: map<Hash, Refresh>, token: Hash, row: Refresh)
    requires token !in refresh
    ensures FamilyIds(refresh[token := row]) == FamilyIds(refresh) + {row.family}
    ensures row.family in FamilyIds(refresh) <==> FamilyRows(refresh, row.family) != {}
  {
    var after := refresh[token := row];
    forall f ensures f in FamilyIds(after) <==> f in FamilyIds(refresh) + {row.family} {
      if f in FamilyIds(refresh) {
        var h :| h in refresh && refresh[h].family == f;
        assert h in after && after[h].family == f;
      }
      assert token in after && after[token].family == row.family;
    }
    SameSet(FamilyIds(after), FamilyIds(refresh) + {row.family});
    if row.family in FamilyIds(refresh) {
      var h :| h in refresh && refresh[h].family == row.family;
      assert h in FamilyRows(refresh, row.family);
    } else {
      forall h | h in refresh ensures refresh[h].family != row.family {
        assert refresh[h].family in FamilyIds(refresh);
      }
    }
  }

  lemma ConsumeRefreshCounts(refresh: map<Hash, Refresh>, token: Hash, used: Refresh)
    requires token in refresh && refresh[token].consumedAt == None
    requires used.consumedAt.Some? && used.family == refresh[token].family
    ensures
      var after := refresh[token := used];
      && after.Keys == refresh.Keys
      && |ConsumedRefresh(after)| == |ConsumedRefresh(refresh)| + 1
      && |UnconsumedRefresh(after)| == |UnconsumedRefresh(refresh)| - 1
      && FamilyIds(after) == FamilyIds(refresh)
      && FamilyRows(after, used.family) != {}
  {
    var after := refresh[token := used];
    assert after.Keys == refresh.Keys;
    assert ConsumedRefresh(after) == ConsumedRefresh(refresh) + {token};
    assert UnconsumedRefresh(after) == UnconsumedRefresh(refresh) - {token};
    SameFamilyIds(refresh, after);
    assert token in FamilyRows(after, used.family);
  }

  lemma SameFamilyIds(before: map<Hash, Refresh>, after: map<Hash, Refresh>)
    requires before.Keys == after.Keys
    requires forall h :: h in before ==> before[h].family == after[h].family
    ensures FamilyIds(before) == FamilyIds(after)
  {
  }

  lemma ExchangeBalances(db: Db, code: Hash, family: Id, mint: Mint, started: Time)
    requires Balanced(db)
    requires code in db.codes && db.codes[code].consumedAt == None
    requires MintFresh(db, mint) && FamilyRows(db.refresh, family) == {}
    ensures Balanced(ApplyExchange(db, code, family, mint, started))
  {
    var after := ApplyExchange(db, code, family, mint, started);
    ConsumeCodeCounts(db.codes, code, db.codes[code].(consumedAt := Some(started)));
    InsertAccessCounts(db.access, mint.jti, after.access[mint.jti]);
    InsertRefreshCounts(db.refresh, mint.token, after.refresh[mint.token]);
    NewFamilyId(db.refresh, mint.token, after.refresh[mint.token]);
    assert FamilyIds(after.refresh) == FamilyIds(db.refresh) + {family} && family !in FamilyIds(db.refresh);
  }

  lemma RotateBalances(db: Db, token: Hash, mint: Mint, started: Time)
    requires Balanced(db)
    requires token in db.refresh && db.refresh[token].consumedAt == None && MintFresh(db, mint)
    ensures Balanced(ApplyRotate(db, token, mint, started))
  {
    var after := ApplyRotate(db, token, mint, started);
    var used := db.refresh[token].(consumedAt := Some(started));
    ConsumeRefreshCounts(db.refresh, token, used);
    InsertAccessCounts(db.access, mint.jti, after.access[mint.jti]);
    InsertRefreshCounts(db.refresh[token := used], mint.token, after.refresh[mint.token]);
    NewFamilyId(db.refresh[token := used], mint.token, after.refresh[mint.token]);
    assert FamilyIds(after.refresh) == FamilyIds(db.refresh);
  }

  lemma RevokeBalances(db: Db, rows: set<Hash>, started: Time)
    requires Balanced(db)
    ensures Balanced(db.(refresh := RevokeRows(db.refresh, rows, started)))
  {
    var after := RevokeRows(db.refresh, rows, started);
    assert after.Keys == db.refresh.Keys;
    SameSet(ConsumedRefresh(after), ConsumedRefresh(db.refresh));
    SameSet(UnconsumedRefresh(after), UnconsumedRefresh(db.refresh));
    SameFamilyIds(db.refresh, after);
  }

  lemma OtherBalances(w: World, e: Event)
    requires Enabled(w, e) && Balanced(w.db)
    requires !e.Exchange? && !e.Rotate? && !e.Revoke?
    ensures Balanced(Apply(w, e).db)
  {
    hide Enabled, Apply, ConsumedCodes, ConsumedRefresh, UnconsumedRefresh, FamilyIds, UserAccess;
    SameSpentCodes(w, e);
    SameUserAccess(w, e);
  }

  lemma SameSpentCodes(w: World, e: Event)
    requires Enabled(w, e) && !e.Exchange? && !e.Rotate? && !e.Revoke?
    ensures Apply(w, e).db.refresh == w.db.refresh && ConsumedCodes(Apply(w, e).db.codes) == ConsumedCodes(w.db.codes)
  {
    SameSet(ConsumedCodes(Apply(w, e).db.codes), ConsumedCodes(w.db.codes));
  }

  lemma SameUserAccess(w: World, e: Event)
    requires Enabled(w, e) && !e.Exchange? && !e.Rotate? && !e.Revoke?
    ensures UserAccess(Apply(w, e).db.access) == UserAccess(w.db.access)
  {
    SameSet(UserAccess(Apply(w, e).db.access), UserAccess(w.db.access));
  }

  /** In every state of every run: refresh tokens = consumed codes + consumed refresh
      tokens, user access tokens = refresh tokens, and unconsumed refresh tokens =
      families = consumed codes. */
  lemma {:induction false} TokensAreConserved(run: Run, i: nat)
    requires IsRun(run) && i < |run.worlds|
    ensures Balanced(run.worlds[i].db)
    decreases i
  {
    if i == 0 {
      assert ConsumedCodes(map[]) == ConsumedRefresh(map[]) == UnconsumedRefresh(map[]) == {};
      assert UserAccess(map[]) == FamilyIds(map[]) == {};
    } else {
      TokensAreConserved(run, i - 1);
      assert StepAt(run, i - 1);
      var w, e := run.worlds[i - 1], run.events[i - 1];
      match e
      case Exchange(app, code, redirect, verifier, family, mint, started, at) =>
        ExchangeBalances(w.db, code, family, mint, started);
      case Rotate(app, token, mint, started, at) =>
        RotateBalances(w.db, token, mint, started);
      case Revoke(family, rows, started) =>
        RevokeBalances(w.db, rows, started);
      case _ =>
        OtherBalances(w, e);
    }
  }

  // ----- Properties of what is granted -----

  /** A property of a grant: its user, application and scope. */
  type Grantee = (Id, Id, string) -> bool

  /** `asked` holds of every stored request, `granted` of every code, refresh token and
      user access token. */
  ghost predicate Throughout(db: Db, asked: Grantee, granted: Grantee) {
    && (forall h :: h in db.requests ==> asked(db.requests[h].user, db.requests[h].app, db.requests[h].scope))
    && (forall h :: h in db.codes ==> granted(db.codes[h].user, db.codes[h].app, db.codes[h].scope))
    && (forall h :: h in db.refresh ==> granted(db.refresh[h].user, db.refresh[h].app, db.refresh[h].scope))
    && (forall j :: j in db.access && db.access[j].user.Some? ==>
          granted(db.access[j].user.value, db.access[j].app, db.access[j].scope))
  }

  /** What an event must establish for the grants it introduces. */
  ghost predicate Introduces(w: World, e: Event, asked: Grantee, granted: Grantee)
    requires Enabled(w, e)
  {
    && (e.Ask? ==> asked(UserOf(w.env, e.session), AppOf(w.env, e.query), StoredScope(e.query)))
    && (e.Grant? ==> granted(UserOf(w.env, e.session), AppOf(w.env, e.query), StoredScope(e.query)))
    && (e.Approve? ==>
          var r := w.db.requests[e.token]; granted(r.user, r.app, r.scope))
  }

  /** Exchanging and rotating only pass on what an existing row already grants, so a
      property established when a request or code is created holds of all descendants. */
  lemma PassedOn(w: World, e: Event, asked: Grantee, granted: Grantee)
    requires Enabled(w, e) && Throughout(w.db, asked, granted) && Introduces(w, e, asked, granted)
    ensures Throughout(Apply(w, e).db, asked, granted)
  {
    hide Apply, Enabled, Throughout, Introduces;
    if e.Exchange? || e.Rotate? || e.Revoke? {
      TokensPassOn(w, e, asked, granted);
    } else {
      OthersPassOn(w, e, asked, granted);
    }
  }

  lemma TokensPassOn(w: World, e: Event, asked: Grantee, granted: Grantee)
    requires e.Exchange? || e.Rotate? || e.Revoke?
    requires Enabled(w, e) && Throughout(w.db, asked, granted)
    ensures Throughout(Apply(w, e).db, asked, granted)
  {
  }

  lemma OthersPassOn(w: World, e: Event, asked: Grantee, granted: Grantee)
    requires !e.Exchange? && !e.Rotate? && !e.Revoke?
    requires Enabled(w, e) && Throughout(w.db, asked, granted) && Introduces(w, e, asked, granted)
    ensures Throughout(Apply(w, e).db, asked, granted)
  {
    hide FamilyRows, ScopeList, Merge;
  }

  predicate HasOpenid(scope: string) {
    "openid" in ScopeList(scope)
  }

  /** Every scope stored for a user contains `openid`. */
  ghost predicate OpenidInv(db: Db) {
    Throughout(db, (user, app, scope) => HasOpenid(scope), (user, app, scope) => HasOpenid(scope))
  }

  /** What authorize stores reads back as exactly the requested scopes. */
  lemma StoredScopeReadsBack(q: Query)
    requires Split(q.scope).Ok?
    ensures ScopeList(StoredScope(q)) == ScopeList(q.scope)
  {
    SplitJoinSplit(q.scope);
  }

  lemma {:induction false} EveryUserGrantHasOpenid(run: Run, i: nat)
    requires IsRun(run) && i < |run.worlds|
    ensures OpenidInv(run.worlds[i].db)
    decreases i
  {
    if i > 0 {
      EveryUserGrantHasOpenid(run, i - 1);
      assert StepAt(run, i - 1);
      OpenidIntroduced(run.worlds[i - 1], run.events[i - 1]);
    }
  }

  lemma OpenidIntroduced(w: World, e: Event)
    requires Enabled(w, e) && OpenidInv(w.db)
    ensures OpenidInv(Apply(w, e).db)
  {
    if e.Ask? || e.Grant? {
      StoredScopeReadsBack(e.query);
    }
    var p := (user: Id, app: Id, scope: string) => HasOpenid(scope);
    PassedOn(w, e, p, p);
  }

  predicate Active(env: Env, user: Id) {
    user in env.users && env.users[user].active
  }

  /** With atomic handlers no user token is ever committed for an inactive user. */
  lemma TokensOnlyForActiveUsers(run: Run, i: nat)
    requires IsAtomicRun(run) && i < |run.events|
    ensures
      var w, e := run.worlds[i], run.events[i];
      && (e.Exchange? ==> e.code in w.db.codes && Active(w.env, w.db.codes[e.code].user))
      && (e.Rotate? ==> e.token in w.db.refresh && Active(w.env, w.db.refresh[e.token].user))
  {
    EveryUserGrantHasOpenid(run, i);
    assert StepAt(run, i) && Atomic(run.worlds[i], run.events[i]);
    var w, e := run.worlds[i], run.events[i];
    if e.Exchange? {
      assert HasOpenid(w.db.codes[e.code].scope);
    } else if e.Rotate? {
      assert HasOpenid(w.db.refresh[e.token].scope);
    }
  }

  // ----- Consent -----

  /** The scope lies within what the user has granted the application. */
  predicate Within(consents: map<(Id, Id), seq<string>>, user: Id, app: Id, scope: string) {
    ScopeSet(scope) <= Granted(consents, user, app)
  }

  function Granted(consents: map<(Id, Id), seq<string>>, user: Id, app: Id): set<string> {
    if (user, app) in consents then Elements(consents[(user, app)]) else {}
  }

  /** Every stored code, refresh token and user access token stays within the consent
      recorded for its user and application. */
  ghost predicate ConsentInv(db: Db) {
    Throughout(db, (user, app, scope) => true, (user, app, scope) => Within(db.consents, user, app, scope))
  }

  ghost predicate ConsentGrows(before: Db, after: Db) {
    forall user, app :: Granted(before.consents, user, app) <= Granted(after.consents, user, app)
  }

  lemma ApproveGrowsConsent(db: Db, token: Hash, code: Hash, started: Time)
    requires token in db.requests
    ensures
      var r := db.requests[token];
      var after := ApplyApprove(db, token, code, ConsentOf(db, r.user, r.app), started);
      ConsentGrows(db, after) && Within(after.consents, r.user, r.app, r.scope)
  {
    var r := db.requests[token];
    MergeProperties(ConsentOf(db, r.user, r.app), ScopeList(r.scope));
  }

  lemma GrantWithinConsent(db: Db, user: Id, app: Id, q: Query)
    requires Split(q.scope).Ok? && ContainsAll(ConsentOf(db, user, app), ScopeList(q.scope))
    ensures Within(db.consents, user, app, StoredScope(q))
  {
    StoredScopeReadsBack(q);
  }

  lemma StepGrowsConsent(w: World, e: Event)
    requires Enabled(w, e) && Atomic(w, e)
    ensures ConsentGrows(w.db, Apply(w, e).db)
  {
    if e.Approve? {
      ApproveGrowsConsent(w.db, e.token, e.code, e.started);
    } else {
      assert Apply(w, e).db.consents == w.db.consents;
    }
  }

  lemma WiderConsent(before: Db, after: Db)
    requires ConsentInv(before) && ConsentGrows(before, after)
    ensures Throughout(before, (user, app, scope) => true,
                       (user, app, scope) => Within(after.consents, user, app, scope))
  {
    var narrow := (user: Id, app: Id, scope: string) => Within(before.consents, user, app, scope);
    var wide := (user: Id, app: Id, scope: string) => Within(after.consents, user, app, scope);
    forall user, app, scope | narrow(user, app, scope) ensures wide(user, app, scope) {
      assert Granted(before.consents, user, app) <= Granted(after.consents, user, app);
    }
  }

  /** One atomic step keeps stored scopes within consent. */
  lemma StepKeepsConsent(w: World, e: Event)
    requires Enabled(w, e) && Atomic(w, e) && ConsentInv(w.db)
    ensures ConsentInv(Apply(w, e).db)
  {
    var after := Apply(w, e).db;
    StepGrowsConsent(w, e);
    WiderConsent(w.db, after);
    if e.Grant? {
      GrantWithinConsent(w.db, UserOf(w.env, e.session), AppOf(w.env, e.query), e.query);
    } else if e.Approve? {
      ApproveGrowsConsent(w.db, e.token, e.code, e.started);
    }
    PassedOn(w, e, (user, app, scope) => true, (user, app, scope) => Within(after.consents, user, app, scope));
  }

  lemma NothingGranted(db: Db)
    requires db == EmptyDb
    ensures ConsentInv(db)
  {
  }

  /** With atomic handlers, the scope of every stored code, refresh token and user access
      token lies within the recorded consent, and recorded consent never shrinks. */
  lemma {:induction false} GrantsStayWithinConsent(run: Run, i: nat)
    requires IsAtomicRun(run) && i < |run.worlds|
    ensures ConsentInv(run.worlds[i].db)
    ensures i > 0 ==> ConsentGrows(run.worlds[i - 1].db, run.worlds[i].db)
    decreases i
  {
    hide Enabled, Apply, Atomic, ConsentInv, ConsentGrows;
    if i == 0 {
      NothingGranted(run.worlds[0].db);
    } else {
      GrantsStayWithinConsent(run, i - 1);
      assert StepAt(run, i - 1) && Atomic(run.worlds[i - 1], run.events[i - 1]);
      StepKeepsConsent(run.worlds[i - 1], run.events[i - 1]);
      StepGrowsConsent(run.worlds[i - 1], run.events[i - 1]);
    }
  }
}
