/**
  The transactions of the token, revocation and consent handlers, interleaved statement by
  statement (backend/internal/httpapi/oauth.go under PostgreSQL's READ COMMITTED).

  A row that was selected FOR UPDATE, updated or inserted stays locked by its transaction
  until commit or rollback; a statement that needs a row locked elsewhere waits, that is,
  its step is not possible yet. Writes become visible at commit. Any transaction may be
  rolled back at any point. The result: every interleaving is a run of the ledger, so all
  the laws proved of ledger runs hold; what does not carry over is shown with its exact
  condition.
 */
module Interleaving {
  import opened Accounts
  import opened Runs
  import opened Scopes
  import opened Ledger
  import opened Families
  import opened Conservation
  import P = Provenance

  type TxId = nat

  /** What can be locked. `FamilyRow` stands for a family id drawn by RandomUUID and not yet
      visible: nobody else draws it. */
  datatype Row =
    | RequestRow(h: Hash)
    | CodeRow(h: Hash)
    | RefreshRow(h: Hash)
    | AccessRow(jti: Id)
    | ConsentRow(user: Id, app: Id)
    | FamilyRow(family: Id)

  datatype Job =
    | CodeJob(app: Id, code: Hash, redirect: string, verifier: string)
    | RefreshJob(app: Id, token: Hash)
    | RevokeJob(app: Id, token: Hash)
    | ConsentJob(user: Id, token: Hash, approve: bool)

  /** How far a transaction has come. */
  datatype Stage =
    | Begun
    | Checked(at: Time)                                   // row locked, checks passed
    | Spent(at: Time)                                     // consumed_at written
    | AccessIn(at: Time, jti: Id, accessExpires: Time)    // access token inserted
    | Signed(at: Time, jti: Id, accessExpires: Time)      // ID token signed
    | Reuse                                               // a spent or revoked token was presented
    | Sweeping(family: Id, rows: set<Hash>, todo: set<Hash>)
    | ConsentRead(at: Time, base: seq<string>)
    | ConsentWritten(at: Time, base: seq<string>)
    | Ready(event: Event)

  /** `writes` holds the rows written so far, invisible to others. */
  datatype Tx = Tx(job: Job, started: Time, stage: Stage, writes: Db)

  datatype Sys = Sys(world: World, locks: map<Row, TxId>, txs: map<TxId, Tx>)

  function Overlay(db: Db, writes: Db): Db {
    Db(db.requests + writes.requests, db.codes + writes.codes, db.refresh + writes.refresh,
       db.access + writes.access, db.consents + writes.consents)
  }

  // ----- Steps -----

  datatype Label =
    | Begin(t: TxId, job: Job)
    | Rollback(t: TxId)
    | Commit(t: TxId)
    | OneStatement(e: Event)          // a change made by a single statement, and the passing of time
    | SelectForUpdate(t: TxId)
    | Spend(t: TxId)
    | InsertAccess(t: TxId, jti: Id, expires: Time)
    | SignId(t: TxId)
    | InsertRefresh(t: TxId, token: Hash, family: Id, expires: Time)
    | SweepStart(t: TxId)
    | SweepRow(t: TxId, h: Hash)
    | SweepEnd(t: TxId)
    | FinishDeny(t: TxId)
    | ReadConsent(t: TxId)
    | UpsertConsent(t: TxId)
    | InsertCode(t: TxId, code: Hash)

  predicate Free(s: Sys, t: TxId, row: Row) {
    row in s.locks ==> s.locks[row] == t
  }

  predicate Unlocked(s: Sys, row: Row) {
    row !in s.locks
  }

  predicate Holds(locks: map<Row, TxId>, t: TxId, row: Row) {
    row in locks && locks[row] == t
  }

  function Release(locks: map<Row, TxId>, t: TxId): map<Row, TxId> {
    map row | row in locks && locks[row] != t :: locks[row]
  }

  /** The row a job selects FOR UPDATE. */
  function Target(job: Job): Row {
    match job
    case CodeJob(_, code, _, _) => CodeRow(code)
    case RefreshJob(_, token) => RefreshRow(token)
    case RevokeJob(_, token) => RefreshRow(token)
    case ConsentJob(_, token, _) => RequestRow(token)
  }

  /** The checks made on the selected row at time `at`. */
  predicate Passes(w: World, job: Job, at: Time) {
    match job
    case CodeJob(app, code, redirect, verifier) => CodeUsable(w.db, w.env.digests, app, code, redirect, verifier, at)
    case RefreshJob(app, token) => RefreshUsable(w.db, app, token, at)
    case RevokeJob(_, _) => false
    case ConsentJob(user, token, _) => RequestUsable(w.db, user, token, at)
  }

  predicate IsReuse(db: Db, job: Job) {
    && job.RefreshJob?
    && job.token in db.refresh && db.refresh[job.token].app == job.app
    && (db.refresh[job.token].consumedAt.Some? || db.refresh[job.token].revokedAt.Some?)
  }

  /** The row written by the first UPDATE of a job. */
  function SpentWrites(db: Db, job: Job, started: Time): Db
    requires !job.RevokeJob?
    requires job.CodeJob? ==> job.code in db.codes
    requires job.RefreshJob? ==> job.token in db.refresh
    requires job.ConsentJob? ==> job.token in db.requests
  {
    match job
    case CodeJob(_, code, _, _) => EmptyDb.(codes := map[code := db.codes[code].(consumedAt := Some(started))])
    case RefreshJob(_, token) => EmptyDb.(refresh := map[token := db.refresh[token].(consumedAt := Some(started))])
    case ConsentJob(_, token, _) => EmptyDb.(requests := map[token := db.requests[token].(consumedAt := Some(started))])
  }

  predicate Issues(db: Db, job: Job) {
    (job.CodeJob? && job.code in db.codes) || (job.RefreshJob? && job.token in db.refresh)
  }

  function GranteeOf(db: Db, job: Job): (Id, Id, string)
    requires Issues(db, job)
  {
    if job.CodeJob? then (db.codes[job.code].user, db.codes[job.code].app, db.codes[job.code].scope)
    else (db.refresh[job.token].user, db.refresh[job.token].app, db.refresh[job.token].scope)
  }

  function AccessRowOf(db: Db, job: Job, expires: Time): Access
    requires Issues(db, job)
  {
    var (user, app, scope) := GranteeOf(db, job);
    Access(app, Some(user), UserSubject(user), scope, expires, None)
  }

  /** The ledger event a code or refresh transaction is about to commit. */
  function IssueEvent(job: Job, started: Time, at: Time, mint: Mint, family: Id): Event
    requires job.CodeJob? || job.RefreshJob?
  {
    if job.CodeJob? then Exchange(job.app, job.code, job.redirect, job.verifier, family, mint, started, at)
    else Rotate(job.app, job.token, mint, started, at)
  }

  function RefreshRowOf(db: Db, job: Job, family: Id, expires: Time): Refresh
    requires Issues(db, job)
  {
    var (user, app, scope) := GranteeOf(db, job);
    if job.CodeJob? then Refresh(family, None, app, user, scope, expires, None, None)
    else Refresh(db.refresh[job.token].family, Some(job.token), app, user, scope, expires, None, None)
  }

  function With(s: Sys, t: TxId, tx: Tx, locks: map<Row, TxId>): Sys {
    s.(txs := s.txs[t := tx], locks := locks)
  }

  /** Rows an event writes or depends on; a transaction holds all of them when it commits. */
  function Footprint(e: Event): set<Row> {
    match e
    case Ask(_, _, token) => {RequestRow(token)}
    case Grant(_, _, code) => {CodeRow(code)}
    case Deny(_, token, _, _) => {RequestRow(token)}
    case Approve(_, token, code, _, _, _) => {RequestRow(token), CodeRow(code)}
    case Exchange(_, code, _, _, family, mint, _, _) =>
      {CodeRow(code), AccessRow(mint.jti), RefreshRow(mint.token), FamilyRow(family)}
    case Rotate(_, token, mint, _, _) => {RefreshRow(token), AccessRow(mint.jti), RefreshRow(mint.token)}
    case Revoke(_, rows, _) => set h | h in rows :: RefreshRow(h)
    case IssueMachine(_, _, jti, _) => {AccessRow(jti)}
    case RevokeAccess(_, jti, _) => {AccessRow(jti)}
    case Advance(_, _) => {}
  }

  predicate OneStatementEvent(e: Event) {
    e.Advance? || e.Ask? || e.Grant? || e.IssueMachine? || e.RevokeAccess?
  }

  ghost predicate Next(s: Sys, l: Label, s': Sys) {
    match l
    case Begin(t, job) =>
      t !in s.txs && s' == s.(txs := s.txs[t := Tx(job, s.world.now, Begun, EmptyDb)])
    case Rollback(t) =>
      t in s.txs && s' == s.(txs := s.txs - {t}, locks := Release(s.locks, t))
    case Commit(t) =>
      && t in s.txs && s.txs[t].stage.Ready?
      && s' == Sys(s.world.(db := Overlay(s.world.db, s.txs[t].writes)), Release(s.locks, t), s.txs - {t})
    case OneStatement(e) =>
      && OneStatementEvent(e) && Enabled(s.world, e)
      && ((e.RevokeAccess? && e.jti !in s.world.db.access) || forall row :: row in Footprint(e) ==> Unlocked(s, row))
      && s' == s.(world := Apply(s.world, e))
    case _ => l.t in s.txs && TxNext(s, l, s.txs[l.t], s')
  }

  /** One statement of transaction `tx`. */
  ghost predicate TxNext(s: Sys, l: Label, tx: Tx, s': Sys)
    requires !l.Begin? && !l.Rollback? && !l.Commit? && !l.OneStatement?
  {
    var w, db, job := s.world, s.world.db, tx.job;
    match l
    case SelectForUpdate(t) =>
      && tx.stage.Begun? && Unlocked(s, Target(job))
      && (Passes(w, job, w.now) || IsReuse(db, job))
      && s' == With(s, t, tx.(stage := if IsReuse(db, job) then Reuse else Checked(w.now)), s.locks[Target(job) := t])
    case Spend(t) =>
      && tx.stage.Checked? && Passes(w, job, tx.stage.at)
      && s' == With(s, t, tx.(stage := Spent(tx.stage.at), writes := SpentWrites(db, job, tx.started)), s.locks)
    case InsertAccess(t, jti, expires) =>
      && tx.stage.Spent? && Issues(db, job)
      && Unlocked(s, AccessRow(jti)) && jti !in db.access
      && s' == With(s, t, tx.(stage := AccessIn(tx.stage.at, jti, expires),
                              writes := tx.writes.(access := map[jti := AccessRowOf(db, job, expires)])),
                    s.locks[AccessRow(jti) := t])
    case SignId(t) =>
      && tx.stage.AccessIn? && Issues(db, job)
      && IdTokenOk(w.env, GranteeOf(db, job).0, GranteeOf(db, job).2)
      && s' == With(s, t, tx.(stage := Signed(tx.stage.at, tx.stage.jti, tx.stage.accessExpires)), s.locks)
    case InsertRefresh(t, token, family, expires) =>
      && tx.stage.Signed? && Issues(db, job)
      && Unlocked(s, RefreshRow(token)) && token !in db.refresh
      && (job.CodeJob? ==> Unlocked(s, FamilyRow(family)) && FamilyRows(db.refresh, family) == {})
      && var mint := Mint(tx.stage.jti, token, tx.stage.accessExpires, expires);
      && var row := RefreshRowOf(db, job, family, expires);
      && var locks := s.locks[RefreshRow(token) := t];
      && s' == With(s, t, tx.(stage := Ready(IssueEvent(job, tx.started, tx.stage.at, mint, family)),
                              writes := tx.writes.(refresh := tx.writes.refresh[token := row])),
                    if job.CodeJob? then locks[FamilyRow(family) := t] else locks)
    case SweepStart(t) =>
      && (tx.stage.Reuse? || (tx.stage.Begun? && job.RevokeJob?))
      && (job.RefreshJob? || job.RevokeJob?)
      && job.token in db.refresh && db.refresh[job.token].app == job.app
      && var family := db.refresh[job.token].family;
      && var rows := FamilyRows(db.refresh, family);
      && s' == With(s, t, tx.(stage := Sweeping(family, rows, rows)), s.locks)
    case SweepRow(t, h) =>
      && tx.stage.Sweeping? && h in tx.stage.todo && h in db.refresh && Free(s, t, RefreshRow(h))
      && s' == With(s, t, tx.(stage := tx.stage.(todo := tx.stage.todo - {h}),
                              writes := tx.writes.(
                                refresh := tx.writes.refresh[h := Revoked(db.refresh[h], tx.started)])),
                    s.locks[RefreshRow(h) := t])
    case SweepEnd(t) =>
      && tx.stage.Sweeping? && tx.stage.todo == {}
      && s' == With(s, t, tx.(stage := Ready(Revoke(tx.stage.family, tx.stage.rows, tx.started))), s.locks)
    case FinishDeny(t) =>
      && tx.stage.Spent? && job.ConsentJob? && !job.approve
      && s' == With(s, t, tx.(stage := Ready(Deny(job.user, job.token, tx.started, tx.stage.at))), s.locks)
    case ReadConsent(t) =>
      && tx.stage.Spent? && job.ConsentJob? && job.approve && job.token in db.requests
      && s' == With(s, t, tx.(stage := ConsentRead(tx.stage.at, ConsentOf(db, job.user, db.requests[job.token].app))),
                    s.locks)
    case UpsertConsent(t) =>
      && tx.stage.ConsentRead? && job.ConsentJob? && job.token in db.requests
      && var r := db.requests[job.token];
      && Free(s, t, ConsentRow(r.user, r.app))
      && s' == With(s, t, tx.(stage := ConsentWritten(tx.stage.at, tx.stage.base),
                              writes := tx.writes.(
                                consents := map[(r.user, r.app) := Merge(tx.stage.base, ScopeList(r.scope))])),
                    s.locks[ConsentRow(r.user, r.app) := t])
    case InsertCode(t, code) =>
      && tx.stage.ConsentWritten? && job.ConsentJob? && job.token in db.requests
      && Unlocked(s, CodeRow(code)) && code !in db.codes
      && var row := CodeFrom(db.requests[job.token], tx.started + 2 * MINUTE);
      && s' == With(s, t,
                    tx.(stage := Ready(Approve(job.user, job.token, code, tx.stage.base, tx.started, tx.stage.at)),
                        writes := tx.writes.(codes := map[code := row])),
                    s.locks[CodeRow(code) := t])
  }

  // ----- What each transaction knows, whatever the others do -----

  /** The job's own row is locked and still passes the checks made on it. */
  ghost predicate Claimed(w: World, locks: map<Row, TxId>, t: TxId, tx: Tx, at: Time) {
    Holds(locks, t, Target(tx.job)) && tx.started <= at <= w.now && Passes(w, tx.job, at)
  }

  ghost predicate SweepInv(w: World, locks: map<Row, TxId>, t: TxId, tx: Tx, family: Id, rows: set<Hash>,
      todo: set<Hash>) {
    && todo <= rows <= FamilyRows(w.db.refresh, family)
    && rows != {} && ParentClosed(w.db.refresh, rows)
    && (forall h :: h in rows - todo ==> Holds(locks, t, RefreshRow(h)))
    && tx.started <= w.now
    && tx.writes == EmptyDb.(refresh := RevokedRows(w.db.refresh, rows - todo, tx.started))
  }

  predicate ParentClosed(refresh: map<Hash, Refresh>, rows: set<Hash>) {
    forall h :: h in rows && h in refresh && refresh[h].parent.Some? ==> refresh[h].parent.value in rows
  }

  function RevokedRows(refresh: map<Hash, Refresh>, rows: set<Hash>, started: Time): map<Hash, Refresh> {
    map h | h in rows && h in refresh :: Revoked(refresh[h], started)
  }

  /** The rows a ready transaction writes. */
  function WritesOf(db: Db, e: Event): Db {
    match e
    case Deny(_, token, started, _) =>
      if token !in db.requests then EmptyDb
      else EmptyDb.(requests := map[token := db.requests[token].(consumedAt := Some(started))])
    case Approve(_, token, code, base, started, _) =>
      if token !in db.requests then EmptyDb
      else
        var r := db.requests[token];
        Db(map[token := r.(consumedAt := Some(started))], map[code := CodeFrom(r, started + 2 * MINUTE)], map[], map[],
           map[(r.user, r.app) := Merge(base, ScopeList(r.scope))])
    case Exchange(_, code, _, _, family, mint, started, _) =>
      if code !in db.codes then EmptyDb
      else
        var c := db.codes[code];
        Db(map[], map[code := c.(consumedAt := Some(started))],
           map[mint.token := Refresh(family, None, c.app, c.user, c.scope, mint.refreshExpires, None, None)],
           map[mint.jti := Access(c.app, Some(c.user), UserSubject(c.user), c.scope, mint.accessExpires, None)], map[])
    case Rotate(_, token, mint, started, _) =>
      if token !in db.refresh then EmptyDb
      else
        var r := db.refresh[token];
        Db(map[], map[],
           map[token := r.(consumedAt := Some(started))][
             mint.token := Refresh(r.family, Some(token), r.app, r.user, r.scope, mint.refreshExpires, None, None)],
           map[mint.jti := Access(r.app, Some(r.user), UserSubject(r.user), r.scope, mint.accessExpires, None)], map[])
    case Revoke(_, rows, started) => EmptyDb.(refresh := RevokedRows(db.refresh, rows, started))
    case _ => EmptyDb
  }

  ghost predicate ReadyInv(w: World, locks: map<Row, TxId>, t: TxId, tx: Tx, e: Event) {
    && !OneStatementEvent(e)
    && Enabled(w, e)
    && (forall row :: row in Footprint(e) ==> Holds(locks, t, row))
    && tx.writes == WritesOf(w.db, e)
    && (e.Revoke? ==> e.rows != {} && ParentClosed(w.db.refresh, e.rows))
  }

  ghost predicate AccessWritten(w: World, locks: map<Row, TxId>, t: TxId, tx: Tx, at: Time, jti: Id, expires: Time) {
    && Claimed(w, locks, t, tx, at) && Issues(w.db, tx.job)
    && Holds(locks, t, AccessRow(jti)) && jti !in w.db.access
    && tx.writes == SpentWrites(w.db, tx.job, tx.started).(access := map[jti := AccessRowOf(w.db, tx.job, expires)])
  }

  ghost predicate TxInv(w: World, locks: map<Row, TxId>, t: TxId, tx: Tx) {
    && tx.started <= w.now
    && match tx.stage
       case Begun => tx.writes == EmptyDb
       case Reuse => tx.writes == EmptyDb
       case Checked(at) => Claimed(w, locks, t, tx, at) && tx.writes == EmptyDb
       case Spent(at) => Claimed(w, locks, t, tx, at) && tx.writes == SpentWrites(w.db, tx.job, tx.started)
       case AccessIn(at, jti, expires) => AccessWritten(w, locks, t, tx, at, jti, expires)
       case Signed(at, jti, expires) => AccessWritten(w, locks, t, tx, at, jti, expires)
       case Sweeping(family, rows, todo) => SweepInv(w, locks, t, tx, family, rows, todo)
       case ConsentRead(at, base) =>
         tx.job.ConsentJob? && Claimed(w, locks, t, tx, at) && tx.writes == SpentWrites(w.db, tx.job, tx.started)
       case ConsentWritten(at, base) =>
         && tx.job.ConsentJob? && Claimed(w, locks, t, tx, at)
         && var r := w.db.requests[tx.job.token];
         tx.writes == SpentWrites(w.db, tx.job, tx.started).(
                        consents := map[(r.user, r.app) := Merge(base, ScopeList(r.scope))])
       case Ready(e) => ReadyInv(w, locks, t, tx, e)
  }

  ghost predicate Inv(s: Sys) {
    && ChainInv(s.world.db.refresh)
    && (forall t :: t in s.txs ==> TxInv(s.world, s.locks, t, s.txs[t]))
    && (forall row :: row in s.locks ==> s.locks[row] in s.txs)
  }

  // ----- Other transactions' changes leave it alone -----

  /** The change did not touch this row. */
  predicate SameRow(before: Db, after: Db, row: Row) {
    match row
    case RequestRow(h) => SameEntry(before.requests, after.requests, h)
    case CodeRow(h) => SameEntry(before.codes, after.codes, h)
    case RefreshRow(h) => SameEntry(before.refresh, after.refresh, h)
    case AccessRow(jti) => SameEntry(before.access, after.access, jti)
    case ConsentRow(user, app) => true
    case FamilyRow(family) => FamilyRows(before.refresh, family) == {} ==> FamilyRows(after.refresh, family) == {}
  }

  predicate SameEntry<K, V(==)>(before: map<K, V>, after: map<K, V>, k: K) {
    (k in before <==> k in after) && (k in before ==> before[k] == after[k])
  }

  /** Refresh rows never disappear and never change family or parent. */
  predicate RowsPersist(before: map<Hash, Refresh>, after: map<Hash, Refresh>) {
    forall h :: h in before ==> h in after && after[h].family == before[h].family && after[h].parent == before[h].parent
  }

  ghost predicate Gentle(w: World, w': World, locks: map<Row, TxId>, t: TxId) {
    && w.now <= w'.now && w.env.digests == w'.env.digests
    && RowsPersist(w.db.refresh, w'.db.refresh)
    && forall row :: Holds(locks, t, row) ==> SameRow(w.db, w'.db, row)
  }

  lemma ClaimedStable(w: World, w': World, locks: map<Row, TxId>, t: TxId, tx: Tx, at: Time)
    requires Claimed(w, locks, t, tx, at) && Gentle(w, w', locks, t)
    ensures Claimed(w', locks, t, tx, at)
    ensures SpentWrites(w'.db, tx.job, tx.started) == SpentWrites(w.db, tx.job, tx.started)
    ensures tx.job.ConsentJob? ==> w'.db.requests[tx.job.token] == w.db.requests[tx.job.token]
    ensures Issues(w.db, tx.job) ==> Issues(w'.db, tx.job) && GranteeOf(w'.db, tx.job) == GranteeOf(w.db, tx.job)
  {
    assert SameRow(w.db, w'.db, Target(tx.job));
  }

  lemma SweepStable(w: World, w': World, locks: map<Row, TxId>, t: TxId, tx: Tx, family: Id, rows: set<Hash>,
      todo: set<Hash>)
    requires SweepInv(w, locks, t, tx, family, rows, todo) && Gentle(w, w', locks, t)
    ensures SweepInv(w', locks, t, tx, family, rows, todo)
  {
    assert forall h :: h in rows ==> h in FamilyRows(w.db.refresh, family);
    forall h | h in rows - todo ensures h in w'.db.refresh && w'.db.refresh[h] == w.db.refresh[h] {
      assert SameRow(w.db, w'.db, RefreshRow(h));
    }
    assert RevokedRows(w'.db.refresh, rows - todo, tx.started) == RevokedRows(w.db.refresh, rows - todo, tx.started);
  }

  lemma RevokeReadyStable(w: World, w': World, locks: map<Row, TxId>, t: TxId, tx: Tx, e: Event)
    requires ReadyInv(w, locks, t, tx, e) && e.Revoke? && Gentle(w, w', locks, t)
    ensures ReadyInv(w', locks, t, tx, e)
  {
    forall h | h in e.rows ensures h in w'.db.refresh && w'.db.refresh[h] == w.db.refresh[h] {
      assert RefreshRow(h) in Footprint(e);
      assert SameRow(w.db, w'.db, RefreshRow(h));
      assert h in FamilyRows(w.db.refresh, e.family);
    }
    assert RevokedRows(w'.db.refresh, e.rows, e.started) == RevokedRows(w.db.refresh, e.rows, e.started);
  }

  lemma ExchangeReadyStable(w: World, w': World, locks: map<Row, TxId>, t: TxId, tx: Tx, e: Event)
    requires ReadyInv(w, locks, t, tx, e) && e.Exchange? && Gentle(w, w', locks, t)
    ensures ReadyInv(w', locks, t, tx, e)
  {
    assert SameRow(w.db, w'.db, CodeRow(e.code)) && SameRow(w.db, w'.db, AccessRow(e.mint.jti));
    assert SameRow(w.db, w'.db, RefreshRow(e.mint.token)) && SameRow(w.db, w'.db, FamilyRow(e.family));
  }

  lemma RotateReadyStable(w: World, w': World, locks: map<Row, TxId>, t: TxId, tx: Tx, e: Event)
    requires ReadyInv(w, locks, t, tx, e) && e.Rotate? && Gentle(w, w', locks, t)
    ensures ReadyInv(w', locks, t, tx, e)
  {
    assert SameRow(w.db, w'.db, RefreshRow(e.token)) && SameRow(w.db, w'.db, AccessRow(e.mint.jti));
    assert SameRow(w.db, w'.db, RefreshRow(e.mint.token));
  }

  lemma DecisionReadyStable(w: World, w': World, locks: map<Row, TxId>, t: TxId, tx: Tx, e: Event)
    requires ReadyInv(w, locks, t, tx, e) && (e.Deny? || e.Approve?) && Gentle(w, w', locks, t)
    ensures ReadyInv(w', locks, t, tx, e)
  {
    hide ScopeList, Merge;
    assert SameRow(w.db, w'.db, RequestRow(e.token));
    if e.Approve? {
      assert SameRow(w.db, w'.db, CodeRow(e.code));
    }
  }

  lemma ReadyStable(w: World, w': World, locks: map<Row, TxId>, t: TxId, tx: Tx, e: Event)
    requires ReadyInv(w, locks, t, tx, e) && Gentle(w, w', locks, t)
    ensures ReadyInv(w', locks, t, tx, e)
  {
    hide Enabled, Footprint, WritesOf, Gentle, ParentClosed;
    match e
    case Revoke(_, _, _) => RevokeReadyStable(w, w', locks, t, tx, e);
    case Exchange(_, _, _, _, _, _, _, _) => ExchangeReadyStable(w, w', locks, t, tx, e);
    case Rotate(_, _, _, _, _) => RotateReadyStable(w, w', locks, t, tx, e);
    case Deny(_, _, _, _) => DecisionReadyStable(w, w', locks, t, tx, e);
    case Approve(_, _, _, _, _, _) => DecisionReadyStable(w, w', locks, t, tx, e);
  }

  /** What a transaction knows survives any change that respects its locks. */
  lemma TxStable(w: World, w': World, locks: map<Row, TxId>, t: TxId, tx: Tx)
    requires TxInv(w, locks, t, tx) && Gentle(w, w', locks, t)
    ensures TxInv(w', locks, t, tx)
  {
    match tx.stage
    case Begun => case Reuse =>
    case Checked(at) => ClaimedStable(w, w', locks, t, tx, at);
    case Spent(at) => ClaimedStable(w, w', locks, t, tx, at);
    case AccessIn(at, jti, expires) =>
      ClaimedStable(w, w', locks, t, tx, at);
      assert SameRow(w.db, w'.db, AccessRow(jti));
    case Signed(at, jti, expires) =>
      ClaimedStable(w, w', locks, t, tx, at);
      assert SameRow(w.db, w'.db, AccessRow(jti));
    case Sweeping(family, rows, todo) => SweepStable(w, w', locks, t, tx, family, rows, todo);
    case ConsentRead(at, base) => ClaimedStable(w, w', locks, t, tx, at);
    case ConsentWritten(at, base) => ClaimedStable(w, w', locks, t, tx, at);
    case Ready(e) => ReadyStable(w, w', locks, t, tx, e);
  }

  /** Taking more locks, or releasing other transactions' locks, changes nothing either. */
  lemma TxKeepsLocks(w: World, locks: map<Row, TxId>, locks': map<Row, TxId>, t: TxId, tx: Tx)
    requires TxInv(w, locks, t, tx)
    requires forall row :: Holds(locks, t, row) ==> Holds(locks', t, row)
    ensures TxInv(w, locks', t, tx)
  {
    match tx.stage
    case Ready(e) =>
    case Sweeping(family, rows, todo) =>
    case _ =>
  }

  // ----- An event changes nothing outside its footprint -----

  lemma EventFootprint(w: World, e: Event, row: Row)
    requires Enabled(w, e) && row !in Footprint(e)
    ensures SameRow(w.db, Apply(w, e).db, row)
  {
    var before, after := w.db, Apply(w, e).db;
    match e
    case Rotate(_, token, mint, _, _) =>
      if row.FamilyRow? && FamilyRows(before.refresh, row.family) == {} {
        assert token in FamilyRows(before.refresh, before.refresh[token].family);
        forall h ensures h !in FamilyRows(after.refresh, row.family) {
          assert h in FamilyRows(before.refresh, row.family)
            <==> h in before.refresh && before.refresh[h].family == row.family;
        }
      }
    case Exchange(_, code, _, _, family, mint, _, _) =>
      if row.FamilyRow? && FamilyRows(before.refresh, row.family) == {} {
        forall h ensures h !in FamilyRows(after.refresh, row.family) {
          assert h in FamilyRows(before.refresh, row.family)
            <==> h in before.refresh && before.refresh[h].family == row.family;
        }
      }
    case Revoke(_, rows, started) =>
      RevokeFootprint(w, e, row);
    case _ =>
  }

  lemma RevokeFootprint(w: World, e: Event, row: Row)
    requires Enabled(w, e) && e.Revoke? && row !in Footprint(e)
    ensures SameRow(w.db, Apply(w, e).db, row)
  {
    var before, after := w.db.refresh, Apply(w, e).db.refresh;
    if row.RefreshRow? {
      assert row.h !in e.rows;
    } else if row.FamilyRow? {
      forall h ensures h in FamilyRows(after, row.family) <==> h in FamilyRows(before, row.family) {
      }
    }
  }

  lemma EventPersists(w: World, e: Event)
    requires Enabled(w, e)
    ensures RowsPersist(w.db.refresh, Apply(w, e).db.refresh)
  {
  }

  lemma OverlayRevoke(w: World, e: Event)
    requires Enabled(w, e) && e.Revoke?
    ensures Overlay(w.db, WritesOf(w.db, e)) == ApplyDb(w, e)
  {
    var over, after := Overlay(w.db, WritesOf(w.db, e)), ApplyDb(w, e);
    assert forall h :: h in e.rows ==> h in FamilyRows(w.db.refresh, e.family);
    assert over.refresh == after.refresh;
  }

  lemma OverlayExchange(w: World, e: Event)
    requires Enabled(w, e) && e.Exchange?
    ensures Overlay(w.db, WritesOf(w.db, e)) == ApplyDb(w, e)
  {
    var over, after := Overlay(w.db, WritesOf(w.db, e)), ApplyExchange(w.db, e.code, e.family, e.mint, e.started);
    OneEntry(w.db.codes, e.code, after.codes[e.code]);
    OneEntry(w.db.refresh, e.mint.token, after.refresh[e.mint.token]);
    OneEntry(w.db.access, e.mint.jti, after.access[e.mint.jti]);
  }

  lemma OneEntry<K, V>(m: map<K, V>, k: K, v: V)
    ensures m + map[k := v] == m[k := v]
  {
  }

  lemma TwoEntries<K, V>(m: map<K, V>, k: K, v: V, l: K, u: V)
    ensures m + map[k := v][l := u] == m[k := v][l := u]
  {
  }

  lemma OverlayRotate(w: World, e: Event)
    requires Enabled(w, e) && e.Rotate?
    ensures Overlay(w.db, WritesOf(w.db, e)) == ApplyDb(w, e)
  {
    var over, after := Overlay(w.db, WritesOf(w.db, e)), ApplyRotate(w.db, e.token, e.mint, e.started);
    var r := w.db.refresh[e.token].(consumedAt := Some(e.started));
    var row := after.refresh[e.mint.token];
    assert over.refresh == w.db.refresh + map[e.token := r][e.mint.token := row];
    TwoEntries(w.db.refresh, e.token, r, e.mint.token, row);
    OneEntry(w.db.access, e.mint.jti, after.access[e.mint.jti]);
  }

  lemma OverlayDeny(w: World, e: Event)
    requires Enabled(w, e) && e.Deny?
    ensures Overlay(w.db, WritesOf(w.db, e)) == ApplyDb(w, e)
  {
    assert Overlay(w.db, WritesOf(w.db, e)).requests == ConsumeRequest(w.db, e.token, e.started).requests;
  }

  lemma OverlayApprove(w: World, e: Event)
    requires Enabled(w, e) && e.Approve?
    ensures Overlay(w.db, WritesOf(w.db, e)) == ApplyDb(w, e)
  {
    hide ScopeList, Merge;
    var over, after := Overlay(w.db, WritesOf(w.db, e)), ApplyApprove(w.db, e.token, e.code, e.base, e.started);
    assert over.requests == after.requests;
    assert over.codes == after.codes;
    assert over.consents == after.consents;
  }

  /** The writes of a ready transaction, laid over the tables, are exactly its event. */
  lemma OverlayIsApply(w: World, e: Event)
    requires Enabled(w, e) && !OneStatementEvent(e)
    ensures Overlay(w.db, WritesOf(w.db, e)) == ApplyDb(w, e)
  {
    match e
    case Revoke(_, _, _) => OverlayRevoke(w, e);
    case Exchange(_, _, _, _, _, _, _, _) => OverlayExchange(w, e);
    case Rotate(_, _, _, _, _) => OverlayRotate(w, e);
    case Deny(_, _, _, _) => OverlayDeny(w, e);
    case Approve(_, _, _, _, _, _) => OverlayApprove(w, e);
  }

  // ----- Every statement keeps the invariant -----

  /** Locks are only taken where free, so nobody loses one. */
  lemma LocksKept(s: Sys, l: Label, s': Sys, other: TxId, row: Row)
    requires !l.Begin? && !l.Rollback? && !l.Commit? && !l.OneStatement?
    requires l.t in s.txs && TxNext(s, l, s.txs[l.t], s')
    requires Holds(s.locks, other, row)
    ensures Holds(s'.locks, other, row)
  {
  }

  /** What the statement lemmas need of the state before: the transaction's own knowledge. */
  ghost predicate Own(s: Sys, l: Label, s': Sys)
    requires !l.Begin? && !l.Rollback? && !l.Commit? && !l.OneStatement?
  {
    l.t in s.txs && TxInv(s.world, s.locks, l.t, s.txs[l.t]) && TxNext(s, l, s.txs[l.t], s')
  }

  ghost predicate OwnKept(s: Sys, t: TxId, s': Sys) {
    s'.world == s.world && t in s'.txs && TxInv(s'.world, s'.locks, t, s'.txs[t])
  }

  lemma IssueStatement(s: Sys, l: Label, s': Sys)
    requires l.SelectForUpdate? || l.Spend? || l.InsertAccess? || l.SignId?
    requires Own(s, l, s')
    ensures OwnKept(s, l.t, s')
  {
  }

  lemma InsertRefreshStatement(s: Sys, l: Label, s': Sys)
    requires l.InsertRefresh? && Own(s, l, s')
    ensures OwnKept(s, l.t, s')
  {
    var e := s'.txs[l.t].stage.event;
    assert Enabled(s.world, e);
    assert s'.txs[l.t].writes == WritesOf(s.world.db, e);
  }

  lemma ConsentStatement(s: Sys, l: Label, s': Sys)
    requires l.FinishDeny? || l.ReadConsent? || l.UpsertConsent?
    requires Own(s, l, s')
    ensures OwnKept(s, l.t, s')
  {
    hide ScopeList, Merge;
  }

  lemma InsertCodeStatement(s: Sys, l: Label, s': Sys)
    requires l.InsertCode? && Own(s, l, s')
    ensures OwnKept(s, l.t, s')
  {
    hide ScopeList, Merge;
    var e := s'.txs[l.t].stage.event;
    assert Enabled(s.world, e);
    assert s'.txs[l.t].writes == WritesOf(s.world.db, e);
  }

  lemma FamilyParentClosed(refresh: map<Hash, Refresh>, family: Id)
    requires ChainInv(refresh)
    ensures ParentClosed(refresh, FamilyRows(refresh, family))
  {
    var rows := FamilyRows(refresh, family);
    forall h | h in rows && refresh[h].parent.Some? ensures refresh[h].parent.value in rows {
      var chain :| IsChain(refresh, family, chain);
      var k := IndexOf(refresh, family, chain, h);
      assert Link(refresh, family, chain, k - 1);
    }
  }

  lemma SweepRowWrites(refresh: map<Hash, Refresh>, rows: set<Hash>, todo: set<Hash>, h: Hash, started: Time)
    requires h in todo && todo <= rows && h in refresh
    ensures RevokedRows(refresh, rows - todo, started)[h := Revoked(refresh[h], started)]
         == RevokedRows(refresh, rows - (todo - {h}), started)
  {
    assert rows - (todo - {h}) == (rows - todo) + {h};
  }

  lemma SweepStartStatement(s: Sys, l: Label, s': Sys)
    requires l.SweepStart? && Own(s, l, s') && ChainInv(s.world.db.refresh)
    ensures OwnKept(s, l.t, s')
  {
    var tx, refresh := s.txs[l.t], s.world.db.refresh;
    var family := refresh[tx.job.token].family;
    FamilyParentClosed(refresh, family);
    hide ChainInv;
    var rows := FamilyRows(refresh, family);
    assert tx.job.token in rows;
    assert rows - rows == {};
    assert RevokedRows(refresh, {}, tx.started) == map[];
  }

  lemma SweepRowStatement(s: Sys, l: Label, s': Sys)
    requires l.SweepRow? && Own(s, l, s')
    ensures OwnKept(s, l.t, s')
  {
    var tx := s.txs[l.t];
    SweepRowWrites(s.world.db.refresh, tx.stage.rows, tx.stage.todo, l.h, tx.started);
  }

  lemma SweepEndStatement(s: Sys, l: Label, s': Sys)
    requires l.SweepEnd? && Own(s, l, s')
    ensures OwnKept(s, l.t, s')
  {
    var tx := s.txs[l.t];
    assert tx.stage.rows - {} == tx.stage.rows;
  }

  lemma StatementKeepsInv(s: Sys, l: Label, s': Sys)
    requires Inv(s) && !l.Begin? && !l.Rollback? && !l.Commit? && !l.OneStatement?
    requires Next(s, l, s')
    ensures Inv(s') && s'.world == s.world
  {
    assert Own(s, l, s');
    assert OwnKept(s, l.t, s') by {
      hide TxInv, TxNext, ChainInv;
      match l {
        case SelectForUpdate(_) => IssueStatement(s, l, s');
        case Spend(_) => IssueStatement(s, l, s');
        case InsertAccess(_, _, _) => IssueStatement(s, l, s');
        case SignId(_) => IssueStatement(s, l, s');
        case InsertRefresh(_, _, _, _) => InsertRefreshStatement(s, l, s');
        case SweepStart(_) => SweepStartStatement(s, l, s');
        case SweepRow(_, _) => SweepRowStatement(s, l, s');
        case SweepEnd(_) => SweepEndStatement(s, l, s');
        case FinishDeny(_) => ConsentStatement(s, l, s');
        case ReadConsent(_) => ConsentStatement(s, l, s');
        case UpsertConsent(_) => ConsentStatement(s, l, s');
        case InsertCode(_, _) => InsertCodeStatement(s, l, s');
      }
    }
    OthersKept(s, l, s');
  }

  lemma OthersKept(s: Sys, l: Label, s': Sys)
    requires !l.Begin? && !l.Rollback? && !l.Commit? && !l.OneStatement?
    requires Inv(s) && Next(s, l, s')
    requires s'.world == s.world && l.t in s'.txs && TxInv(s'.world, s'.locks, l.t, s'.txs[l.t])
    ensures Inv(s')
  {
    hide TxInv, ChainInv;
    forall t | t in s'.txs && t != l.t ensures TxInv(s'.world, s'.locks, t, s'.txs[t]) {
      assert TxInv(s.world, s.locks, t, s.txs[t]);
      forall row | Holds(s.locks, t, row) ensures Holds(s'.locks, t, row) {
        LocksKept(s, l, s', t, row);
      }
      TxKeepsLocks(s.world, s.locks, s'.locks, t, s.txs[t]);
    }
    LockOwners(s, l, s');
  }

  lemma LockOwners(s: Sys, l: Label, s': Sys)
    requires !l.Begin? && !l.Rollback? && !l.Commit? && !l.OneStatement?
    requires l.t in s.txs && TxNext(s, l, s.txs[l.t], s')
    requires forall row :: row in s.locks ==> s.locks[row] in s.txs
    ensures forall row :: row in s'.locks ==> s'.locks[row] in s'.txs
  {
  }

  /** A change that respects what every transaction holds, after `gone` has ended. */
  lemma WorldChange(s: Sys, w': World, gone: set<TxId>, locks': map<Row, TxId>)
    requires Inv(s) && ChainInv(w'.db.refresh)
    requires forall row :: row in locks' ==> row in s.locks && locks'[row] == s.locks[row] && s.locks[row] !in gone
    requires forall t :: t in s.txs && t !in gone ==> Gentle(s.world, w', s.locks, t)
    requires forall t, row :: t in s.txs && t !in gone && Holds(s.locks, t, row) ==> Holds(locks', t, row)
    ensures Inv(Sys(w', locks', s.txs - gone))
  {
    hide TxInv, ChainInv, Gentle;
    forall t | t in s.txs && t !in gone ensures TxInv(w', locks', t, s.txs[t]) {
      TxStable(s.world, w', s.locks, t, s.txs[t]);
      TxKeepsLocks(w', s.locks, locks', t, s.txs[t]);
    }
  }

  lemma ReadyToCommit(s: Sys, t: TxId, s': Sys)
    requires Inv(s) && Next(s, Commit(t), s')
    ensures t in s.txs && s.txs[t].stage.Ready? && ReadyInv(s.world, s.locks, t, s.txs[t], s.txs[t].stage.event)
    ensures s' == Sys(s.world.(db := Overlay(s.world.db, s.txs[t].writes)), Release(s.locks, t), s.txs - {t})
  {
    assert TxInv(s.world, s.locks, t, s.txs[t]);
  }

  lemma CommitWorld(s: Sys, t: TxId, s': Sys)
    requires Inv(s) && Next(s, Commit(t), s')
    ensures t in s.txs && s.txs[t].stage.Ready?
    ensures Enabled(s.world, s.txs[t].stage.event) && s'.world == Apply(s.world, s.txs[t].stage.event)
    ensures s'.locks == Release(s.locks, t) && s'.txs == s.txs - {t}
    ensures forall row :: row in Footprint(s.txs[t].stage.event) ==> Holds(s.locks, t, row)
  {
    hide Inv, Next, Enabled, Overlay, WritesOf, ApplyDb, Footprint;
    ReadyToCommit(s, t, s');
    OverlayIsApply(s.world, s.txs[t].stage.event);
  }

  lemma CommitIsEvent(s: Sys, t: TxId, s': Sys)
    requires Inv(s) && Next(s, Commit(t), s')
    ensures Enabled(s.world, s.txs[t].stage.event) && s'.world == Apply(s.world, s.txs[t].stage.event)
    ensures Inv(s')
  {
    hide Enabled, Apply, Next, TxInv, SameRow, RowsPersist;
    CommitWorld(s, t, s');
    var e, w := s.txs[t].stage.event, s.world;
    EventKeepsChains(w, e);
    EventPersists(w, e);
    EventClock(w, e);
    forall other | other in s.txs && other != t ensures Gentle(w, s'.world, s.locks, other) {
      forall row | Holds(s.locks, other, row) ensures SameRow(w.db, s'.world.db, row) {
        EventFootprint(w, e, row);
      }
    }
    WorldChange(s, s'.world, {t}, s'.locks);
  }

  lemma EventClock(w: World, e: Event)
    requires Enabled(w, e)
    ensures w.now <= Apply(w, e).now && w.env.digests == Apply(w, e).env.digests
  {
  }

  lemma OneStatementKeepsInv(s: Sys, e: Event, s': Sys)
    requires Inv(s) && Next(s, OneStatement(e), s')
    ensures Inv(s')
  {
    var w := s.world;
    EventKeepsChains(w, e);
    EventPersists(w, e);
    forall other | other in s.txs ensures Gentle(w, s'.world, s.locks, other) {
      forall row | Holds(s.locks, other, row) ensures SameRow(w.db, s'.world.db, row) {
        if row !in Footprint(e) {
          EventFootprint(w, e, row);
        }
      }
    }
    assert s.txs - {} == s.txs;
    WorldChange(s, s'.world, {}, s.locks);
  }

  /** The committed ledger event of a step, if it has one. */
  function EventOf(s: Sys, l: Label): Option<Event> {
    match l
    case Commit(t) => if t in s.txs && s.txs[t].stage.Ready? then Some(s.txs[t].stage.event) else None
    case OneStatement(e) => Some(e)
    case _ => None
  }

  /** Each step of the interleaved system either leaves the tables alone or performs exactly
      one enabled ledger event. */
  lemma StepRefines(s: Sys, l: Label, s': Sys)
    requires Inv(s) && Next(s, l, s')
    ensures Inv(s')
    ensures EventOf(s, l) == None ==> s'.world == s.world
    ensures EventOf(s, l).Some? ==>
              Enabled(s.world, EventOf(s, l).value) && s'.world == Apply(s.world, EventOf(s, l).value)
  {
    match l
    case Begin(t, job) =>
      BeginKeepsInv(s, t, job, s');
    case Rollback(t) =>
      RollbackKeepsInv(s, t, s');
    case Commit(t) => CommitIsEvent(s, t, s');
    case OneStatement(e) => OneStatementKeepsInv(s, e, s');
    case _ => StatementKeepsInv(s, l, s');
  }

  lemma BeginKeepsInv(s: Sys, t: TxId, job: Job, s': Sys)
    requires Inv(s) && Next(s, Begin(t, job), s')
    ensures Inv(s') && s'.world == s.world
  {
    hide ChainInv;
  }

  lemma RollbackKeepsInv(s: Sys, t: TxId, s': Sys)
    requires Inv(s) && Next(s, Rollback(t), s')
    ensures Inv(s') && s'.world == s.world
  {
    hide ChainInv;
    WorldChange(s, s.world, {t}, s'.locks);
  }

  // ----- Whole interleaved runs -----

  datatype History = History(states: seq<Sys>, labels: seq<Label>)

  ghost predicate NextAt(h: History, i: nat)
    requires i < |h.labels| && i + 1 < |h.states|
  {
    Next(h.states[i], h.labels[i], h.states[i + 1])
  }

  ghost predicate Steps(h: History) {
    && |h.states| == |h.labels| + 1
    && forall i :: 0 <= i < |h.labels| ==> NextAt(h, i)
  }

  /** One run after another. */
  lemma Joined(h: History, g: History) returns (j: History)
    requires Steps(h) && Steps(g) && h.states[|h.labels|] == g.states[0]
    ensures Steps(j) && j.labels == h.labels + g.labels && j.states[0] == h.states[0]
    ensures forall i :: 0 <= i < |g.states| ==> j.states[|h.labels| + i] == g.states[i]
  {
    hide Next;
    j := History(h.states + g.states[1..], h.labels + g.labels);
    forall i | 0 <= i < |j.labels| ensures NextAt(j, i) {
      if i < |h.labels| {
        assert NextAt(h, i);
      } else {
        assert NextAt(g, i - |h.labels|);
      }
    }
  }

  ghost predicate IsHistory(h: History) {
    && Steps(h)
    && h.states[0].world.db == EmptyDb && h.states[0].locks == map[] && h.states[0].txs == map[]
  }

  lemma {:induction false} InvThroughout(h: History, i: nat)
    requires IsHistory(h) && i < |h.states|
    ensures Inv(h.states[i])
    decreases i
  {
    if i > 0 {
      InvThroughout(h, i - 1);
      assert NextAt(h, i - 1);
      StepRefines(h.states[i - 1], h.labels[i - 1], h.states[i]);
    }
  }

  /** Step `i` lies after step `c` in the same transaction: an identifier is free again only
      once its transaction has ended. */
  ghost predicate SameTransaction(h: History, c: nat, i: nat, t: TxId) {
    c <= i < |h.states| && forall k :: c <= k <= i ==> t in h.states[k].txs
  }

  // ----- Interleaved runs are ledger runs -----

  /** The ledger run made of the committed events of the first `n` steps. */
  ghost function Projection(h: History, n: nat): Run
    requires n < |h.states| && n <= |h.labels|
  {
    if n == 0 then Run([h.states[0].world], [])
    else
      var before := Projection(h, n - 1);
      match EventOf(h.states[n - 1], h.labels[n - 1])
      case None => before
      case Some(e) => Run(before.worlds + [h.states[n].world], before.events + [e])
  }

  /** Refinement: under every interleaving the tables evolve as in a run of the ledger whose
      steps are the committed transactions, in commit order. */
  lemma {:induction false} InterleavingRefinesLedger(h: History, n: nat)
    requires IsHistory(h) && n < |h.states|
    ensures IsRun(Projection(h, n))
    ensures Projection(h, n).worlds[|Projection(h, n).events|] == h.states[n].world
    decreases n
  {
    if n > 0 {
      InterleavingRefinesLedger(h, n - 1);
      InvThroughout(h, n - 1);
      assert NextAt(h, n - 1);
      StepRefines(h.states[n - 1], h.labels[n - 1], h.states[n]);
      if EventOf(h.states[n - 1], h.labels[n - 1]).Some? {
        AppendStep(Projection(h, n - 1), EventOf(h.states[n - 1], h.labels[n - 1]).value, h.states[n].world);
      }
    }
  }

  lemma AppendStep(run: Run, e: Event, w: World)
    requires IsRun(run)
    requires Enabled(run.worlds[|run.events|], e) && w == Apply(run.worlds[|run.events|], e)
    ensures IsRun(Run(run.worlds + [w], run.events + [e]))
  {
    var longer := Run(run.worlds + [w], run.events + [e]);
    forall i | 0 <= i < |longer.events| ensures StepAt(longer, i) {
      if i < |run.events| {
        assert StepAt(run, i);
      }
    }
  }

  /** Chains, conservation, `openid` and the way back from every grant to an authorize step
      hold in every state of every interleaving. */
  lemma InterleavedLaws(h: History, n: nat)
    requires IsHistory(h) && n < |h.states|
    ensures ChainInv(h.states[n].world.db.refresh)
    ensures Balanced(h.states[n].world.db)
    ensures OpenidInv(h.states[n].world.db)
    ensures IsRun(Projection(h, n))
    ensures P.AllTraced(Projection(h, n), |Projection(h, n).events|, h.states[n].world.db)
    ensures P.TokensTraced(Projection(h, n), |Projection(h, n).events|, h.states[n].world.db)
  {
    InterleavingRefinesLedger(h, n);
    var run := Projection(h, n);
    P.CodesComeFromAuthorize(run, |run.events|);
    P.TokensComeFromExchange(run, |run.events|);
    EveryFamilyIsAChain(run, |run.events|);
    TokensAreConserved(run, |run.events|);
    EveryUserGrantHasOpenid(run, |run.events|);
  }

  /** The request, code or refresh token that an event uses up. */
  function UsesUp(e: Event): Option<Row> {
    match e
    case Deny(_, token, _, _) => Some(RequestRow(token))
    case Approve(_, token, _, _, _, _) => Some(RequestRow(token))
    case Exchange(_, code, _, _, _, _, _, _) => Some(CodeRow(code))
    case Rotate(_, token, _, _, _) => Some(RefreshRow(token))
    case _ => None
  }

  predicate UsedUp(db: Db, row: Row) {
    match row
    case RequestRow(h) => h in db.requests && db.requests[h].consumedAt.Some?
    case CodeRow(h) => h in db.codes && db.codes[h].consumedAt.Some?
    case RefreshRow(h) => h in db.refresh && db.refresh[h].consumedAt.Some?
    case _ => false
  }

  lemma UsingUp(w: World, e: Event)
    requires Enabled(w, e)
    ensures UsesUp(e).Some? ==> !UsedUp(w.db, UsesUp(e).value) && UsedUp(Apply(w, e).db, UsesUp(e).value)
    ensures forall row :: UsedUp(w.db, row) ==> UsedUp(Apply(w, e).db, row)
  {
  }

  lemma {:induction false} UsedUpStays(h: History, i: nat, k: nat, row: Row)
    requires IsHistory(h) && i <= k < |h.states| && UsedUp(h.states[i].world.db, row)
    ensures UsedUp(h.states[k].world.db, row)
    decreases k
  {
    if i < k {
      UsedUpStays(h, i, k - 1, row);
      if EventOf(h.states[k - 1], h.labels[k - 1]).None? {
        InvThroughout(h, k - 1);
        assert NextAt(h, k - 1);
        StepRefines(h.states[k - 1], h.labels[k - 1], h.states[k]);
      } else {
        CommittedEvent(h, k - 1);
        UsingUp(h.states[k - 1].world, EventOf(h.states[k - 1], h.labels[k - 1]).value);
      }
    }
  }

  lemma CommittedEvent(h: History, i: nat)
    requires IsHistory(h) && i < |h.labels| && EventOf(h.states[i], h.labels[i]).Some?
    ensures
      var e := EventOf(h.states[i], h.labels[i]).value;
      Enabled(h.states[i].world, e) && h.states[i + 1].world == Apply(h.states[i].world, e)
  {
    InvThroughout(h, i);
    assert NextAt(h, i);
    StepRefines(h.states[i], h.labels[i], h.states[i + 1]);
  }

  /** Single use under every interleaving: no two committed transactions use up the same
      authorization request, authorization code or refresh token. */
  lemma UsedAtMostOnce(h: History, i: nat, k: nat)
    requires IsHistory(h) && i < k < |h.labels|
    requires EventOf(h.states[i], h.labels[i]).Some? && EventOf(h.states[k], h.labels[k]).Some?
    requires UsesUp(EventOf(h.states[i], h.labels[i]).value).Some?
    ensures UsesUp(EventOf(h.states[i], h.labels[i]).value) != UsesUp(EventOf(h.states[k], h.labels[k]).value)
  {
    CommittedEvent(h, i);
    CommittedEvent(h, k);
    hide Enabled, Apply, UsedUp, UsesUp, EventOf, IsHistory;
    var first, second := EventOf(h.states[i], h.labels[i]).value, EventOf(h.states[k], h.labels[k]).value;
    UsingUp(h.states[i].world, first);
    UsedUpStays(h, i + 1, k, UsesUp(first).value);
    UsingUp(h.states[k].world, second);
  }

  // ----- What interleaving breaks, and when -----

  /** The family-wide UPDATE sees only the rows visible when it starts. When it commits it
      has reached the whole family exactly when one of the rows it revoked is still
      unconsumed; otherwise the tip is a row inserted meanwhile. The family is dead
      afterwards exactly when nothing it missed is live. */
  lemma SweepKillsIff(s: Sys, t: TxId, s': Sys)
    requires Inv(s) && Next(s, Commit(t), s')
    requires s.txs[t].stage.Ready? && s.txs[t].stage.event.Revoke?
    ensures
      var e, refresh := s.txs[t].stage.event, s.world.db.refresh;
      && (e.rows == FamilyRows(refresh, e.family) <==>
            exists h :: h in e.rows && h in refresh && refresh[h].consumedAt == None)
      && (Dead(s'.world.db.refresh, e.family) <==>
            forall h :: h in FamilyRows(refresh, e.family) - e.rows ==> refresh[h].revokedAt.Some?)
  {
    var e, refresh := s.txs[t].stage.event, s.world.db.refresh;
    assert TxInv(s.world, s.locks, t, s.txs[t]);
    CommitIsEvent(s, t, s');
    forall h | h in e.rows ensures h in refresh {
      assert h in FamilyRows(refresh, e.family);
    }
    PartialRevokeKillsIff(refresh, e.family, e.rows);
    DeadAfterRevoke(refresh, e.family, e.rows, e.started);
  }

  lemma DeadAfterRevoke(refresh: map<Hash, Refresh>, family: Id, rows: set<Hash>, started: Time)
    requires rows != {} && rows <= FamilyRows(refresh, family)
    ensures Dead(RevokeRows(refresh, rows, started), family) <==>
              forall h :: h in FamilyRows(refresh, family) - rows ==> refresh[h].revokedAt.Some?
  {
    var after := RevokeRows(refresh, rows, started);
    assert FamilyRows(after, family) == FamilyRows(refresh, family);
    if Dead(after, family) {
      forall h | h in FamilyRows(refresh, family) - rows ensures refresh[h].revokedAt.Some? {
        assert after[h] == refresh[h];
      }
    }
  }

  /** A quiet state with a refresh token about to be refreshed (transaction 0) and revoked
      (transaction 1) at the same time; `jti` and `next` are the values the refresh draws, the
      lifetimes are the client's, within the CHECKs of 0003_oidc.sql. */
  datatype Race = Race(s: Sys, app: Id, token: Hash, jti: Id, next: Hash, accessTtl: Time, refreshTtl: Time)

  ghost predicate Quiet(s: Sys) {
    Inv(s) && s.txs == map[] && s.locks == map[]
  }

  /** The refresh alone would go through. */
  ghost predicate Refreshing(x: Race) {
    var w := x.s.world;
    && RefreshUsable(w.db, x.app, x.token, w.now)
    && IdTokenOk(w.env, w.db.refresh[x.token].user, w.db.refresh[x.token].scope)
    && x.jti !in w.db.access && x.next !in w.db.refresh
    && MINUTE <= x.accessTtl <= 24 * 60 * MINUTE && 5 * MINUTE <= x.refreshTtl <= 365 * 24 * 60 * MINUTE
    && x.s.txs == map[] && x.s.locks == map[]
  }

  ghost predicate Racing(x: Race) {
    && Refreshing(x)
    && FamilyRows(x.s.world.db.refresh, x.s.world.db.refresh[x.token].family) == {x.token}
  }

  function Job0(x: Race): Job { RefreshJob(x.app, x.token) }

  function Job1(x: Race): Job { RevokeJob(x.app, x.token) }

  function Rotation(x: Race): Event {
    var now := x.s.world.now;
    Rotate(x.app, x.token, Mint(x.jti, x.next, now + x.accessTtl, now + x.refreshTtl), now, now)
  }

  ghost function Accessed(x: Race): Db
    requires Refreshing(x)
  {
    SpentWrites(x.s.world.db, Job0(x), x.s.world.now).(
      access := map[x.jti := AccessRowOf(x.s.world.db, Job0(x), x.s.world.now + x.accessTtl)])
  }

  function Locks2(x: Race): map<Row, TxId> { map[RefreshRow(x.token) := 0] }

  function Locks4(x: Race): map<Row, TxId> { Locks2(x)[AccessRow(x.jti) := 0] }

  /** With transaction 0 only. */
  function Alone(x: Race, locks: map<Row, TxId>, stage: Stage, writes: Db): Sys {
    Sys(x.s.world, locks, map[0 := Tx(Job0(x), x.s.world.now, stage, writes)])
  }

  ghost function S1(x: Race): Sys requires Refreshing(x) { Alone(x, map[], Begun, EmptyDb) }

  ghost function S2(x: Race): Sys requires Refreshing(x) { Alone(x, Locks2(x), Checked(x.s.world.now), EmptyDb) }

  ghost function S3(x: Race): Sys
    requires Refreshing(x)
  {
    Alone(x, Locks2(x), Spent(x.s.world.now), SpentWrites(x.s.world.db, Job0(x), x.s.world.now))
  }

  ghost function S4(x: Race): Sys
    requires Refreshing(x)
  {
    Alone(x, Locks4(x), AccessIn(x.s.world.now, x.jti, x.s.world.now + x.accessTtl), Accessed(x))
  }

  ghost function S5(x: Race): Sys
    requires Refreshing(x)
  {
    Alone(x, Locks4(x), Signed(x.s.world.now, x.jti, x.s.world.now + x.accessTtl), Accessed(x))
  }

  /** The refresh is ready to commit; its successor is not visible yet. */
  ghost function S6(x: Race): Sys
    requires Refreshing(x)
  {
    Alone(x, Locks4(x)[RefreshRow(x.next) := 0], Ready(Rotation(x)), WritesOf(x.s.world.db, Rotation(x)))
  }

  ghost function S7(x: Race): Sys
    requires Racing(x)
  {
    S6(x).(txs := S6(x).txs[1 := Tx(Job1(x), x.s.world.now, Begun, EmptyDb)])
  }

  /** The sweep has taken its snapshot: only the old token. */
  ghost function S8(x: Race): Sys
    requires Racing(x)
  {
    S6(x).(txs := S6(x).txs[1 := Tx(Job1(x), x.s.world.now, Sweeping(FamilyOf(x), {x.token}, {x.token}), EmptyDb)])
  }

  ghost function FamilyOf(x: Race): Id requires Racing(x) { x.s.world.db.refresh[x.token].family }

  ghost function W9(x: Race): World
    requires Racing(x)
    ensures x.token in W9(x).db.refresh
  {
    x.s.world.(db := Overlay(x.s.world.db, WritesOf(x.s.world.db, Rotation(x))))
  }

  ghost function Swept(x: Race): Db
    requires Racing(x)
  {
    EmptyDb.(refresh := map[x.token := Revoked(W9(x).db.refresh[x.token], x.s.world.now)])
  }

  /** With transaction 1 only, after the refresh committed. */
  ghost function Late(x: Race, locks: map<Row, TxId>, stage: Stage, writes: Db): Sys
    requires Racing(x)
  {
    Sys(W9(x), locks, map[1 := Tx(Job1(x), x.s.world.now, stage, writes)])
  }

  ghost function S9(x: Race): Sys
    requires Racing(x)
  {
    Late(x, map[], Sweeping(FamilyOf(x), {x.token}, {x.token}), EmptyDb)
  }

  ghost function S10(x: Race): Sys
    requires Racing(x)
  {
    Late(x, map[RefreshRow(x.token) := 1], Sweeping(FamilyOf(x), {x.token}, {}), Swept(x))
  }

  ghost function S11(x: Race): Sys
    requires Racing(x)
  {
    Late(x, map[RefreshRow(x.token) := 1], Ready(Revoke(FamilyOf(x), {x.token}, x.s.world.now)), Swept(x))
  }

  ghost function S12(x: Race): Sys
    requires Racing(x)
  {
    Sys(W9(x).(db := Overlay(W9(x).db, Swept(x))), map[], map[])
  }

  lemma Race1(x: Race) requires Refreshing(x) ensures Next(x.s, Begin(0, Job0(x)), S1(x)) { }

  lemma Race2(x: Race) requires Refreshing(x) ensures Next(S1(x), SelectForUpdate(0), S2(x)) { hide IdTokenOk; }

  lemma Race3(x: Race) requires Refreshing(x) ensures Next(S2(x), Spend(0), S3(x)) { hide IdTokenOk; }

  lemma Race4(x: Race)
    requires Refreshing(x)
    ensures Next(S3(x), InsertAccess(0, x.jti, x.s.world.now + x.accessTtl), S4(x))
  {
    hide IdTokenOk;
  }

  lemma Race5(x: Race) requires Refreshing(x) ensures Next(S4(x), SignId(0), S5(x)) { hide IdTokenOk; }

  lemma Race6(x: Race, family: Id)
    requires Refreshing(x)
    ensures Next(S5(x), InsertRefresh(0, x.next, family, x.s.world.now + x.refreshTtl), S6(x))
  {
    hide IdTokenOk;
  }

  lemma Race7(x: Race) requires Racing(x) ensures Next(S6(x), Begin(1, Job1(x)), S7(x)) { hide IdTokenOk, WritesOf; }

  lemma Race8(x: Race) requires Racing(x) ensures Next(S7(x), SweepStart(1), S8(x)) { hide IdTokenOk, WritesOf; }

  lemma Race9(x: Race)
    requires Racing(x)
    ensures Next(S8(x), Commit(0), S9(x))
  {
    hide IdTokenOk, WritesOf, Overlay;
    assert Release(S8(x).locks, 0) == map[];
    assert S8(x).txs - {0} == S9(x).txs;
  }

  lemma Race10(x: Race)
    requires Racing(x)
    ensures Next(S9(x), SweepRow(1, x.token), S10(x))
  {
    hide IdTokenOk, WritesOf, Overlay;
    assert {x.token} - {x.token} == {};
  }

  lemma Race11(x: Race)
    requires Racing(x)
    ensures Next(S10(x), SweepEnd(1), S11(x))
  {
    hide IdTokenOk, WritesOf, Overlay;
  }

  lemma Race12(x: Race)
    requires Racing(x)
    ensures Next(S11(x), Commit(1), S12(x))
  {
    hide IdTokenOk, WritesOf, Overlay;
    assert Release(S11(x).locks, 1) == map[];
    assert S11(x).txs - {1} == map[];
  }

  ghost function RaceHistory(x: Race, family: Id): History
    requires Racing(x)
  {
    History([x.s, S1(x), S2(x), S3(x), S4(x), S5(x), S6(x), S7(x), S8(x), S9(x), S10(x), S11(x), S12(x)],
            [Begin(0, Job0(x)), SelectForUpdate(0), Spend(0), InsertAccess(0, x.jti, x.s.world.now + x.accessTtl),
             SignId(0), InsertRefresh(0, x.next, family, x.s.world.now + x.refreshTtl), Begin(1, Job1(x)),
             SweepStart(1), Commit(0),
             SweepRow(1, x.token), SweepEnd(1), Commit(1)])
  }

  lemma RaceSteps(x: Race, family: Id)
    requires Racing(x)
    ensures Steps(RaceHistory(x, family))
  {
    hide Next, S1, S2, S3, S4, S5, S6, S7, S8, S9, S10, S11, S12, Refreshing, Job0, Job1;
    var h := RaceHistory(x, family);
    Race1(x); Race2(x); Race3(x); Race4(x); Race5(x); Race6(x, family);
    Race7(x); Race8(x); Race9(x); Race10(x); Race11(x); Race12(x);
    forall i | 0 <= i < |h.labels| ensures NextAt(h, i) {
    }
  }

  /** The gap is real: from any quiet state with a live one-member family, a refresh and a
      revocation of the same token can interleave so that both commit and yet the successor
      can be refreshed. As one atomic step the same revocation kills the family
      (AtomicRevokeKills). */
  lemma RevocationCanMissSuccessor(x: Race, family: Id) returns (h: History)
    requires Quiet(x.s) && Racing(x)
    ensures Steps(h) && h.states[0] == x.s
    ensures Begin(1, RevokeJob(x.app, x.token)) in h.labels && h.labels[|h.labels| - 1] == Commit(1)
    ensures
      var last := h.states[|h.states| - 1];
      && last.txs == map[]
      && x.token in last.world.db.refresh && last.world.db.refresh[x.token].revokedAt.Some?
      && RefreshUsable(last.world.db, x.app, x.next, last.world.now)
      && x.next in last.world.db.refresh
      && last.world.db.refresh[x.next].family == last.world.db.refresh[x.token].family
  {
    hide Steps, Refreshing, RefreshUsable, S1, S2, S3, S4, S5, S6, S7, S8, S9, S10, S11, S12, Quiet;
    h := RaceHistory(x, family);
    RaceSteps(x, family);
    assert h.labels[6] == Begin(1, RevokeJob(x.app, x.token));
    RaceEnds(x);
    assert h.states[|h.states| - 1] == S12(x);
  }

  lemma RaceEnds(x: Race)
    requires Racing(x)
    ensures
      var last := S12(x);
      && last.txs == map[]
      && x.token in last.world.db.refresh && last.world.db.refresh[x.token].revokedAt.Some?
      && RefreshUsable(last.world.db, x.app, x.next, last.world.now)
      && x.next in last.world.db.refresh
      && last.world.db.refresh[x.next].family == last.world.db.refresh[x.token].family
  {
    hide IdTokenOk, FamilyRows, ScopeList;
  }

  /** What one committed approval leaves recorded, whatever list it started from: that list and
      its own scopes. Where the list comes from, and what is lost by it, is in ConsentRaces. */
  lemma ConsentShrinksIff(w: World, e: Event)
    requires Enabled(w, e) && e.Approve?
    ensures
      var r := w.db.requests[e.token];
      && Granted(Apply(w, e).db.consents, r.user, r.app) == Elements(e.base) + ScopeSet(r.scope)
      && (ConsentGrows(w.db, Apply(w, e).db) <==>
            Granted(w.db.consents, r.user, r.app) <= Elements(e.base) + ScopeSet(r.scope))
  {
    var r := w.db.requests[e.token];
    var after := Apply(w, e).db.consents;
    MergeProperties(e.base, ScopeList(r.scope));
    assert after == w.db.consents[(r.user, r.app) := Merge(e.base, ScopeList(r.scope))];
    assert Granted(after, r.user, r.app) == Elements(e.base) + ScopeSet(r.scope);
    if Granted(w.db.consents, r.user, r.app) <= Elements(e.base) + ScopeSet(r.scope) {
      forall user, app ensures Granted(w.db.consents, user, app) <= Granted(after, user, app) {
        if (user, app) != (r.user, r.app) {
          assert Granted(after, user, app) == Granted(w.db.consents, user, app);
        }
      }
    }
  }
}
