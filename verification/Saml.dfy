/**
  The life of a SAML authentication request: created, completed by a signed-in user,
  consumed by one delivery (backend/internal/samlidp/storage.go,
  database/migrations/0007_saml.sql; section 4.1 of SAML 2.0 Profiles).

  `Store` runs each operation as one step. The second half interleaves the statements of
  any number of FinalizeAuthRequest and AuthRequestByID transactions, with rows selected
  FOR UPDATE held to commit or rollback, and proves the life cycle there.
 */
module Saml {
  import opened Accounts
  import opened Scopes

  const POST_BINDING := "urn:oasis:names:tc:SAML:2.0:bindings:HTTP-POST"

  datatype Key = Key(n: nat)

  /** A row of saml_authn_requests. */
  datatype Row = Row(
    samlId: string, app: Id, issuer: string, destination: string, acs: string, binding: string, relay: string,
    expires: Time, user: Option<Id>, completedAt: Option<Time>, consumedAt: Option<Time>)

  datatype AuthnRequest = AuthnRequest(
    id: string, issuer: Option<string>, destination: string, protocolBinding: string, acs: string)

  /** Who may use an application. */
  datatype Directory = Directory(enabled: set<Id>, direct: set<(Id, Id)>, groups: set<(Id, Id)>, members: set<(Id, Id)>)

  predicate Assigned(d: Directory, app: Id, user: Id) {
    && app in d.enabled
    && ((app, user) in d.direct || exists link :: link in d.groups && link.0 == app && (link.1, user) in d.members)
  }

  /** The two ways to be assigned to an enabled application: in person, or by a group. */
  lemma AssignedWays(d: Directory, app: Id, user: Id)
    ensures Assigned(d, app, user) <==>
              && app in d.enabled
              && ((app, user) in d.direct || exists g :: (app, g) in d.groups && (g, user) in d.members)
  {
    if g :| (app, g) in d.groups && (g, user) in d.members {
      var link := (app, g);
      assert link in d.groups && link.0 == app && (link.1, user) in d.members;
    }
    if link :| link in d.groups && link.0 == app && (link.1, user) in d.members {
      assert link == (app, link.1);
    }
  }

  predicate Blank(s: string) {
    forall i :: 0 <= i < |s| ==> IsSpace(s[i])
  }

  predicate WellFormed(r: AuthnRequest, acs: string, binding: string, relay: string) {
    && r.id != "" && r.issuer.Some? && !Blank(r.issuer.value)
    && |relay| <= 1024
    && acs != "" && binding == POST_BINDING
    && (r.protocolBinding == "" || r.protocolBinding == POST_BINDING)
    && (r.acs == "" || r.acs == acs)
  }

  function NewRow(r: AuthnRequest, acs: string, binding: string, relay: string, app: Id, now: Time): Row
    requires r.issuer.Some?
  {
    Row(r.id, app, r.issuer.value, r.destination, acs, binding, relay, now + 5 * MINUTE, None, None, None)
  }

  predicate Insertable(rows: map<Key, Row>, key: Key, samlId: string) {
    key !in rows && forall k :: k in rows ==> rows[k].samlId != samlId
  }

  /** The WHERE clause of FinalizeAuthRequest; `now` is when the transaction started. */
  predicate Open(rows: map<Key, Row>, key: Key, now: Time) {
    key in rows && now < rows[key].expires && rows[key].consumedAt == None && rows[key].completedAt == None
  }

  /** The WHERE clause and the completeness check of AuthRequestByID. */
  predicate Deliverable(rows: map<Key, Row>, key: Key, now: Time) {
    && key in rows && now < rows[key].expires && rows[key].consumedAt == None
    && rows[key].user.Some? && rows[key].completedAt.Some?
  }

  function Completed(r: Row, user: Id, now: Time): Row {
    r.(user := Some(user), completedAt := Some(now))
  }

  function Consumed(r: Row, now: Time): Row {
    r.(consumedAt := Some(now))
  }

  datatype Outcome =
    | Created | Finalized(app: Id) | Delivered(row: Row)
    | BadRequest | NotFound | NotCompleted | AccessDenied | DatabaseError

  /** The storage with every operation run as one step; `fault` makes the database fail. */
  class Store {
    var rows: map<Key, Row>
    var directory: Directory
    var now: Time

    constructor (directory: Directory, now: Time)
      ensures rows == map[] && this.directory == directory && this.now == now
    {
      rows, this.directory, this.now := map[], directory, now;
    }

    method CreateAuthRequest(r: AuthnRequest, acs: string, binding: string, relay: string, app: Id, key: Key,
        fault: bool)
        returns (o: Outcome)
      modifies `rows
      ensures o.BadRequest? <==>
                || r.id == "" || r.issuer.None? || (forall c :: c in r.issuer.value ==> IsSpace(c))
                || |relay| > 1024 || acs == "" || binding != "urn:oasis:names:tc:SAML:2.0:bindings:HTTP-POST"
                || (r.protocolBinding != "" && r.protocolBinding != binding) || (r.acs != "" && r.acs != acs)
      ensures o.Created? <==>
                && !o.BadRequest? && !fault && key !in old(rows)
                && forall k :: k in old(rows) ==> old(rows[k].samlId) != r.id
      ensures o.Created? ==>
                && r.issuer.Some?
                && rows == old(rows)[key := Row(r.id, app, r.issuer.value, r.destination, acs, binding, relay,
                                                now + 300_000_000, None, None, None)]
      ensures !o.Created? ==> rows == old(rows) && (o.BadRequest? || o.DatabaseError?)
    {
      if r.id == "" || r.issuer.None? || Blank(r.issuer.value) {
        return BadRequest;
      }
      if |relay| > 1024 || acs == "" || binding == "" || binding != POST_BINDING {
        return BadRequest;
      }
      if r.protocolBinding != "" && r.protocolBinding != POST_BINDING {
        return BadRequest;
      }
      if r.acs != "" && r.acs != acs {
        return BadRequest;
      }
      if fault || !Insertable(rows, key, r.id) {
        return DatabaseError;
      }
      rows := rows[key := NewRow(r, acs, binding, relay, app, now)];
      return Created;
    }

    /** Only an open request, and only for an assigned user. */
    method FinalizeAuthRequest(key: Key, user: Id, fault: nat) returns (o: Outcome)
      modifies `rows
      ensures fault == 0 ==>
                (o.NotFound? <==>
                   || key !in old(rows) || old(rows[key].expires) <= now
                   || old(rows[key].consumedAt).Some? || old(rows[key].completedAt).Some?)
      ensures o.Finalized? <==>
                && fault == 0 && !o.NotFound?
                && var app := old(rows[key].app);
                && app in directory.enabled
                && ((app, user) in directory.direct
                    || exists g :: (app, g) in directory.groups && (g, user) in directory.members)
      ensures o.Finalized? ==>
                && o.app == old(rows[key].app)
                && rows == old(rows)[key := old(rows[key]).(user := Some(user), completedAt := Some(now))]
      ensures !o.Finalized? ==> rows == old(rows)
    {
      if fault == 1 {
        return DatabaseError;
      }
      if key !in rows || rows[key].expires <= now || rows[key].consumedAt != None || rows[key].completedAt != None {
        return NotFound;
      }
      var app := rows[key].app;
      if fault == 2 {
        return DatabaseError;
      }
      AssignedWays(directory, app, user);
      if !Assigned(directory, app, user) {
        return AccessDenied;
      }
      if fault != 0 {
        return DatabaseError;
      }
      rows := rows[key := Completed(rows[key], user, now)];
      return Finalized(app);
    }

    /** Hands a completed request out and consumes it. */
    method AuthRequestByID(key: Key, fault: nat) returns (o: Outcome)
      modifies `rows
      ensures o.Delivered? <==>
                && fault == 0 && key in old(rows)
                && old(now < rows[key].expires && rows[key].consumedAt == None)
                && old(rows[key].user.Some? && rows[key].completedAt.Some?)
      ensures o.Delivered? ==>
                o.row == old(rows)[key] && rows == old(rows)[key := old(rows[key]).(consumedAt := Some(now))]
      ensures !o.Delivered? ==> rows == old(rows)
    {
      if fault == 1 {
        return DatabaseError;
      }
      if key !in rows || rows[key].expires <= now || rows[key].consumedAt != None {
        return NotFound;
      }
      var r := rows[key];
      if r.user == None || r.completedAt == None {
        return NotCompleted;
      }
      if fault != 0 {
        return DatabaseError;
      }
      rows := rows[key := Consumed(r, now)];
      return Delivered(r);
    }
  }

  // ----- Statement by statement -----

  type TxId = nat

  datatype Job = Finalize(key: Key, user: Id) | Deliver(key: Key)

  /** `Locked`: selected FOR UPDATE; `Cleared`: the assignment query said yes;
      `Written`: the UPDATE is done and only COMMIT is missing. */
  datatype Stage = Begun | Locked | Cleared | Written(row: Row)

  datatype Tx = Tx(job: Job, started: Time, stage: Stage)

  datatype Sys = Sys(rows: map<Key, Row>, directory: Directory, now: Time, locks: map<Key, TxId>, txs: map<TxId, Tx>)

  datatype Label =
    | Configure(directory: Directory, now: Time)
    | Create(request: AuthnRequest, acs: string, binding: string, relay: string, app: Id, key: Key)
    | Begin(t: TxId, job: Job)
    | SelectForUpdate(t: TxId)
    | CheckAssignment(t: TxId)
    | Update(t: TxId)
    | Commit(t: TxId)
    | Rollback(t: TxId)

  predicate Selects(s: Sys, tx: Tx) {
    match tx.job
    case Finalize(key, _) => Open(s.rows, key, tx.started)
    case Deliver(key) => Deliverable(s.rows, key, tx.started)
  }

  function Release(locks: map<Key, TxId>, t: TxId): map<Key, TxId> {
    map k | k in locks && locks[k] != t :: locks[k]
  }

  ghost predicate Next(s: Sys, l: Label, s': Sys) {
    match l
    case Configure(directory, now) => s.now <= now && s' == s.(directory := directory, now := now)
    case Create(r, acs, binding, relay, app, key) =>
      && WellFormed(r, acs, binding, relay) && Insertable(s.rows, key, r.id)
      && s' == s.(rows := s.rows[key := NewRow(r, acs, binding, relay, app, s.now)])
    case Begin(t, job) => t !in s.txs && s' == s.(txs := s.txs[t := Tx(job, s.now, Begun)])
    case Rollback(t) => t in s.txs && s' == s.(txs := s.txs - {t}, locks := Release(s.locks, t))
    case SelectForUpdate(t) =>
      && t in s.txs && s.txs[t].stage.Begun?
      && s.txs[t].job.key !in s.locks && Selects(s, s.txs[t])
      && s' == s.(txs := s.txs[t := s.txs[t].(stage := Locked)], locks := s.locks[s.txs[t].job.key := t])
    case CheckAssignment(t) =>
      && t in s.txs && s.txs[t].stage.Locked? && s.txs[t].job.Finalize?
      && s.txs[t].job.key in s.rows && Assigned(s.directory, s.rows[s.txs[t].job.key].app, s.txs[t].job.user)
      && s' == s.(txs := s.txs[t := s.txs[t].(stage := Cleared)])
    case Update(t) =>
      && t in s.txs && s.txs[t].job.key in s.rows
      && var tx, row := s.txs[t], s.rows[s.txs[t].job.key];
      && (if tx.job.Finalize? then tx.stage.Cleared? else tx.stage.Locked?)
      && Selects(s, tx)
      && s' == s.(txs := s.txs[t := tx.(stage := Written(Updated(row, tx)))])
    case Commit(t) =>
      && t in s.txs && s.txs[t].stage.Written?
      && s' == s.(rows := s.rows[s.txs[t].job.key := s.txs[t].stage.row], txs := s.txs - {t},
                  locks := Release(s.locks, t))
  }

  /** What an open transaction knows: its row is locked and as it found it. */
  ghost predicate TxInv(s: Sys, t: TxId, tx: Tx) {
    && tx.started <= s.now
    && (!tx.stage.Begun? ==> tx.job.key in s.locks && s.locks[tx.job.key] == t && Selects(s, tx))
    && (tx.stage.Cleared? ==> tx.job.Finalize?)
    && (tx.stage.Written? ==> tx.stage.row == Updated(s.rows[tx.job.key], tx))
  }

  /** The row after the transaction's UPDATE. */
  function Updated(r: Row, tx: Tx): Row {
    match tx.job
    case Finalize(_, user) => Completed(r, user, tx.started)
    case Deliver(_) => Consumed(r, tx.started)
  }

  /** Completed before it expired; consumed only once completed, and before it expired. */
  predicate RowInv(r: Row) {
    && (r.completedAt.Some? <==> r.user.Some?)
    && (r.completedAt.Some? ==> r.completedAt.value < r.expires)
    && (r.consumedAt.Some? ==> r.completedAt.Some? && r.consumedAt.value < r.expires)
    && r.acs != "" && r.binding == POST_BINDING && |r.relay| <= 1024
  }

  ghost predicate Inv(s: Sys) {
    && (forall t :: t in s.txs ==> TxInv(s, t, s.txs[t]))
    && (forall k :: k in s.rows ==> RowInv(s.rows[k]))
  }

  lemma OthersUntouched(s: Sys, l: Label, s': Sys, t: TxId)
    requires Inv(s) && Next(s, l, s') && t in s.txs && t in s'.txs
    requires l.Configure? || l.Create? || l.t != t
    ensures TxInv(s', t, s'.txs[t])
  {
    assert TxInv(s, t, s.txs[t]);
    if l.Commit? {
      assert TxInv(s, l.t, s.txs[l.t]);
    }
  }

  lemma OwnStep(s: Sys, l: Label, s': Sys)
    requires Inv(s) && Next(s, l, s') && !l.Configure? && !l.Create? && l.t in s'.txs
    ensures TxInv(s', l.t, s'.txs[l.t])
  {
    if l.t in s.txs {
      assert TxInv(s, l.t, s.txs[l.t]);
    }
  }

  lemma NextKeepsInv(s: Sys, l: Label, s': Sys)
    requires Inv(s) && Next(s, l, s')
    ensures Inv(s')
  {
    forall t | t in s'.txs ensures TxInv(s', t, s'.txs[t]) {
      if l.Configure? || l.Create? || l.t != t {
        OthersUntouched(s, l, s', t);
      } else {
        OwnStep(s, l, s');
      }
    }
    if l.Commit? {
      assert TxInv(s, l.t, s.txs[l.t]);
    }
  }

  /** `b` is a later version of the row `a`: it only moved forward, and nothing that was
      set has changed. */
  predicate Later(a: Row, b: Row) {
    && b.samlId == a.samlId && b.app == a.app && b.issuer == a.issuer && b.destination == a.destination
    && b.acs == a.acs && b.binding == a.binding && b.relay == a.relay && b.expires == a.expires
    && (a.user.Some? ==> b.user == a.user)
    && (a.completedAt.Some? ==> b.completedAt == a.completedAt)
    && (a.consumedAt.Some? ==> b == a)
  }

  lemma NextMovesForward(s: Sys, l: Label, s': Sys, k: Key)
    requires Inv(s) && Next(s, l, s') && k in s.rows
    ensures k in s'.rows && Later(s.rows[k], s'.rows[k])
  {
    if l.Commit? {
      assert TxInv(s, l.t, s.txs[l.t]);
    }
  }

  // ----- Histories -----

  datatype History = History(states: seq<Sys>, labels: seq<Label>)

  ghost predicate NextAt(h: History, i: nat)
    requires i < |h.labels| && i + 1 < |h.states|
  {
    Next(h.states[i], h.labels[i], h.states[i + 1])
  }

  ghost predicate IsHistory(h: History) {
    && |h.states| == |h.labels| + 1
    && h.states[0].rows == map[] && h.states[0].locks == map[] && h.states[0].txs == map[]
    && forall i :: 0 <= i < |h.labels| ==> NextAt(h, i)
  }

  lemma {:induction false} InvThroughout(h: History, i: nat)
    requires IsHistory(h) && i < |h.states|
    ensures Inv(h.states[i])
    decreases i
  {
    if i > 0 {
      InvThroughout(h, i - 1);
      assert NextAt(h, i - 1);
      NextKeepsInv(h.states[i - 1], h.labels[i - 1], h.states[i]);
    }
  }

  /** Under every interleaving a request only moves from created to completed to consumed,
      is completed before it is consumed, and its user, ACS URL, request id and the rest
      never change once set. */
  lemma {:induction false} RequestsMoveForward(h: History, i: nat, j: nat, k: Key)
    requires IsHistory(h) && i <= j < |h.states| && k in h.states[i].rows
    ensures k in h.states[j].rows && Later(h.states[i].rows[k], h.states[j].rows[k])
    ensures RowInv(h.states[i].rows[k]) && RowInv(h.states[j].rows[k])
    decreases j
  {
    InvThroughout(h, i);
    InvThroughout(h, j);
    if i < j {
      RequestsMoveForward(h, i, j - 1, k);
      InvThroughout(h, j - 1);
      assert NextAt(h, j - 1);
      NextMovesForward(h.states[j - 1], h.labels[j - 1], h.states[j], k);
    }
  }

  /** Step `i` commits a delivery of `k`. */
  ghost predicate DeliversAt(h: History, i: nat, k: Key) {
    && i < |h.labels| && i < |h.states|
    && h.labels[i].Commit? && h.labels[i].t in h.states[i].txs
    && h.states[i].txs[h.labels[i].t].job == Deliver(k)
  }

  /** A request is delivered at most once. */
  lemma DeliveredAtMostOnce(h: History, i: nat, j: nat, k: Key)
    requires IsHistory(h) && i < j && DeliversAt(h, i, k)
    ensures !DeliversAt(h, j, k)
  {
    if DeliversAt(h, j, k) {
      DeliveryState(h, i, k);
      DeliveryState(h, j, k);
      RequestsMoveForward(h, i + 1, j, k);
    }
  }

  lemma DeliveryState(h: History, i: nat, k: Key)
    requires IsHistory(h) && DeliversAt(h, i, k)
    ensures Deliverable(h.states[i].rows, k, h.states[i].txs[h.labels[i].t].started)
    ensures k in h.states[i + 1].rows && h.states[i + 1].rows[k].consumedAt.Some?
  {
    InvThroughout(h, i);
    assert NextAt(h, i);
    assert TxInv(h.states[i], h.labels[i].t, h.states[i].txs[h.labels[i].t]);
  }

  // ----- Who a request is delivered to, and when -----

  /** The row as it was inserted. */
  function Inserted(r: Row): Row {
    r.(user := None, completedAt := None, consumedAt := None)
  }

  /** Step `c` created the request `k` as `row`. */
  ghost predicate CreatedAt(h: History, c: nat, k: Key, row: Row) {
    && c < |h.labels| && c < |h.states|
    && var l := h.labels[c];
    && l.Create? && l.key == k && WellFormed(l.request, l.acs, l.binding, l.relay)
    && row == NewRow(l.request, l.acs, l.binding, l.relay, l.app, h.states[c].now)
  }

  ghost predicate WasCreated(h: History, i: nat, k: Key, row: Row) {
    exists c :: 0 <= c < i && CreatedAt(h, c, k, row)
  }

  /** In step `c` a transaction completing `k` for `user` found him assigned, directly or
      through a group, to the enabled application. */
  ghost predicate CheckedAt(h: History, c: nat, k: Key, app: Id, user: Id) {
    && c < |h.labels| && c < |h.states|
    && h.labels[c].CheckAssignment? && h.labels[c].t in h.states[c].txs
    && h.states[c].txs[h.labels[c].t].job == Finalize(k, user)
    && Assigned(h.states[c].directory, app, user)
  }

  ghost predicate WasChecked(h: History, i: nat, k: Key, app: Id, user: Id) {
    exists c :: 0 <= c < i && CheckedAt(h, c, k, app, user)
  }

  /** `made` holds of every row's key and first contents; `cleared` of the key, application and user
      of every completed row and of every transaction past the assignment check. */
  ghost predicate Vouched(s: Sys, made: (Key, Row) -> bool, cleared: (Key, Id, Id) -> bool) {
    && (forall k :: k in s.rows ==> made(k, Inserted(s.rows[k])))
    && (forall k :: k in s.rows && s.rows[k].user.Some? ==> cleared(k, s.rows[k].app, s.rows[k].user.value))
    && (forall t :: t in s.txs && PastCheck(s.txs[t]) && s.txs[t].job.key in s.rows ==>
          cleared(s.txs[t].job.key, s.rows[s.txs[t].job.key].app, s.txs[t].job.user))
  }

  predicate PastCheck(tx: Tx) {
    tx.job.Finalize? && (tx.stage.Cleared? || tx.stage.Written?)
  }

  lemma NextKeepsVouched(s: Sys, l: Label, s': Sys, made: (Key, Row) -> bool, cleared: (Key, Id, Id) -> bool)
    requires Inv(s) && Next(s, l, s') && Vouched(s, made, cleared)
    requires l.Create? ==> made(l.key, NewRow(l.request, l.acs, l.binding, l.relay, l.app, s.now))
    requires l.CheckAssignment? ==> cleared(s.txs[l.t].job.key, s.rows[s.txs[l.t].job.key].app, s.txs[l.t].job.user)
    ensures Vouched(s', made, cleared)
  {
    RowsKeepVouched(s, l, s', made, cleared);
    forall t | t in s'.txs && PastCheck(s'.txs[t]) && s'.txs[t].job.key in s'.rows
      ensures cleared(s'.txs[t].job.key, s'.rows[s'.txs[t].job.key].app, s'.txs[t].job.user)
    {
      TxKeepsVouched(s, l, s', t, made, cleared);
    }
  }

  lemma RowsKeepVouched(s: Sys, l: Label, s': Sys, made: (Key, Row) -> bool, cleared: (Key, Id, Id) -> bool)
    requires Inv(s) && Next(s, l, s') && Vouched(s, made, cleared)
    requires l.Create? ==> made(l.key, NewRow(l.request, l.acs, l.binding, l.relay, l.app, s.now))
    ensures forall k :: k in s'.rows ==> made(k, Inserted(s'.rows[k]))
    ensures forall k :: k in s'.rows && s'.rows[k].user.Some? ==> cleared(k, s'.rows[k].app, s'.rows[k].user.value)
  {
    if l.Commit? {
      assert TxInv(s, l.t, s.txs[l.t]);
    }
  }

  lemma TxKeepsVouched(s: Sys, l: Label, s': Sys, t: TxId, made: (Key, Row) -> bool, cleared: (Key, Id, Id) -> bool)
    requires Inv(s) && Next(s, l, s') && Vouched(s, made, cleared)
    requires l.CheckAssignment? ==> cleared(s.txs[l.t].job.key, s.rows[s.txs[l.t].job.key].app, s.txs[l.t].job.user)
    requires t in s'.txs && PastCheck(s'.txs[t]) && s'.txs[t].job.key in s'.rows
    ensures cleared(s'.txs[t].job.key, s'.rows[s'.txs[t].job.key].app, s'.txs[t].job.user)
  {
    assert t in s.txs && TxInv(s, t, s.txs[t]);
    if l.Commit? {
      assert TxInv(s, l.t, s.txs[l.t]);
    }
  }

  lemma {:induction false} RowsAreVouchedFor(h: History, i: nat)
    requires IsHistory(h) && i < |h.states|
    ensures Vouched(h.states[i], (k, row) => WasCreated(h, i, k, row),
                    (k, app, user) => WasChecked(h, i, k, app, user))
    decreases i
  {
    if i > 0 {
      RowsAreVouchedFor(h, i - 1);
      InvThroughout(h, i - 1);
      assert NextAt(h, i - 1);
      var made := (k: Key, row: Row) => WasCreated(h, i, k, row);
      var cleared := (k: Key, app: Id, user: Id) => WasChecked(h, i, k, app, user);
      forall k, row | WasCreated(h, i - 1, k, row) ensures made(k, row) {
      }
      forall k, app, user | WasChecked(h, i - 1, k, app, user) ensures cleared(k, app, user) {
      }
      var s, l := h.states[i - 1], h.labels[i - 1];
      if l.Create? {
        assert CreatedAt(h, i - 1, l.key, NewRow(l.request, l.acs, l.binding, l.relay, l.app, s.now));
      } else if l.CheckAssignment? {
        var tx := s.txs[l.t];
        assert CheckedAt(h, i - 1, tx.job.key, s.rows[tx.job.key].app, tx.job.user);
      }
      NextKeepsVouched(s, l, h.states[i], made, cleared);
    }
  }

  /** A delivery starts less than five minutes after the step that created the request, with
      the fields of that step, and goes to the user for whom a transaction completing that
      request found the application enabled and an assignment, in person or by a group. */
  lemma DeliveryIsTimelyAndAssigned(h: History, i: nat, k: Key) returns (made: nat, cleared: nat)
    requires IsHistory(h) && DeliversAt(h, i, k)
    ensures k in h.states[i].rows && made < i && cleared < i
    ensures
      var row, l := h.states[i].rows[k], h.labels[made];
      && l.Create? && l.key == k && l.app == row.app && l.request.id == row.samlId && row.samlId != ""
      && l.request.issuer == Some(row.issuer) && !(forall c :: c in row.issuer ==> IsSpace(c))
      && l.request.destination == row.destination && l.acs == row.acs && row.acs != ""
      && (l.request.acs == "" || l.request.acs == row.acs)
      && l.binding == row.binding == "urn:oasis:names:tc:SAML:2.0:bindings:HTTP-POST"
      && l.relay == row.relay && |row.relay| <= 1024
      && h.states[i].txs[h.labels[i].t].started < row.expires == h.states[made].now + 300_000_000
    ensures
      var row, l, s := h.states[i].rows[k], h.labels[cleared], h.states[cleared];
      && row.completedAt.Some? && row.completedAt.value < row.expires
      && l.CheckAssignment? && l.t in s.txs
      && s.txs[l.t].job.Finalize? && s.txs[l.t].job.key == k && row.user == Some(s.txs[l.t].job.user)
      && row.app in s.directory.enabled
      && ((row.app, row.user.value) in s.directory.direct
          || exists g :: (row.app, g) in s.directory.groups && (g, row.user.value) in s.directory.members)
  {
    DeliveryState(h, i, k);
    RowsAreVouchedFor(h, i);
    RequestsMoveForward(h, i, i, k);
    var row := h.states[i].rows[k];
    assert WasCreated(h, i, k, Inserted(row)) && WasChecked(h, i, k, row.app, row.user.value);
    made :| 0 <= made < i && CreatedAt(h, made, k, Inserted(row));
    cleared :| 0 <= cleared < i && CheckedAt(h, cleared, k, row.app, row.user.value);
    AssignedWays(h.states[cleared].directory, row.app, row.user.value);
  }
}
