/**
  Consent forms approved at the same time (backend/internal/httpapi/oauth.go, lines 189 to 272).
  The recorded list is read without a lock, merged, and written back, so a commit can undo what
  another one recorded in between. This module proves when it does, and when a stored scope
  is no longer covered by recorded consent because of it.
 */
module ConsentRaces {
  import opened Accounts
  import opened Runs
  import opened Scopes
  import opened Ledger
  import opened Conservation
  import opened Interleaving

  /** A consent list read for a user and an application. */
  datatype Reading = Reading(user: Id, app: Id, base: seq<string>)

  predicate Asks(db: Db, token: Hash, r: Reading) {
    token in db.requests && db.requests[token].user == r.user && db.requests[token].app == r.app
  }

  /** What the transaction has read. */
  predicate HasRead(db: Db, tx: Tx, r: Reading) {
    match tx.stage
    case ConsentRead(_, base) => tx.job.ConsentJob? && Asks(db, tx.job.token, r) && base == r.base
    case ConsentWritten(_, base) => tx.job.ConsentJob? && Asks(db, tx.job.token, r) && base == r.base
    case Ready(e) => e.Approve? && Asks(db, e.token, r) && e.base == r.base
    case _ => false
  }

  lemma RequestsKept(w: World, e: Event)
    requires Enabled(w, e)
    ensures forall h :: h in w.db.requests ==>
              && h in Apply(w, e).db.requests
              && Apply(w, e).db.requests[h].user == w.db.requests[h].user
              && Apply(w, e).db.requests[h].app == w.db.requests[h].app
  {
  }

  lemma ReadBefore(w: World, w': World, locks: map<Row, TxId>, t: TxId, tx: Tx, r: Reading)
    requires TxInv(w, locks, t, tx) && HasRead(w'.db, tx, r)
    requires forall h :: h in w.db.requests ==>
               && h in w'.db.requests && w'.db.requests[h].user == w.db.requests[h].user
               && w'.db.requests[h].app == w.db.requests[h].app
    ensures HasRead(w.db, tx, r)
  {
  }

  lemma OwnRequest(s: Sys, t: TxId)
    requires Inv(s) && t in s.txs && s.txs[t].stage.Spent? && s.txs[t].job.ConsentJob?
    ensures
      var job := s.txs[t].job;
      job.token in s.world.db.requests && s.world.db.requests[job.token].user == job.user
  {
    assert TxInv(s.world, s.locks, t, s.txs[t]);
  }

  ghost predicate IsReader(s: Sys, t: TxId, r: Reading) {
    t in s.txs && HasRead(s.world.db, s.txs[t], r)
  }

  /** A transaction becomes one that has read this list by no other statement. */
  lemma BecomesReader(s: Sys, l: Label, s': Sys, t: TxId, r: Reading)
    requires Inv(s) && Next(s, l, s') && IsReader(s', t, r) && !IsReader(s, t, r)
    ensures l == ReadConsent(t) && t in s.txs && r.base == ConsentOf(s.world.db, r.user, r.app)
  {
    hide Enabled, Apply, Footprint, Overlay, TxInv, Passes;
    StepRefines(s, l, s');
    if EventOf(s, l).Some? {
      RequestsKept(s.world, EventOf(s, l).value);
      assert t in s.txs && s.txs[t] == s'.txs[t];
      ReadBefore(s.world, s'.world, s.locks, t, s.txs[t], r);
    } else if l == ReadConsent(t) {
      OwnRequest(s, t);
    }
  }

  // ----- When recorded consent changes -----

  /** The scopes recorded before step `n` for the user and the application. */
  function GrantedAt(h: History, n: nat, u: Id, a: Id): set<string>
    requires n < |h.states|
  {
    Granted(h.states[n].world.db.consents, u, a)
  }

  /** Step `k` commits an approval for this user and application. */
  predicate Approves(h: History, k: nat, u: Id, a: Id) {
    && k < |h.labels| && k < |h.states|
    && EventOf(h.states[k], h.labels[k]).Some?
    && var e := EventOf(h.states[k], h.labels[k]).value;
    e.Approve? && e.token in h.states[k].world.db.requests
    && h.states[k].world.db.requests[e.token].user == u && h.states[k].world.db.requests[e.token].app == a
  }

  /** Step `k` commits an approval that records scope `x`. */
  predicate Adds(h: History, k: nat, u: Id, a: Id, x: string) {
    Approves(h, k, u, a) && k + 1 < |h.states| && x !in GrantedAt(h, k, u, a) && x in GrantedAt(h, k + 1, u, a)
  }

  /** Step `k` commits an approval that loses scope `x`. */
  predicate Loses(h: History, k: nat, u: Id, a: Id, x: string) {
    Approves(h, k, u, a) && k + 1 < |h.states| && x in GrantedAt(h, k, u, a) && x !in GrantedAt(h, k + 1, u, a)
  }

  /** Recorded by an approval from step `c` on, and not lost again before step `i`. */
  ghost predicate AddedSince(h: History, c: nat, i: nat, u: Id, a: Id, x: string) {
    Since(c, i, (k: nat) => Adds(h, k, u, a, x), (k: nat) => Loses(h, k, u, a, x))
  }

  ghost predicate LostSince(h: History, c: nat, i: nat, u: Id, a: Id, x: string) {
    Since(c, i, (k: nat) => Loses(h, k, u, a, x), (k: nat) => Adds(h, k, u, a, x))
  }

  lemma ConsentStep(w: World, e: Event, u: Id, a: Id)
    requires Enabled(w, e)
    requires !(e.Approve? && w.db.requests[e.token].user == u && w.db.requests[e.token].app == a)
    ensures Granted(Apply(w, e).db.consents, u, a) == Granted(w.db.consents, u, a)
  {
  }

  lemma OnlyApprovalsChange(h: History, n: nat, u: Id, a: Id, x: string)
    requires IsHistory(h) && n < |h.labels|
    ensures x in GrantedAt(h, n + 1, u, a) <==>
        Adds(h, n, u, a, x) || (x in GrantedAt(h, n, u, a) && !Loses(h, n, u, a, x))
  {
    if EventOf(h.states[n], h.labels[n]).Some? {
      CommittedEvent(h, n);
      var w, e := h.states[n].world, EventOf(h.states[n], h.labels[n]).value;
      if !Approves(h, n, u, a) {
        ConsentStep(w, e, u, a);
      }
    } else {
      InvThroughout(h, n);
      assert NextAt(h, n);
      StepRefines(h.states[n], h.labels[n], h.states[n + 1]);
    }
  }

  lemma RecordedSince(h: History, c: nat, i: nat, u: Id, a: Id, x: string)
    requires IsHistory(h) && c <= i < |h.states|
    ensures AddedSince(h, c, i, u, a, x) ==> x in GrantedAt(h, i, u, a)
    ensures x in GrantedAt(h, i, u, a) ==> x in GrantedAt(h, c, u, a) || AddedSince(h, c, i, u, a, x)
    ensures LostSince(h, c, i, u, a, x) ==> x !in GrantedAt(h, i, u, a)
    ensures x !in GrantedAt(h, i, u, a) ==> x !in GrantedAt(h, c, u, a) || LostSince(h, c, i, u, a, x)
  {
    hide Approves, GrantedAt, NextAt, Since;
    var on := (n: nat) => n < |h.states| && x in GrantedAt(h, n, u, a);
    var off := (n: nat) => n < |h.states| && x !in GrantedAt(h, n, u, a);
    var adds, loses := (k: nat) => Adds(h, k, u, a, x), (k: nat) => Loses(h, k, u, a, x);
    forall n: nat | c <= n < i
      ensures on(n + 1) <==> adds(n) || (on(n) && !loses(n))
      ensures off(n + 1) <==> loses(n) || (off(n) && !adds(n))
    {
      OnlyApprovalsChange(h, n, u, a, x);
    }
    FlagSince(c, i, on, adds, loses);
    FlagSince(c, i, off, loses, adds);
  }

  /** A committed approval started from the list recorded when its transaction read it (step
      `c`) and leaves exactly that list and its own scopes. It loses a scope exactly when the
      scope is in neither and another approval for the same user and application committed
      in between and recorded it. */
  lemma ApprovalLosesIff(h: History, i: nat) returns (c: nat, u: Id, a: Id)
    requires IsHistory(h) && i < |h.labels| && EventOf(h.states[i], h.labels[i]).Some?
    requires EventOf(h.states[i], h.labels[i]).value.Approve?
    ensures h.labels[i].Commit? && Approves(h, i, u, a)
    ensures c < i && h.labels[c] == ReadConsent(h.labels[i].t) && SameTransaction(h, c, i, h.labels[i].t)
    ensures
      var e := EventOf(h.states[i], h.labels[i]).value;
      var own := ScopeSet(h.states[i].world.db.requests[e.token].scope);
      && e.base == ConsentOf(h.states[c].world.db, u, a)
      && GrantedAt(h, i + 1, u, a) == GrantedAt(h, c, u, a) + own
      && (forall x ::
            Loses(h, i, u, a, x) <==> x !in GrantedAt(h, c, u, a) && x !in own && AddedSince(h, c, i, u, a, x))
  {
    var s, e := h.states[i], EventOf(h.states[i], h.labels[i]).value;
    CommittedEvent(h, i);
    var r := s.world.db.requests[e.token];
    u, a := r.user, r.app;
    c := WhereRead(h, i);
    ConsentShrinksIff(s.world, e);
    assert Elements(e.base) == GrantedAt(h, c, u, a);
    forall x ensures Loses(h, i, u, a, x) <==>
                     x !in GrantedAt(h, c, u, a) && x !in ScopeSet(r.scope) && AddedSince(h, c, i, u, a, x)
    {
      RecordedSince(h, c, i, u, a, x);
    }
  }

  lemma FirstReader(h: History, i: nat, t: TxId, r: Reading) returns (c: nat)
    requires IsHistory(h) && i < |h.states| && IsReader(h.states[i], t, r)
    ensures c < i && c < |h.labels| && h.labels[c] == ReadConsent(t) && SameTransaction(h, c, i, t)
    ensures r.base == ConsentOf(h.states[c].world.db, r.user, r.app)
  {
    hide Inv, Next, HasRead, ConsentOf;
    var on := (n: nat) => n < |h.states| && IsReader(h.states[n], t, r);
    c := RaisedAt(0, i, on);
    assert !on(c) && on(c + 1);
    InvThroughout(h, c);
    assert NextAt(h, c);
    BecomesReader(h.states[c], h.labels[c], h.states[c + 1], t, r);
    forall k | c <= k <= i ensures t in h.states[k].txs {
      assert k > c ==> on(k);
    }
  }

  lemma WhereRead(h: History, i: nat) returns (c: nat)
    requires IsHistory(h) && i < |h.labels| && EventOf(h.states[i], h.labels[i]).Some?
    requires EventOf(h.states[i], h.labels[i]).value.Approve?
    ensures
      var e := EventOf(h.states[i], h.labels[i]).value;
      && h.labels[i].Commit? && e.token in h.states[i].world.db.requests && c < i && c < |h.labels|
      && h.labels[c] == ReadConsent(h.labels[i].t) && SameTransaction(h, c, i, h.labels[i].t)
      && var r := h.states[i].world.db.requests[e.token];
      e.base == ConsentOf(h.states[c].world.db, r.user, r.app)
  {
    var s, e := h.states[i], EventOf(h.states[i], h.labels[i]).value;
    CommittedEvent(h, i);
    assert NextAt(h, i);
    var t := h.labels[i].t;
    var r := Reading(s.world.db.requests[e.token].user, s.world.db.requests[e.token].app, e.base);
    assert IsReader(s, t, r);
    c := FirstReader(h, i, t, r);
  }

  // ----- Stored scopes -----

  /** At some moment up to `n` the whole scope was within recorded consent. */
  ghost predicate OnceWithin(h: History, n: nat, u: Id, a: Id, scope: string)
    requires n < |h.states|
  {
    exists k: nat :: k <= n && ScopeSet(scope) <= GrantedAt(h, k, u, a)
  }

  ghost predicate AllOnceWithin(h: History, n: nat)
    requires n < |h.states|
  {
    Throughout(h.states[n].world.db, (u, a, scope) => true, (u, a, scope) => OnceWithin(h, n, u, a, scope))
  }

  lemma LaterOnceWithin(h: History, n: nat)
    requires n + 1 < |h.states| && AllOnceWithin(h, n)
    ensures Throughout(h.states[n].world.db, (u, a, scope) => true, (u, a, scope) => OnceWithin(h, n + 1, u, a, scope))
  {
    var before := (u: Id, a: Id, scope: string) => OnceWithin(h, n, u, a, scope);
    var after := (u: Id, a: Id, scope: string) => OnceWithin(h, n + 1, u, a, scope);
    forall u, a, scope | before(u, a, scope) ensures after(u, a, scope) {
      var k: nat :| k <= n && ScopeSet(scope) <= GrantedAt(h, k, u, a);
    }
  }

  /** Under every interleaving, every stored code, refresh token and user access token has a
      scope that was, at one moment, wholly within the consent of its user and application. */
  lemma {:induction false} EveryGrantWasWithinConsent(h: History, n: nat)
    requires IsHistory(h) && n < |h.states|
    ensures AllOnceWithin(h, n)
    decreases n
  {
    if n > 0 {
      EveryGrantWasWithinConsent(h, n - 1);
      LaterOnceWithin(h, n - 1);
      StepOnceWithin(h, n - 1);
    }
  }

  lemma StepOnceWithin(h: History, n: nat)
    requires IsHistory(h) && n < |h.labels|
    requires Throughout(h.states[n].world.db, (u, a, scope) => true, (u, a, scope) => OnceWithin(h, n + 1, u, a, scope))
    ensures AllOnceWithin(h, n + 1)
  {
    hide Enabled, Apply, Inv, Next, OnceWithin, Throughout, Introduces;
    if EventOf(h.states[n], h.labels[n]).Some? {
      CommittedEvent(h, n);
      GrantIntroduced(h, n);
      PassedOn(h.states[n].world, EventOf(h.states[n], h.labels[n]).value,
               (u, a, scope) => true, (u, a, scope) => OnceWithin(h, n + 1, u, a, scope));
    } else {
      InvThroughout(h, n);
      assert NextAt(h, n);
      StepRefines(h.states[n], h.labels[n], h.states[n + 1]);
    }
  }

  lemma GrantIntroduced(h: History, n: nat)
    requires IsHistory(h) && n < |h.labels| && EventOf(h.states[n], h.labels[n]).Some?
    ensures Enabled(h.states[n].world, EventOf(h.states[n], h.labels[n]).value)
    ensures Introduces(h.states[n].world, EventOf(h.states[n], h.labels[n]).value,
                       (u, a, scope) => true, (u, a, scope) => OnceWithin(h, n + 1, u, a, scope))
  {
    CommittedEvent(h, n);
    var w, e := h.states[n].world, EventOf(h.states[n], h.labels[n]).value;
    if e.Grant? {
      var u, a := UserOf(w.env, e.session), AppOf(w.env, e.query);
      GrantWithinConsent(w.db, u, a, e.query);
      assert ScopeSet(StoredScope(e.query)) <= GrantedAt(h, n, u, a);
    } else if e.Approve? {
      ConsentShrinksIff(w, e);
      var r := w.db.requests[e.token];
      assert ScopeSet(r.scope) <= GrantedAt(h, n + 1, r.user, r.app);
    }
  }

  /** Some code, refresh token or access token of this user and application has this scope. */
  predicate Stored(db: Db, u: Id, a: Id, scope: string) {
    || (exists c :: c in db.codes && db.codes[c].user == u && db.codes[c].app == a && db.codes[c].scope == scope)
    || (exists t :: t in db.refresh
          && db.refresh[t].user == u && db.refresh[t].app == a && db.refresh[t].scope == scope)
    || (exists j :: j in db.access
          && db.access[j].user == Some(u) && db.access[j].app == a && db.access[j].scope == scope)
  }

  /** A scope that is stored somewhere is missing from recorded consent exactly when some
      approval has lost it (see ApprovalLosesIff) and none has recorded it again. */
  lemma StoredScopeExceedsConsentIff(h: History, n: nat, u: Id, a: Id, scope: string, x: string)
    requires IsHistory(h) && n < |h.states| && Stored(h.states[n].world.db, u, a, scope) && x in ScopeSet(scope)
    ensures x !in GrantedAt(h, n, u, a) <==> LostSince(h, 0, n, u, a, x)
  {
    EveryGrantWasWithinConsent(h, n);
    assert OnceWithin(h, n, u, a, scope);
    var k: nat :| k <= n && ScopeSet(scope) <= GrantedAt(h, k, u, a);
    RecordedSince(h, 0, n, u, a, x);
    RecordedSince(h, k, n, u, a, x);
    if LostSince(h, k, n, u, a, x) {
      LongerSince(0, k, n, (k: nat) => Loses(h, k, u, a, x), (k: nat) => Adds(h, k, u, a, x));
    }
  }

  // ----- It does happen -----

  /** A quiet state and two pending requests of one user for one application; `code1` and
      `code2` are the codes their approvals draw. */
  datatype Forms = Forms(s: Sys, user: Id, first: Hash, second: Hash, code1: Hash, code2: Hash)

  ghost predicate Pending(x: Forms) {
    var w := x.s.world;
    && x.s.txs == map[] && x.s.locks == map[]
    && x.first != x.second && x.code1 != x.code2
    && RequestUsable(w.db, x.user, x.first, w.now) && RequestUsable(w.db, x.user, x.second, w.now)
    && w.db.requests[x.first].app == w.db.requests[x.second].app
    && x.code1 !in w.db.codes && x.code2 !in w.db.codes
  }

  ghost function App(x: Forms): Id
    requires Pending(x)
  {
    x.s.world.db.requests[x.first].app
  }

  ghost function Base(x: Forms): seq<string>
    requires Pending(x)
  {
    ConsentOf(x.s.world.db, x.user, App(x))
  }

  function Approval(x: Forms, token: Hash): Job {
    ConsentJob(x.user, token, true)
  }

  /** What the approval of the request `token` has written after each of its statements. */
  ghost function Used(x: Forms, token: Hash): Db
    requires Pending(x) && (token == x.first || token == x.second)
  {
    SpentWrites(x.s.world.db, Approval(x, token), x.s.world.now)
  }

  ghost function Merged(x: Forms, token: Hash): Db
    requires Pending(x) && (token == x.first || token == x.second)
  {
    Used(x, token).(consents := map[(x.user, App(x)) := Merge(Base(x), ScopeList(x.s.world.db.requests[token].scope))])
  }

  ghost function Coded(x: Forms, token: Hash, code: Hash): Db
    requires Pending(x) && (token == x.first || token == x.second)
  {
    Merged(x, token).(codes := map[code := CodeFrom(x.s.world.db.requests[token], x.s.world.now + 2 * MINUTE)])
  }

  ghost function Done(x: Forms, token: Hash, code: Hash): Stage
    requires Pending(x)
  {
    Ready(Approve(x.user, token, code, Base(x), x.s.world.now, x.s.world.now))
  }

  ghost function First(x: Forms, stage: Stage, writes: Db): Tx {
    Tx(Approval(x, x.first), x.s.world.now, stage, writes)
  }

  ghost function Second(x: Forms, stage: Stage, writes: Db): Tx {
    Tx(Approval(x, x.second), x.s.world.now, stage, writes)
  }

  ghost function Locks1(x: Forms): map<Row, TxId> { map[RequestRow(x.first) := 0] }

  ghost function Locks2(x: Forms): map<Row, TxId> { Locks1(x)[RequestRow(x.second) := 1] }

  ghost function Locks3(x: Forms): map<Row, TxId> requires Pending(x) { Locks2(x)[ConsentRow(x.user, App(x)) := 0] }

  ghost function Locks5(x: Forms): map<Row, TxId> { map[RequestRow(x.second) := 1] }

  ghost function Locks6(x: Forms): map<Row, TxId> requires Pending(x) { Locks5(x)[ConsentRow(x.user, App(x)) := 1] }

  ghost function Two(x: Forms, locks: map<Row, TxId>, first: Tx, second: Tx): Sys {
    Sys(x.s.world, locks, map[0 := first, 1 := second])
  }

  ghost function Reading0(x: Forms): Stage requires Pending(x) { ConsentRead(x.s.world.now, Base(x)) }

  ghost function F1(x: Forms): Sys { Sys(x.s.world, map[], map[0 := First(x, Begun, EmptyDb)]) }

  ghost function F2(x: Forms): Sys { Two(x, map[], First(x, Begun, EmptyDb), Second(x, Begun, EmptyDb)) }

  ghost function F3(x: Forms): Sys {
    Two(x, Locks1(x), First(x, Checked(x.s.world.now), EmptyDb), Second(x, Begun, EmptyDb))
  }

  ghost function F4(x: Forms): Sys {
    Two(x, Locks2(x), First(x, Checked(x.s.world.now), EmptyDb), Second(x, Checked(x.s.world.now), EmptyDb))
  }

  ghost function F5(x: Forms): Sys
    requires Pending(x)
  {
    Two(x, Locks2(x), First(x, Spent(x.s.world.now), Used(x, x.first)), Second(x, Checked(x.s.world.now), EmptyDb))
  }

  ghost function F6(x: Forms): Sys
    requires Pending(x)
  {
    Two(x, Locks2(x), First(x, Spent(x.s.world.now), Used(x, x.first)),
        Second(x, Spent(x.s.world.now), Used(x, x.second)))
  }

  ghost function F7(x: Forms): Sys
    requires Pending(x)
  {
    With(F6(x), 0, First(x, Reading0(x), Used(x, x.first)), Locks2(x))
  }

  /** Both have read the same list. */
  ghost function F8(x: Forms): Sys
    requires Pending(x)
  {
    With(F7(x), 1, Second(x, Reading0(x), Used(x, x.second)), Locks2(x))
  }

  ghost function F9(x: Forms): Sys
    requires Pending(x)
  {
    With(F8(x), 0, First(x, ConsentWritten(x.s.world.now, Base(x)), Merged(x, x.first)), Locks3(x))
  }

  ghost function F10(x: Forms): Sys
    requires Pending(x)
  {
    With(F9(x), 0, First(x, Done(x, x.first, x.code1), Coded(x, x.first, x.code1)), Locks3(x)[CodeRow(x.code1) := 0])
  }

  ghost function W11(x: Forms): World
    requires Pending(x)
  {
    x.s.world.(db := Overlay(x.s.world.db, Coded(x, x.first, x.code1)))
  }

  /** The first approval is recorded. */
  ghost function F11(x: Forms): Sys
    requires Pending(x)
  {
    Sys(W11(x), Locks5(x), map[1 := Second(x, Reading0(x), Used(x, x.second))])
  }

  ghost function F12(x: Forms): Sys
    requires Pending(x)
  {
    With(F11(x), 1, Second(x, ConsentWritten(x.s.world.now, Base(x)), Merged(x, x.second)), Locks6(x))
  }

  ghost function F13(x: Forms): Sys
    requires Pending(x)
  {
    With(F12(x), 1, Second(x, Done(x, x.second, x.code2), Coded(x, x.second, x.code2)),
         Locks6(x)[CodeRow(x.code2) := 1])
  }

  ghost function F14(x: Forms): Sys
    requires Pending(x)
  {
    Sys(W11(x).(db := Overlay(W11(x).db, Coded(x, x.second, x.code2))), map[], map[])
  }

  lemma Step1(x: Forms) requires Pending(x) ensures Next(x.s, Begin(0, Approval(x, x.first)), F1(x)) { }

  lemma Step2(x: Forms) requires Pending(x) ensures Next(F1(x), Begin(1, Approval(x, x.second)), F2(x)) { }

  lemma Step3(x: Forms) requires Pending(x) ensures Next(F2(x), SelectForUpdate(0), F3(x)) { }

  lemma Step4(x: Forms) requires Pending(x) ensures Next(F3(x), SelectForUpdate(1), F4(x)) { }

  lemma Step5(x: Forms) requires Pending(x) ensures Next(F4(x), Spend(0), F5(x)) { }

  lemma Step6(x: Forms) requires Pending(x) ensures Next(F5(x), Spend(1), F6(x)) { }

  lemma Step7(x: Forms)
    requires Pending(x)
    ensures Next(F6(x), ReadConsent(0), F7(x))
  {
    hide ScopeList, Merge;
  }

  lemma Step8(x: Forms)
    requires Pending(x)
    ensures Next(F7(x), ReadConsent(1), F8(x))
  {
    hide ScopeList, Merge;
  }

  /** UpsertConsent for a row that nobody has locked. */
  lemma DoesUpsert(s: Sys, t: TxId, tx: Tx, row: Row, list: seq<string>)
    requires t in s.txs && s.txs[t] == tx && tx.stage.ConsentRead? && tx.job.ConsentJob?
    requires tx.job.token in s.world.db.requests
    requires row == ConsentRow(s.world.db.requests[tx.job.token].user, s.world.db.requests[tx.job.token].app)
    requires row !in s.locks && list == Merge(tx.stage.base, ScopeList(s.world.db.requests[tx.job.token].scope))
    ensures
      var tx' := tx.(stage := ConsentWritten(tx.stage.at, tx.stage.base),
                     writes := tx.writes.(consents := map[(row.user, row.app) := list]));
      Next(s, UpsertConsent(t), With(s, t, tx', s.locks[row := t]))
  {
    hide ScopeList, Merge;
  }

  lemma DoesInsertCode(s: Sys, t: TxId, tx: Tx, code: Hash)
    requires t in s.txs && s.txs[t] == tx && tx.stage.ConsentWritten? && tx.job.ConsentJob?
    requires tx.job.token in s.world.db.requests && CodeRow(code) !in s.locks && code !in s.world.db.codes
    ensures
      var e := Approve(tx.job.user, tx.job.token, code, tx.stage.base, tx.started, tx.stage.at);
      var row := CodeFrom(s.world.db.requests[tx.job.token], tx.started + 2 * MINUTE);
      var tx' := tx.(stage := Ready(e), writes := tx.writes.(codes := map[code := row]));
      Next(s, InsertCode(t, code), With(s, t, tx', s.locks[CodeRow(code) := t]))
  {
  }

  lemma Step9(x: Forms)
    requires Pending(x)
    ensures Next(F8(x), UpsertConsent(0), F9(x))
  {
    hide Next, ScopeList, Merge, Used, Base, ConsentOf;
    DoesUpsert(F8(x), 0, First(x, Reading0(x), Used(x, x.first)), ConsentRow(x.user, App(x)),
               Merge(Base(x), ScopeList(x.s.world.db.requests[x.first].scope)));
  }

  lemma Step10(x: Forms)
    requires Pending(x)
    ensures Next(F9(x), InsertCode(0, x.code1), F10(x))
  {
    hide Next, ScopeList, Merge, Used, Merged, Base, ConsentOf;
    DoesInsertCode(F9(x), 0, First(x, ConsentWritten(x.s.world.now, Base(x)), Merged(x, x.first)), x.code1);
  }

  lemma Step11(x: Forms)
    requires Pending(x)
    ensures Next(F10(x), Commit(0), F11(x))
  {
    hide Next, ScopeList, Merge, Overlay, Coded, Used, Merged, Release;
    F10Parts(x);
    DoesCommit(F10(x), 0);
  }

  lemma F10Parts(x: Forms)
    requires Pending(x)
    ensures Release(F10(x).locks, 0) == Locks5(x) && F10(x).txs - {0} == F11(x).txs && F10(x).world == x.s.world
  {
    hide Used, Merged, Coded, Base, Done, Reading0, First, Second, App, Release;
    ReleaseFour(RequestRow(x.first), RequestRow(x.second), ConsentRow(x.user, App(x)), CodeRow(x.code1));
    var first := First(x, Reading0(x), Used(x, x.first));
    OneIsLeft(First(x, Spent(x.s.world.now), Used(x, x.first)), Second(x, Spent(x.s.world.now), Used(x, x.second)),
              first, Second(x, Reading0(x), Used(x, x.second)),
              First(x, ConsentWritten(x.s.world.now, Base(x)), Merged(x, x.first)),
              First(x, Done(x, x.first, x.code1), Coded(x, x.first, x.code1)));
  }

  lemma ReleaseFour(a: Row, b: Row, c: Row, d: Row)
    requires a != b && b != c && b != d
    ensures Release(map[a := 0][b := 1][c := 0][d := 0], 0) == map[b := 1]
  {
  }

  lemma OneIsLeft(a: Tx, b: Tx, c: Tx, d: Tx, e: Tx, f: Tx)
    ensures (map[0 := a, 1 := b][0 := c][1 := d][0 := e][0 := f]) - {0} == map[1 := d]
  {
  }

  lemma DoesCommit(s: Sys, t: TxId)
    requires t in s.txs && s.txs[t].stage.Ready?
    ensures Next(s, Commit(t),
                 Sys(s.world.(db := Overlay(s.world.db, s.txs[t].writes)), Release(s.locks, t), s.txs - {t}))
  {
  }

  /** The first commit leaves the second request alone, and its code is still free. */
  lemma SecondStays(x: Forms)
    requires Pending(x)
    ensures
      && x.second in W11(x).db.requests && W11(x).db.requests[x.second] == x.s.world.db.requests[x.second]
      && W11(x).db.requests[x.second].user == x.user && W11(x).db.requests[x.second].app == App(x)
      && x.code2 !in W11(x).db.codes
  {
    hide ScopeList, Merge;
  }

  lemma Step12(x: Forms)
    requires Pending(x)
    ensures Next(F11(x), UpsertConsent(1), F12(x))
  {
    hide Next, ScopeList, Merge, W11, Used, Base, ConsentOf;
    SecondStays(x);
    DoesUpsert(F11(x), 1, Second(x, Reading0(x), Used(x, x.second)), ConsentRow(x.user, App(x)),
               Merge(Base(x), ScopeList(x.s.world.db.requests[x.second].scope)));
  }

  lemma Step13(x: Forms)
    requires Pending(x)
    ensures Next(F12(x), InsertCode(1, x.code2), F13(x))
  {
    hide Next, ScopeList, Merge, W11, Used, Merged, Base, ConsentOf;
    SecondStays(x);
    DoesInsertCode(F12(x), 1, Second(x, ConsentWritten(x.s.world.now, Base(x)), Merged(x, x.second)), x.code2);
  }

  lemma Step14(x: Forms)
    requires Pending(x)
    ensures Next(F13(x), Commit(1), F14(x))
  {
    hide Next, ScopeList, Merge, Overlay, Coded, Used, Merged, W11;
    DoesCommit(F13(x), 1);
    assert Release(F13(x).locks, 1) == map[];
    assert F13(x).txs - {1} == map[];
  }

  ghost function FormsHistory(x: Forms): History
    requires Pending(x)
  {
    History([x.s, F1(x), F2(x), F3(x), F4(x), F5(x), F6(x), F7(x), F8(x), F9(x), F10(x), F11(x), F12(x), F13(x),
             F14(x)],
            [Begin(0, Approval(x, x.first)), Begin(1, Approval(x, x.second)), SelectForUpdate(0), SelectForUpdate(1),
             Spend(0), Spend(1), ReadConsent(0), ReadConsent(1), UpsertConsent(0), InsertCode(0, x.code1), Commit(0),
             UpsertConsent(1), InsertCode(1, x.code2), Commit(1)])
  }

  lemma FormsSteps(x: Forms)
    requires Pending(x)
    ensures Steps(FormsHistory(x))
  {
    hide Next, F1, F2, F3, F4, F5, F6, F7, F8, F9, F10, F11, F12, F13, F14, Pending, Approval;
    var h := FormsHistory(x);
    Step1(x); Step2(x); Step3(x); Step4(x); Step5(x); Step6(x); Step7(x);
    Step8(x); Step9(x); Step10(x); Step11(x); Step12(x); Step13(x); Step14(x);
    forall i | 0 <= i < |h.labels| ensures NextAt(h, i) {
    }
  }

  /** From any quiet state in which one user has two pending requests for one application, both
      approvals can commit and leave only the second one's scopes recorded beside the old ones:
      whatever the first alone had added is recorded by its commit and gone after the other,
      while its code, with those scopes, stays. */
  lemma ApprovalsOverwrite(x: Forms) returns (h: History)
    requires Pending(x) && Inv(x.s)
    ensures Steps(h) && h.states[0] == x.s && |h.labels| == 14 && h.labels[10] == Commit(0) && h.labels[13] == Commit(1)
    ensures
      var a := x.s.world.db.requests[x.first].app;
      var own, other := ScopeSet(x.s.world.db.requests[x.first].scope), ScopeSet(x.s.world.db.requests[x.second].scope);
      && GrantedAt(h, 11, x.user, a) == GrantedAt(h, 0, x.user, a) + own
      && GrantedAt(h, 14, x.user, a) == GrantedAt(h, 0, x.user, a) + other
      && Stored(h.states[14].world.db, x.user, a, x.s.world.db.requests[x.first].scope)
      && (forall y :: y in own && y !in GrantedAt(h, 0, x.user, a) && y !in other ==> Loses(h, 13, x.user, a, y))
  {
    hide Steps, F1, F2, F3, F4, F5, F6, F7, F8, F9, F10, F11, F12, F13, F14, Inv, Stored, Granted, ScopeSet, EventOf;
    h := FormsHistory(x);
    FormsSteps(x);
    FormsEnd(x);
    FormsLast(x);
    assert h.states[11] == F11(x) && h.states[13] == F13(x) && h.states[14] == F14(x);
    assert h.labels[13] == Commit(1);
  }

  /** What one merge leaves recorded. */
  lemma MergeRecords(x: Forms, db: Db, token: Hash, code: Hash)
    requires Pending(x) && (token == x.first || token == x.second)
    ensures Granted(Overlay(db, Coded(x, token, code)).consents, x.user, App(x))
              == Granted(x.s.world.db.consents, x.user, App(x)) + ScopeSet(x.s.world.db.requests[token].scope)
  {
    hide ScopeList, Merge, CodeFrom;
    var scopes := ScopeList(x.s.world.db.requests[token].scope);
    MergeProperties(Base(x), scopes);
    assert Overlay(db, Coded(x, token, code)).consents == db.consents + map[(x.user, App(x)) := Merge(Base(x), scopes)];
  }

  lemma FormsEnd(x: Forms)
    requires Pending(x)
    ensures
      var u, a, first, second := x.user, App(x), x.s.world.db.requests[x.first], x.s.world.db.requests[x.second];
      var before := Granted(x.s.world.db.consents, u, a);
      && Granted(F11(x).world.db.consents, u, a) == before + ScopeSet(first.scope)
      && Granted(F13(x).world.db.consents, u, a) == before + ScopeSet(first.scope)
      && Granted(F14(x).world.db.consents, u, a) == before + ScopeSet(second.scope)
      && Stored(F14(x).world.db, u, a, first.scope)
  {
    hide Coded, Overlay, Granted, ScopeSet, Stored;
    MergeRecords(x, x.s.world.db, x.first, x.code1);
    MergeRecords(x, W11(x).db, x.second, x.code2);
    FirstCodeStays(x);
  }

  lemma FirstCodeStays(x: Forms)
    requires Pending(x)
    ensures Stored(F14(x).world.db, x.user, App(x), x.s.world.db.requests[x.first].scope)
  {
    hide ScopeList, Merge;
    var codes := F14(x).world.db.codes;
    assert codes == x.s.world.db.codes + Coded(x, x.first, x.code1).codes + Coded(x, x.second, x.code2).codes;
    assert x.code1 in codes && codes[x.code1].scope == x.s.world.db.requests[x.first].scope;
  }

  /** The last step is the second approval. */
  lemma FormsLast(x: Forms)
    requires Pending(x)
    ensures
      var e := EventOf(F13(x), Commit(1));
      && e.Some? && e.value.Approve? && e.value.token in F13(x).world.db.requests
      && F13(x).world.db.requests[e.value.token].user == x.user && F13(x).world.db.requests[e.value.token].app == App(x)
  {
    hide ScopeList, Merge;
  }

  // ----- Such a state is reached -----

  const ALICE := Uuid(0)
  const APP := Uuid(1)
  const SESSION := Digest(0)

  function Setting(): Env {
    Env(Digests((s: string) => Digest(|s|), (s: string) => s),
        map["client" := Client(APP, "client", None, true, true, ["openid", "email", "profile"],
                               15 * MINUTE, 15 * MINUTE, 60 * MINUTE)],
        {(APP, "https://app/callback")}, map[ALICE := User(true, false)],
        map[SESSION := Session(ALICE, 60 * MINUTE, false, false)], Policy(false, {}, {}, {}))
  }

  function Asking(extra: string): Query {
    Query("code", "client", "https://app/callback", "state", "", "challenge", "S256", Join(["openid", extra]), false)
  }

  lemma AskingSplits(extra: string)
    requires extra == "email" || extra == "profile"
    ensures Split(Asking(extra).scope) == Ok(["openid", extra])
  {
    assert Rfc6749Token("openid") && Rfc6749Token(extra);
    Rfc6749ListAccepted(["openid", extra]);
    DedupOfDistinct(["openid", extra]);
  }

  lemma AskingIsAuthorized(extra: string)
    requires extra == "email" || extra == "profile"
    ensures Authorized(Setting(), 0, SESSION, Asking(extra))
    ensures StoredScope(Asking(extra)) == Join(["openid", extra])
    ensures ScopeSet(StoredScope(Asking(extra))) == {"openid", extra}
  {
    hide Split, Join, Elements;
    AskingSplits(extra);
    TwoElements("openid", extra);
  }

  lemma TwoElements(a: string, b: string)
    ensures Elements([a, b]) == {a, b}
  {
    assert [a, b][0] == a && [a, b][1] == b;
  }

  function Asked(extra: string): Request {
    Request(APP, ALICE, "https://app/callback", "", Join(["openid", extra]), "challenge", 5 * MINUTE, None)
  }

  function Quietly(requests: map<Hash, Request>): Sys {
    Sys(World(Setting(), EmptyDb.(requests := requests), 0), map[], map[])
  }

  lemma AskStep(requests: map<Hash, Request>, extra: string, token: Hash)
    requires (extra == "email" || extra == "profile") && token !in requests
    ensures Next(Quietly(requests), OneStatement(Ask(SESSION, Asking(extra), token)),
                 Quietly(requests[token := Asked(extra)]))
  {
    hide Authorized, Split, Join, ScopeList, StoredScope;
    AskingIsAuthorized(extra);
  }

  function Both(): map<Hash, Request> {
    map[Digest(1) := Asked("email")][Digest(2) := Asked("profile")]
  }

  lemma TwoAsked() returns (h: History)
    ensures IsHistory(h) && |h.labels| == 2 && h.states[2] == Quietly(Both())
  {
    hide Next, Asking, Asked, Setting;
    AskStep(map[], "email", Digest(1));
    AskStep(map[Digest(1) := Asked("email")], "profile", Digest(2));
    h := History([Quietly(map[]), Quietly(map[Digest(1) := Asked("email")]), Quietly(Both())],
                 [OneStatement(Ask(SESSION, Asking("email"), Digest(1))),
                  OneStatement(Ask(SESSION, Asking("profile"), Digest(2)))]);
    forall i | 0 <= i < |h.labels| ensures NextAt(h, i) {
    }
  }

  function Example(): Forms {
    Forms(Quietly(Both()), ALICE, Digest(1), Digest(2), Digest(3), Digest(4))
  }

  lemma ExampleIsPending()
    ensures Pending(Example())
    ensures Example().s.world.db.requests[Digest(1)] == Asked("email")
    ensures Example().s.world.db.requests[Digest(2)] == Asked("profile")
  {
    hide Setting, Join;
  }

  /** So it happens in a run from empty tables: two requests, for "email" and for "profile", both
      approved; "email" is recorded and then lost, and the code that grants it stays. */
  lemma ItHappens() returns (h: History)
    ensures IsHistory(h) && |h.labels| == 16
    ensures Loses(h, 15, ALICE, APP, "email") && "email" in GrantedAt(h, 13, ALICE, APP)
    ensures "email" !in GrantedAt(h, 16, ALICE, APP)
    ensures Stored(h.states[16].world.db, ALICE, APP, Join(["openid", "email"]))
    ensures "email" in ScopeSet(Join(["openid", "email"]))
  {
    hide Next, Inv, Pending, Stored, Asking, Setting, Join, ScopeSet, Approves, Granted, Both, EventOf, NextAt;
    var start := TwoAsked();
    InvThroughout(start, 2);
    ExampleIsPending();
    var race := ApprovalsOverwrite(Example());
    AskedScopes("email");
    AskedScopes("profile");
    h := Joined(start, race);
    NothingGrantedYet();
    SameSteps(h, race, 2);
  }

  lemma AskedScopes(extra: string)
    requires extra == "email" || extra == "profile"
    ensures Asked(extra).app == APP && Asked(extra).scope == Join(["openid", extra])
    ensures ScopeSet(Join(["openid", extra])) == {"openid", extra}
  {
    hide Authorized, Split, Join, ScopeSet;
    AskingIsAuthorized(extra);
  }

  lemma NothingGrantedYet()
    ensures Granted(Quietly(Both()).world.db.consents, ALICE, APP) == {}
  {
  }

  lemma SameSteps(h: History, g: History, n: nat)
    requires Steps(h) && Steps(g) && |h.labels| == n + |g.labels| && |g.labels| == 14
    requires forall i :: 0 <= i < 15 ==> h.states[n + i] == g.states[i]
    requires forall i :: 0 <= i < 14 ==> h.labels[n + i] == g.labels[i]
    ensures forall u, a, x :: Loses(g, 13, u, a, x) ==> Loses(h, n + 13, u, a, x)
    ensures forall u, a :: GrantedAt(h, n + 11, u, a) == GrantedAt(g, 11, u, a)
    ensures forall u, a :: GrantedAt(h, n + 14, u, a) == GrantedAt(g, 14, u, a)
  {
    hide Next, EventOf, Granted;
    assert h.states[n + 13] == g.states[13] && h.states[n + 14] == g.states[14] && h.labels[n + 13] == g.labels[13];
    assert h.states[n + 11] == g.states[11];
  }
}
