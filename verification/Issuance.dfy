/**
  Tokens and deactivated users. signIDToken looks at the user in the middle of a token
  transaction without locking the row (backend/internal/httpapi/oauth.go, lines 707 to 739 and
  784 to 793), so what an interleaved run guarantees is a check made earlier in the same
  transaction; the user can still be deactivated before the commit.
 */
module Issuance {
  import opened Accounts
  import opened Runs
  import opened Scopes
  import opened Ledger
  import opened Conservation
  import opened Interleaving

  /** The event issues tokens to this user. */
  predicate IssuesTo(db: Db, e: Event, u: Id) {
    match e
    case Exchange(_, code, _, _, _, _, _, _) => code in db.codes && db.codes[code].user == u
    case Rotate(_, token, _, _, _) => token in db.refresh && db.refresh[token].user == u
    case _ => false
  }

  /** The transaction has signed an ID token for this user. */
  predicate SignedFor(db: Db, tx: Tx, u: Id) {
    match tx.stage
    case Signed(_, _, _) => Issues(db, tx.job) && GranteeOf(db, tx.job).0 == u
    case Ready(e) => IssuesTo(db, e, u)
    case _ => false
  }

  /** Step `c` is the statement of transaction `t` that looks at the active user `u`. */
  ghost predicate ChecksActive(h: History, c: nat, t: TxId, u: Id) {
    && c < |h.labels| && c < |h.states|
    && h.labels[c] == SignId(t) && t in h.states[c].txs
    && Issues(h.states[c].world.db, h.states[c].txs[t].job)
    && GranteeOf(h.states[c].world.db, h.states[c].txs[t].job).0 == u
    && Active(h.states[c].world.env, u)
  }

  /** Codes and refresh tokens never change hands. */
  lemma UsersKept(w: World, e: Event)
    requires Enabled(w, e)
    ensures forall h :: h in w.db.codes ==>
              h in Apply(w, e).db.codes && Apply(w, e).db.codes[h].user == w.db.codes[h].user
    ensures forall h :: h in w.db.refresh ==>
              h in Apply(w, e).db.refresh && Apply(w, e).db.refresh[h].user == w.db.refresh[h].user
  {
  }

  /** A transaction that has signed had the same user before anybody else's step. */
  lemma SignedBefore(w: World, w': World, locks: map<Row, TxId>, t: TxId, tx: Tx, u: Id)
    requires TxInv(w, locks, t, tx) && SignedFor(w'.db, tx, u)
    requires forall h :: h in w.db.codes ==> h in w'.db.codes && w'.db.codes[h].user == w.db.codes[h].user
    requires forall h :: h in w.db.refresh ==> h in w'.db.refresh && w'.db.refresh[h].user == w.db.refresh[h].user
    ensures SignedFor(w.db, tx, u)
  {
  }

  ghost predicate IsSigned(s: Sys, t: TxId, u: Id) {
    t in s.txs && SignedFor(s.world.db, s.txs[t], u)
  }

  /** A transaction becomes one that has signed for `u` by no other statement. */
  lemma BecomesSigned(s: Sys, l: Label, s': Sys, t: TxId, u: Id)
    requires Inv(s) && Next(s, l, s') && IsSigned(s', t, u) && !IsSigned(s, t, u)
    ensures l == SignId(t)
    ensures t in s.txs && Issues(s.world.db, s.txs[t].job) && GranteeOf(s.world.db, s.txs[t].job).0 == u
  {
    hide Enabled, Apply, Footprint, Overlay, TxInv, Passes;
    StepRefines(s, l, s');
    if EventOf(s, l).Some? {
      UsersKept(s.world, EventOf(s, l).value);
      assert t in s.txs && s.txs[t] == s'.txs[t];
      SignedBefore(s.world, s'.world, s.locks, t, s.txs[t], u);
    }
  }

  lemma SignsForActive(s: Sys, t: TxId, s': Sys)
    requires OpenidInv(s.world.db) && Next(s, SignId(t), s')
    ensures t in s.txs && Issues(s.world.db, s.txs[t].job)
    ensures Active(s.world.env, GranteeOf(s.world.db, s.txs[t].job).0)
  {
    hide ScopeList;
    assert HasOpenid(GranteeOf(s.world.db, s.txs[t].job).2);
  }

  /** Every grant has `openid`, so signing always looks at the user. */
  lemma SignatureIsCheck(h: History, c: nat)
    requires IsHistory(h) && c < |h.labels| && h.labels[c].SignId?
    ensures h.labels[c].t in h.states[c].txs
    ensures Issues(h.states[c].world.db, h.states[c].txs[h.labels[c].t].job)
    ensures ChecksActive(h, c, h.labels[c].t, GranteeOf(h.states[c].world.db, h.states[c].txs[h.labels[c].t].job).0)
  {
    assert NextAt(h, c);
    InterleavedLaws(h, c);
    SignsForActive(h.states[c], h.labels[c].t, h.states[c + 1]);
  }

  // ----- Between the check and the commit -----

  /** Step `k` replaces the configuration by one in which the user is inactive, or active. */
  predicate Sets(h: History, k: nat, u: Id, active: bool) {
    && k < |h.labels| && h.labels[k].OneStatement? && h.labels[k].e.Advance?
    && Active(h.labels[k].e.env, u) == active
  }

  /** Deactivated at some step from `c` on, and not activated again before `i`. */
  ghost predicate Deactivated(h: History, c: nat, i: nat, u: Id) {
    Since(c, i, (k: nat) => Sets(h, k, u, false), (k: nat) => Sets(h, k, u, true))
  }

  lemma EnvironmentStep(s: Sys, l: Label, s': Sys)
    requires Next(s, l, s')
    ensures s'.world.env == if l.OneStatement? && l.e.Advance? then l.e.env else s.world.env
  {
  }

  lemma InactiveIffDeactivated(h: History, c: nat, i: nat, u: Id)
    requires Steps(h) && c <= i < |h.states| && Active(h.states[c].world.env, u)
    ensures !Active(h.states[i].world.env, u) <==> Deactivated(h, c, i, u)
  {
    var off := (n: nat) => n < |h.states| && !Active(h.states[n].world.env, u);
    var down, up := (k: nat) => Sets(h, k, u, false), (k: nat) => Sets(h, k, u, true);
    forall n: nat | c <= n < i ensures off(n + 1) <==> down(n) || (off(n) && !up(n)) {
      assert NextAt(h, n);
      EnvironmentStep(h.states[n], h.labels[n], h.states[n + 1]);
    }
    FlagSince(c, i, off, down, up);
  }

  lemma WhereSigned(h: History, i: nat, t: TxId, u: Id) returns (c: nat)
    requires IsHistory(h) && i < |h.states| && IsSigned(h.states[i], t, u)
    ensures c < i && c < |h.labels| && h.labels[c] == SignId(t) && SameTransaction(h, c, i, t)
    ensures Issues(h.states[c].world.db, h.states[c].txs[t].job)
    ensures GranteeOf(h.states[c].world.db, h.states[c].txs[t].job).0 == u
  {
    hide Inv, Next, SignedFor, Issues, GranteeOf;
    var on := (n: nat) => n < |h.states| && IsSigned(h.states[n], t, u);
    c := RaisedAt(0, i, on);
    assert !on(c) && on(c + 1);
    InvThroughout(h, c);
    assert NextAt(h, c);
    BecomesSigned(h.states[c], h.labels[c], h.states[c + 1], t, u);
    forall k | c <= k <= i ensures t in h.states[k].txs {
      assert k > c ==> on(k);
    }
  }

  /** Under every interleaving, the transaction that commits tokens for a user has looked at
      that user, found him active, and not ended since (step `c`). At the commit the user is
      inactive exactly when he was deactivated, and not activated again, after that look. */
  lemma TokensFollowActiveCheck(h: History, i: nat) returns (c: nat, u: Id)
    requires IsHistory(h) && i < |h.labels| && EventOf(h.states[i], h.labels[i]).Some?
    requires EventOf(h.states[i], h.labels[i]).value.Exchange? || EventOf(h.states[i], h.labels[i]).value.Rotate?
    ensures h.labels[i].Commit? && IssuesTo(h.states[i].world.db, EventOf(h.states[i], h.labels[i]).value, u)
    ensures c < i && ChecksActive(h, c, h.labels[i].t, u) && SameTransaction(h, c, i, h.labels[i].t)
    ensures !Active(h.states[i].world.env, u) <==> Deactivated(h, c, i, u)
  {
    var s, e := h.states[i], EventOf(h.states[i], h.labels[i]).value;
    CommittedEvent(h, i);
    u := if e.Exchange? then s.world.db.codes[e.code].user else s.world.db.refresh[e.token].user;
    assert NextAt(h, i);
    var t := h.labels[i].t;
    assert IsSigned(s, t, u);
    c := WhereSigned(h, i, t, u);
    SignatureIsCheck(h, c);
    InactiveIffDeactivated(h, c, i, u);
  }

  // ----- It does happen -----

  ghost function UserOf(x: Race): Id
    requires Refreshing(x)
  {
    x.s.world.db.refresh[x.token].user
  }

  /** The configuration with the user switched off. */
  ghost function Without(x: Race): Env
    requires Refreshing(x) && Active(x.s.world.env, UserOf(x))
  {
    var env := x.s.world.env;
    env.(users := env.users[UserOf(x) := env.users[UserOf(x)].(active := false)])
  }

  ghost function Off(x: Race, s: Sys): Sys
    requires Refreshing(x) && Active(x.s.world.env, UserOf(x))
  {
    s.(world := s.world.(env := Without(x)))
  }

  ghost function OffCommitted(x: Race): Sys
    requires Refreshing(x) && Active(x.s.world.env, UserOf(x))
  {
    Sys(Off(x, x.s).world.(db := Overlay(x.s.world.db, WritesOf(x.s.world.db, Rotation(x)))), map[], map[])
  }

  ghost function OffHistory(x: Race, family: Id): History
    requires Refreshing(x) && Active(x.s.world.env, UserOf(x))
  {
    History([x.s, S1(x), S2(x), S3(x), S4(x), S5(x), Off(x, S5(x)), Off(x, S6(x)), OffCommitted(x)],
            [Begin(0, Job0(x)), SelectForUpdate(0), Spend(0), InsertAccess(0, x.jti, x.s.world.now + x.accessTtl),
             SignId(0),
             OneStatement(Advance(Without(x), x.s.world.now)),
             InsertRefresh(0, x.next, family, x.s.world.now + x.refreshTtl), Commit(0)])
  }

  lemma SwitchedOff(x: Race)
    requires Refreshing(x) && Active(x.s.world.env, UserOf(x))
    ensures Next(S5(x), OneStatement(Advance(Without(x), x.s.world.now)), Off(x, S5(x)))
  {
    hide IdTokenOk;
  }

  lemma InsertsAllTheSame(x: Race, family: Id)
    requires Refreshing(x) && Active(x.s.world.env, UserOf(x))
    ensures Next(Off(x, S5(x)), InsertRefresh(0, x.next, family, x.s.world.now + x.refreshTtl), Off(x, S6(x)))
  {
    hide IdTokenOk;
  }

  lemma CommitsAllTheSame(x: Race)
    requires Refreshing(x) && Active(x.s.world.env, UserOf(x))
    ensures Next(Off(x, S6(x)), Commit(0), OffCommitted(x))
  {
    hide IdTokenOk, WritesOf, Overlay;
    assert Release(S6(x).locks, 0) == map[];
    assert S6(x).txs - {0} == map[];
  }

  /** From any quiet state in which a token of an active user can be refreshed, there is a run
      in which the user is deactivated after the look and the tokens are committed. */
  lemma TokensForDeactivatedUser(x: Race, family: Id) returns (h: History)
    requires Quiet(x.s) && Refreshing(x) && Active(x.s.world.env, x.s.world.db.refresh[x.token].user)
    ensures Steps(h) && h.states[0] == x.s && |h.labels| == 8 && h.labels[7] == Commit(0)
    ensures EventOf(h.states[7], Commit(0)) == Some(Rotation(x))
    ensures
      var u := x.s.world.db.refresh[x.token].user;
      && !Active(h.states[7].world.env, u) && !Active(h.states[8].world.env, u)
      && RefreshUsable(h.states[8].world.db, x.app, x.next, h.states[8].world.now)
      && h.states[8].world.db.refresh[x.next].user == u
  {
    hide Steps, Quiet, S1, S2, S3, S4, S5, S6, IdTokenOk, OffCommitted, EventOf, RefreshUsable, Without, Active;
    h := OffHistory(x, family);
    OffSteps(x, family);
    OffEnds(x);
  }

  lemma OffEnds(x: Race)
    requires Refreshing(x) && Active(x.s.world.env, UserOf(x))
    ensures EventOf(Off(x, S6(x)), Commit(0)) == Some(Rotation(x))
    ensures
      var w := OffCommitted(x).world;
      && !Active(Without(x), UserOf(x)) && w.env == Without(x)
      && RefreshUsable(w.db, x.app, x.next, w.now) && w.db.refresh[x.next].user == UserOf(x)
  {
    hide IdTokenOk;
  }

  lemma OffSteps(x: Race, family: Id)
    requires Refreshing(x) && Active(x.s.world.env, UserOf(x))
    ensures Steps(OffHistory(x, family))
  {
    hide Next, S1, S2, S3, S4, S5, S6, Off, OffCommitted, Without, Refreshing, Job0, Active;
    var h := OffHistory(x, family);
    Race1(x); Race2(x); Race3(x); Race4(x); Race5(x);
    SwitchedOff(x);
    InsertsAllTheSame(x, family);
    CommitsAllTheSame(x);
    forall i | 0 <= i < |h.labels| ensures NextAt(h, i) {
    }
  }
}
