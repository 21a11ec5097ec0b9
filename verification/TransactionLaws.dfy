/**
  What a transaction may commit, for each of the four jobs and under every interleaving, said in
  terms of the rows at its commit: the ledger's laws then say what that event is worth
  (GrantLaws, through InterleavingRefinesLedger).
 */
module TransactionLaws {
  import opened Accounts
  import opened Scopes
  import opened Ledger
  import opened Families
  import opened Interleaving

  /** The rows a sweep for this job is to revoke: the presented token among them, and for the
      refresh job that token had been spent or revoked. */
  predicate RevokeFits(db: Db, job: Job, family: Id, rows: set<Hash>) {
    && (job.RefreshJob? || job.RevokeJob?)
    && job.token in rows && job.token in db.refresh
    && db.refresh[job.token].app == job.app && db.refresh[job.token].family == family
    && (job.RefreshJob? ==> db.refresh[job.token].consumedAt.Some? || db.refresh[job.token].revokedAt.Some?)
  }

  predicate EventFits(db: Db, job: Job, started: Time, e: Event) {
    match job
    case CodeJob(app, code, redirect, verifier) =>
      && e.Exchange? && e.app == app && e.code == code && e.redirect == redirect && e.verifier == verifier
      && e.started == started
    case RefreshJob(app, token) =>
      if e.Rotate? then e.app == app && e.token == token && e.started == started
      else e.Revoke? && RevokeFits(db, job, e.family, e.rows) && e.started == started
    case RevokeJob(_, _) => e.Revoke? && RevokeFits(db, job, e.family, e.rows) && e.started == started
    case ConsentJob(user, token, approve) =>
      if approve then e.Approve? && e.user == user && e.token == token && e.started == started
      else e.Deny? && e.user == user && e.token == token && e.started == started
  }

  /** How far a transaction has come says what it may still commit. */
  predicate JobInv(db: Db, tx: Tx) {
    match tx.stage
    case Reuse => IsReuse(db, tx.job)
    case Sweeping(family, rows, _) => RevokeFits(db, tx.job, family, rows)
    case AccessIn(_, _, _) => tx.job.CodeJob? || tx.job.RefreshJob?
    case Signed(_, _, _) => tx.job.CodeJob? || tx.job.RefreshJob?
    case ConsentRead(_, _) => tx.job.ConsentJob? && tx.job.approve
    case ConsentWritten(_, _) => tx.job.ConsentJob? && tx.job.approve
    case Ready(e) => EventFits(db, tx.job, tx.started, e)
    case _ => true
  }

  /** Refresh rows keep application and family, and once spent or revoked they stay so. */
  predicate MarksPersist(before: Db, after: Db) {
    forall h :: h in before.refresh ==>
      && h in after.refresh
      && after.refresh[h].app == before.refresh[h].app && after.refresh[h].family == before.refresh[h].family
      && (before.refresh[h].consumedAt.Some? ==> after.refresh[h].consumedAt.Some?)
      && (before.refresh[h].revokedAt.Some? ==> after.refresh[h].revokedAt.Some?)
  }

  lemma EventKeepsMarks(w: World, e: Event)
    requires Enabled(w, e)
    ensures MarksPersist(w.db, Apply(w, e).db)
  {
    hide CodeUsable, RequestUsable, Authorized, ScopeList;
  }

  lemma JobInvStable(before: Db, after: Db, tx: Tx)
    requires JobInv(before, tx) && MarksPersist(before, after)
    ensures JobInv(after, tx)
  {
  }

  /** A statement moves its own transaction on and leaves the tables and the others alone. */
  lemma OwnStatement(s: Sys, l: Label, s': Sys)
    requires !l.Begin? && !l.Rollback? && !l.Commit? && !l.OneStatement?
    requires l.t in s.txs && JobInv(s.world.db, s.txs[l.t]) && TxNext(s, l, s.txs[l.t], s')
    ensures l.t in s'.txs && JobInv(s.world.db, s'.txs[l.t]) && s'.world == s.world
    ensures s'.txs == s.txs[l.t := s'.txs[l.t]]
  {
    hide Passes, SpentWrites, AccessRowOf, RefreshRowOf, Unlocked, Free, Target, IdTokenOk, CodeFrom, ConsentOf;
    if l.SweepStart? {
      assert s.txs[l.t].job.token in FamilyRows(s.world.db.refresh, s.world.db.refresh[s.txs[l.t].job.token].family);
    }
  }

  lemma StepKeepsJobs(s: Sys, l: Label, s': Sys, t: TxId)
    requires Inv(s) && Next(s, l, s') && t in s'.txs
    requires t in s.txs ==> JobInv(s.world.db, s.txs[t])
    ensures JobInv(s'.world.db, s'.txs[t])
  {
    hide Inv, JobInv, TxNext, Enabled, Apply, EventOf;
    StepRefines(s, l, s');
    match l
    case Begin(b, job) => Starts(s, l, s', t);
    case Rollback(_) =>
    case Commit(c) =>
      CommitIsEvent(s, c, s');
      EventKeepsMarks(s.world, s.txs[c].stage.event);
      JobInvStable(s.world.db, s'.world.db, s.txs[t]);
    case OneStatement(e) =>
      EventKeepsMarks(s.world, e);
      JobInvStable(s.world.db, s'.world.db, s.txs[t]);
    case _ =>
      Moves(s, l, s', t);
  }

  lemma Starts(s: Sys, l: Label, s': Sys, t: TxId)
    requires l.Begin? && Next(s, l, s') && t in s'.txs && (t in s.txs ==> JobInv(s.world.db, s.txs[t]))
    ensures JobInv(s'.world.db, s'.txs[t])
  {
  }

  lemma Moves(s: Sys, l: Label, s': Sys, t: TxId)
    requires !l.Begin? && !l.Rollback? && !l.Commit? && !l.OneStatement?
    requires l.t in s.txs && TxNext(s, l, s.txs[l.t], s') && t in s'.txs
    requires t in s.txs ==> JobInv(s.world.db, s.txs[t])
    ensures JobInv(s'.world.db, s'.txs[t])
  {
    hide JobInv, TxNext;
    OtherStays(s, l, s', t);
    if t == l.t {
      OwnStatement(s, l, s');
    }
  }

  lemma OtherStays(s: Sys, l: Label, s': Sys, t: TxId)
    requires !l.Begin? && !l.Rollback? && !l.Commit? && !l.OneStatement?
    requires l.t in s.txs && TxNext(s, l, s.txs[l.t], s') && t in s'.txs
    ensures s'.world == s.world && t in s.txs && (t != l.t ==> s'.txs[t] == s.txs[t])
  {
    hide Passes, SpentWrites, AccessRowOf, RefreshRowOf, Unlocked, Free, Target, IdTokenOk, CodeFrom, ConsentOf;
  }

  lemma {:induction false} JobsFit(h: History, i: nat, t: TxId)
    requires IsHistory(h) && i < |h.states| && t in h.states[i].txs
    ensures JobInv(h.states[i].world.db, h.states[i].txs[t])
    decreases i
  {
    hide JobInv, Next, Inv;
    if i > 0 {
      assert NextAt(h, i - 1);
      InvThroughout(h, i - 1);
      if t in h.states[i - 1].txs {
        JobsFit(h, i - 1, t);
      }
      StepKeepsJobs(h.states[i - 1], h.labels[i - 1], h.states[i], t);
    }
  }

  /** A refresh transaction, under every interleaving: it commits a rotation of the presented token if
      that is neither spent nor revoked at the commit, and otherwise a revocation in its family
      that has reached at least the presented token. A revocation request commits the latter. */
  lemma RefreshOrRevoke(h: History, i: nat)
    requires IsHistory(h) && i < |h.labels| && |h.states| == |h.labels| + 1 && h.labels[i].Commit?
    requires
      h.labels[i].t in h.states[i].txs
      && (h.states[i].txs[h.labels[i].t].job.RefreshJob? || h.states[i].txs[h.labels[i].t].job.RevokeJob?)
    ensures
      var tx, before, after := h.states[i].txs[h.labels[i].t], h.states[i].world.db, h.states[i + 1].world.db;
      && tx.job.token in before.refresh && before.refresh[tx.job.token].app == tx.job.app
      && tx.job.token in after.refresh
      && var row := before.refresh[tx.job.token];
      if tx.job.RefreshJob? && row.consumedAt == None && row.revokedAt == None
      then
        && after.refresh[tx.job.token] == row.(consumedAt := Some(tx.started))
        && (exists next :: next !in before.refresh && next in after.refresh
              && after.refresh[next].family == row.family && after.refresh[next].parent == Some(tx.job.token))
      else
        && after.refresh.Keys == before.refresh.Keys
        && after.refresh[tx.job.token].revokedAt.Some?
        && (forall k :: k in before.refresh && before.refresh[k].family != row.family ==>
              after.refresh[k] == before.refresh[k])
        && after.access == before.access && after.codes == before.codes
  {
    hide JobInv, Inv, IsHistory, Enabled, Apply;
    var s, t := h.states[i], h.labels[i].t;
    NextStep(h, i);
    InvThroughout(h, i);
    JobsFit(h, i, t);
    CommitIsEvent(s, t, h.states[i + 1]);
    ReadyEvent(s, t, h.states[i + 1]);
    var e := s.txs[t].stage.event;
    if e.Rotate? {
      RotationLeaves(s.world, e);
    } else {
      RevocationLeaves(s.world, e);
    }
  }

  lemma NextStep(h: History, i: nat)
    requires IsHistory(h) && i < |h.labels|
    ensures |h.states| == |h.labels| + 1 && Next(h.states[i], h.labels[i], h.states[i + 1])
  {
    assert NextAt(h, i);
  }

  lemma ReadyEvent(s: Sys, t: TxId, s': Sys)
    requires t in s.txs && JobInv(s.world.db, s.txs[t]) && Next(s, Commit(t), s')
    ensures s.txs[t].stage.Ready? && EventFits(s.world.db, s.txs[t].job, s.txs[t].started, s.txs[t].stage.event)
  {
  }

  lemma RotationLeaves(w: World, e: Event)
    requires Enabled(w, e) && e.Rotate?
    ensures
      var before, after := w.db.refresh, Apply(w, e).db.refresh;
      && e.token in before && before[e.token].app == e.app
      && before[e.token].consumedAt == None && before[e.token].revokedAt == None
      && e.token in after && after[e.token] == before[e.token].(consumedAt := Some(e.started))
      && e.mint.token !in before && e.mint.token in after
      && after[e.mint.token].family == before[e.token].family && after[e.mint.token].parent == Some(e.token)
  {
  }

  lemma RevocationLeaves(w: World, e: Event)
    requires Enabled(w, e) && e.Revoke?
    ensures
      var before, after := w.db, Apply(w, e).db;
      && after.refresh.Keys == before.refresh.Keys && after.access == before.access && after.codes == before.codes
      && (forall k :: k in e.rows && k in before.refresh ==> after.refresh[k].revokedAt.Some?)
      && (forall k :: k in before.refresh && before.refresh[k].family != e.family ==>
            after.refresh[k] == before.refresh[k])
  {
  }

  /** A code exchange commits an exchange of its own code and verifier; a consent form commits the
      decision it was sent with, for its own user. */
  lemma ExchangeOrDecide(h: History, i: nat) returns (e: Event)
    requires IsHistory(h) && i < |h.labels| && |h.states| == |h.labels| + 1 && h.labels[i].Commit?
    requires
      h.labels[i].t in h.states[i].txs
      && (h.states[i].txs[h.labels[i].t].job.CodeJob? || h.states[i].txs[h.labels[i].t].job.ConsentJob?)
    ensures Enabled(h.states[i].world, e) && h.states[i + 1].world == Apply(h.states[i].world, e)
    ensures
      var job, started := h.states[i].txs[h.labels[i].t].job, h.states[i].txs[h.labels[i].t].started;
      if job.CodeJob? then
        && e.Exchange? && e.app == job.app && e.code == job.code && e.redirect == job.redirect
        && e.verifier == job.verifier && e.started == started
      else if job.approve then e.Approve? && e.user == job.user && e.token == job.token && e.started == started
      else e.Deny? && e.user == job.user && e.token == job.token && e.started == started
  {
    hide JobInv, Inv, IsHistory, Enabled, Apply;
    var s, t := h.states[i], h.labels[i].t;
    NextStep(h, i);
    InvThroughout(h, i);
    JobsFit(h, i, t);
    CommitIsEvent(s, t, h.states[i + 1]);
    ReadyEvent(s, t, h.states[i + 1]);
    e := s.txs[t].stage.event;
  }

  /** When the SELECT .. FOR UPDATE of a transaction that has just begun finds something to go on
      with, and what follows: the checks on the row, or, for a spent or revoked refresh token
      of the client, the revocation of its family. */
  lemma WhatIsSelected(s: Sys, t: TxId) returns (s': Sys)
    requires t in s.txs && s.txs[t].stage.Begun? && !s.txs[t].job.RevokeJob?
    ensures
      var job, w := s.txs[t].job, s.world;
      var found := match job
                   case CodeJob(app, code, redirect, verifier) =>
                     && CodeRow(code) !in s.locks && code in w.db.codes
                     && w.db.codes[code].app == app && w.db.codes[code].redirect == redirect
                     && w.db.codes[code].consumedAt == None && w.now <= w.db.codes[code].expires
                     && 43 <= |verifier| <= 128 && w.env.digests.s256(verifier) == w.db.codes[code].challenge
                     && (forall i :: 0 <= i < |verifier| ==>
                           || 'a' <= verifier[i] <= 'z' || 'A' <= verifier[i] <= 'Z' || '0' <= verifier[i] <= '9'
                           || verifier[i] == '-' || verifier[i] == '.' || verifier[i] == '_' || verifier[i] == '~')
                   case RefreshJob(app, token) =>
                     && RefreshRow(token) !in s.locks && token in w.db.refresh && w.db.refresh[token].app == app
                     && (|| w.db.refresh[token].consumedAt.Some? || w.db.refresh[token].revokedAt.Some?
                         || w.now <= w.db.refresh[token].expires)
                   case ConsentJob(user, token, _) =>
                     && RequestRow(token) !in s.locks && token in w.db.requests
                     && w.db.requests[token].user == user && w.db.requests[token].consumedAt == None
                     && w.now <= w.db.requests[token].expires
                   case _ => false;
      && (found <==> Next(s, SelectForUpdate(t), s'))
      && (found ==>
            && t in s'.txs && s'.world == s.world
            && (s'.txs[t].stage.Reuse? <==>
                  && job.RefreshJob? && job.token in w.db.refresh
                  && (w.db.refresh[job.token].consumedAt.Some? || w.db.refresh[job.token].revokedAt.Some?)))
  {
    var tx := s.txs[t];
    s' := With(s, t, tx.(stage := if IsReuse(s.world.db, tx.job) then Reuse else Checked(s.world.now)),
               s.locks[Target(tx.job) := t]);
  }
}
