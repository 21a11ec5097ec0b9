/**
  What a statement of an MFA request rests on, said outright: conclusions are about rows of the
  tables at named steps of the history, with no predicate of the model in between. `a` is the step
  at which the request arrived, later letters the steps of its own reads.
 */
module AssuranceLaws {
  import opened Accounts
  import opened Runs
  import opened Mfa
  import opened Assurance

  // ----- What goes, and by whose hand -----

  /** An active TOTP secret goes by an administrator's reset, by the user's own removal, or by a
      new secret that the same user began to enrol: beginTOTPEnrollment overwrites whatever it
      finds, and that can be a secret confirmed since it looked. */
  lemma ActiveTotpGoes(h: History, i: nat, u: Id)
    requires IsHistory(h) && i < |h.labels| && |h.states| == |h.labels| + 1
    requires u in h.states[i].state.totp && h.states[i].state.totp[u].active
    requires u in h.states[i + 1].state.totp ==> h.states[i + 1].state.totp[u] != h.states[i].state.totp[u]
    ensures
      var s, l := h.states[i], h.labels[i];
      || l == World(Reset(u))
      || (&& l.Remove? && l.t in s.reqs && s.reqs[l.t].p.user == u && s.reqs[l.t].job == DropTotpJob
          && u !in h.states[i + 1].state.totp)
      || (&& l.Store? && l.t in s.reqs && s.reqs[l.t].p.user == u && s.reqs[l.t].job.StartTotpJob?
          && u in h.states[i + 1].state.totp
          && h.states[i + 1].state.totp[u] == Totp(s.reqs[l.t].job.secret, false))
  {
    hide Can, Do, After, Enabled, CanDo, Initial, Tables;
    assert NextAt(h, i);
    var s, l := h.states[i], h.labels[i];
    if l.World? {
      WorldDoes(s, l);
      WorldFactorRows(s.state, l.e);
    } else if l.Arrive? || l.Abandon? {
      OthersTables(s, l);
    } else {
      OwnTables(s, l);
      OwnFactorRows(s.state, l, s.reqs[l.t]);
    }
  }

  /** A credential goes by a reset or by the removal of that very row by its own user. */
  lemma CredentialGoes(h: History, i: nat, row: Id)
    requires IsHistory(h) && i < |h.labels| && |h.states| == |h.labels| + 1 && row in h.states[i].state.credentials
    requires
      row in h.states[i + 1].state.credentials ==>
        h.states[i + 1].state.credentials[row] != h.states[i].state.credentials[row]
    ensures row !in h.states[i + 1].state.credentials
    ensures
      var s, l, u := h.states[i], h.labels[i], h.states[i].state.credentials[row].user;
      || l == World(Reset(u))
      || (l.Remove? && l.t in s.reqs && s.reqs[l.t].p.user == u && s.reqs[l.t].job == DropKeyJob(row))
  {
    hide Can, Do, After, Enabled, CanDo, Initial, Tables;
    assert NextAt(h, i);
    var s, l := h.states[i], h.labels[i];
    if l.World? {
      WorldDoes(s, l);
      WorldFactorRows(s.state, l.e);
    } else if l.Arrive? || l.Abandon? {
      OthersTables(s, l);
    } else {
      OwnTables(s, l);
      OwnFactorRows(s.state, l, s.reqs[l.t]);
      OwnRow(s, l, s.reqs[l.t]);
    }
  }

  /** The factor tables after a statement of a request. */
  lemma OwnFactorRows(st: State, l: Label, r: Req)
    ensures
      var u, t := r.p.user, Tables(st, l, r);
      && (l.Enrol? ==>
            && t.totp == (if u in st.totp then st.totp[u := st.totp[u].(active := true)] else st.totp)
            && t.credentials == st.credentials)
      && (l.Insert? ==> t.totp == st.totp && t.credentials == st.credentials[l.row := l.credential])
      && (l.Remove? ==>
            && t.totp == (if r.job.DropTotpJob? then st.totp - {u} else st.totp)
            && t.credentials == if r.job.DropKeyJob? then st.credentials - {r.job.row} else st.credentials)
      && (l.Store? ==>
            && t.totp == (if r.job.StartTotpJob? then st.totp[u := Totp(r.job.secret, false)] else st.totp)
            && t.credentials == st.credentials)
      && (!l.Enrol? && !l.Insert? && !l.Remove? && !l.Store? ==> t.totp == st.totp && t.credentials == st.credentials)
  {
    hide *;
    if l.Enrol? || l.Insert? {
      EnrolmentRows(st, l, r);
    } else if l.Remove? {
      RemovalRows(st, l, r);
    } else if l.Store? {
      StoredRows(st, l, r);
    } else {
      SameRows(st, l, r);
    }
  }

  lemma EnrolmentRows(st: State, l: Label, r: Req)
    ensures l.Enrol? ==>
              && Tables(st, l, r).credentials == st.credentials
              && Tables(st, l, r).totp ==
                   if r.p.user in st.totp then st.totp[r.p.user := st.totp[r.p.user].(active := true)] else st.totp
    ensures l.Insert? ==>
              && Tables(st, l, r).totp == st.totp
              && Tables(st, l, r).credentials == st.credentials[l.row := l.credential]
  {
    hide CodesOf, Issue, Mark;
  }

  lemma RemovalRows(st: State, l: Label, r: Req)
    requires l.Remove?
    ensures Tables(st, l, r).totp == if r.job.DropTotpJob? then st.totp - {r.p.user} else st.totp
    ensures Tables(st, l, r).credentials == if r.job.DropKeyJob? then st.credentials - {r.job.row} else st.credentials
  {
    hide CodesOf, Issue, Mark;
    if r.job.DropTotpJob? {
      assert Tables(st, l, r) == st.(totp := st.totp - {r.p.user});
    } else if r.job.DropKeyJob? {
      assert Tables(st, l, r) == st.(credentials := st.credentials - {r.job.row});
    } else {
      assert Tables(st, l, r) == st;
    }
  }

  lemma StoredRows(st: State, l: Label, r: Req)
    requires l.Store?
    ensures Tables(st, l, r).credentials == st.credentials
    ensures Tables(st, l, r).totp ==
              if r.job.StartTotpJob? then st.totp[r.p.user := Totp(r.job.secret, false)] else st.totp
  {
    hide CodesOf, Issue, Mark;
  }

  lemma SameRows(st: State, l: Label, r: Req)
    requires !l.Enrol? && !l.Insert? && !l.Remove? && !l.Store?
    ensures Tables(st, l, r).totp == st.totp && Tables(st, l, r).credentials == st.credentials
  {
    hide CodesOf, Issue, Mark;
  }

  lemma OwnRow(s: Sys, l: Label, r: Req)
    requires !l.World? && !l.Arrive? && !l.Abandon? && CanDo(s, l, r)
    ensures l.Insert? ==> l.row !in s.state.credentials
    ensures l.Remove? && r.job.DropKeyJob? ==>
              r.job.row in s.state.credentials && s.state.credentials[r.job.row].user == r.p.user
  {
    hide CodesOf, Unused, Free, HasPrimary, ValidCode;
  }

  lemma WorldFactorRows(st: State, e: Step)
    requires By(e) == None
    ensures !e.Reset? ==> After(st, e).totp == st.totp && After(st, e).credentials == st.credentials
    ensures e.Reset? ==>
              && After(st, e).totp == st.totp - {e.u}
              && forall c :: c in st.credentials && st.credentials[c].user != e.u ==>
                   c in After(st, e).credentials && After(st, e).credentials[c] == st.credentials[c]
    ensures e.Reset? ==> After(st, e).credentials.Keys <= st.credentials.Keys
    ensures e.Reset? ==>
              forall c :: c in st.credentials && st.credentials[c].user == e.u ==> c !in After(st, e).credentials
  {
    hide End, SessionsOf, Who;
  }

  // ----- What a change rests on -----

  /** The statement changes factors or recovery codes on behalf of its user, or stores the start
      of an enrolment. */
  predicate Changes(s: Sys, l: Label) {
    && (l.Remove? || l.Enrol? || l.Insert? || l.CommitCodes? || l.Store?)
    && l.t in s.reqs && (l.Store? && s.reqs[l.t].job.StartKeyJob? ==> s.reqs[l.t].job.kind != SignIn)
  }

  /** Whatever enrols, removes or replaces a factor or the codes was asked for through a live
      session of that user (step `a`), and the request looked at the factors (step `g`): where it
      saw one, the session had passed the second factor when the request arrived. */
  lemma ChangeWasGuarded(h: History, i: nat) returns (a: nat, g: nat)
    requires IsHistory(h) && i < |h.labels| && |h.states| == |h.labels| + 1
    requires Changes(h.states[i], h.labels[i])
    ensures a < g < i && h.labels[i].t in h.states[i].reqs
    ensures
      var t, r, st := h.labels[i].t, h.states[i].reqs[h.labels[i].t], h.states[a].state;
      var k, u := r.p.session, r.p.user;
      && h.labels[a] == Arrive(t, k, r.job) && h.labels[g] == Guard(t)
      && (forall m :: a < m <= i ==> t in h.states[m].reqs && h.states[m].reqs[t].job == r.job)
      && k in st.sessions && st.sessions[k].user == u && !st.sessions[k].revoked && st.now < st.sessions[k].expires
      && u in st.users && st.users[u].active
      && var seen := h.states[g].state;
      && (u in seen.totp && seen.totp[u].active ==> st.sessions[k].mfaVerified)
      && ((exists c :: c in seen.credentials && seen.credentials[c].user == u) ==> st.sessions[k].mfaVerified)
      && (r.job == RenewJob ==>
            && st.sessions[k].mfaVerified
            && ((u in seen.totp && seen.totp[u].active)
                || exists c :: c in seen.credentials && seen.credentials[c].user == u))
  {
    hide Can, Do, Initial, PrincipalOf, HasPrimary;
    assert NextAt(h, i);
    ChangesPastGuard(h.states[i], h.labels[i]);
    StagesFit(h, i, h.labels[i].t);
    a, g := WhereGuarded(h, i, h.labels[i].t);
    var r := h.states[i].reqs[h.labels[i].t];
    LivePrincipal(h.states[a].state, r.p.session);
    assert InFlight(h.states[g], h.labels[i].t, r.job, r.p);
    SeenFactors(h.states[g].state, r.p.user);
    forall m | a < m <= i ensures h.labels[i].t in h.states[m].reqs && h.states[m].reqs[h.labels[i].t].job == r.job {
      assert InFlight(h.states[m], h.labels[i].t, r.job, r.p);
    }
  }

  lemma ChangesPastGuard(s: Sys, l: Label)
    requires Can(s, l) && Changes(s, l)
    ensures PastGuard(s, l.t) && ((l.CommitCodes? && s.reqs[l.t].stage.Deleting?) || IsGuarded(s.reqs[l.t].job))
  {
    hide CodesOf, Unused, Free, CredentialsOf;
  }

  lemma LivePrincipal(st: State, k: Hash)
    requires Who(st, k).Some?
    ensures
      var p := Who(st, k).value;
      && k in st.sessions && p.session == k && st.sessions[k].user == p.user
      && p.mfaVerified == st.sessions[k].mfaVerified
      && !st.sessions[k].revoked && st.now < st.sessions[k].expires
      && p.user in st.users && st.users[p.user].active
  {
  }

  lemma SeenFactors(st: State, u: Id)
    ensures HasPrimary(st, u) <==>
              (u in st.totp && st.totp[u].active) || exists c :: c in st.credentials && st.credentials[c].user == u
  {
    if c :| c in st.credentials && st.credentials[c].user == u {
      assert c in CredentialsOf(st, u);
    }
    if c :| c in CredentialsOf(st, u) {
      assert c in st.credentials && st.credentials[c].user == u;
    }
  }

  // ----- Enrolments -----

  /** A TOTP secret becomes active only by a confirmation of the same user, whose code was valid,
      at the time of its own read (step `q`), for the secret then stored. */
  lemma ActiveTotpComes(h: History, i: nat, u: Id) returns (q: nat)
    requires IsHistory(h) && i < |h.labels| && |h.states| == |h.labels| + 1
    requires u in h.states[i + 1].state.totp && h.states[i + 1].state.totp[u].active
    requires u in h.states[i].state.totp ==> !h.states[i].state.totp[u].active
    ensures q < i && h.labels[i].Enrol? && h.labels[i].t in h.states[i].reqs && h.labels[q] == ReadTotp(h.labels[i].t)
    ensures
      var r, st := h.states[i].reqs[h.labels[i].t], h.states[q].state;
      && r.p.user == u && r.job.ConfirmJob?
      && u in h.states[i].state.totp && h.states[i + 1].state.totp[u].secret == h.states[i].state.totp[u].secret
      && u in st.totp && st.totpValid(st.totp[u].secret, r.job.code, st.now)
  {
    hide Can, Do, After, Enabled, CanDo, Initial, Tables;
    assert NextAt(h, i);
    var s, l := h.states[i], h.labels[i];
    if l.World? {
      WorldDoes(s, l);
      WorldFactorRows(s.state, l.e);
    } else if l.Arrive? || l.Abandon? {
      OthersTables(s, l);
    } else {
      OwnTables(s, l);
      OwnFactorRows(s.state, l, s.reqs[l.t]);
    }
    EnrolIsChecked(s, l);
    q := WhereChecked(h, i, l.t);
  }

  lemma EnrolIsChecked(s: Sys, l: Label)
    requires Can(s, l) && l.Enrol?
    ensures l.t in s.reqs && s.reqs[l.t].stage.Checked? && s.reqs[l.t].job.ConfirmJob?
  {
    hide CodesOf, Unused, Free;
  }

  lemma WhereChecked(h: History, i: nat, t: ReqId) returns (q: nat)
    requires IsHistory(h) && i < |h.states| && t in h.states[i].reqs && h.states[i].reqs[t].stage.Checked?
    requires h.states[i].reqs[t].job.ConfirmJob?
    ensures q < i && q < |h.labels| && h.labels[q] == ReadTotp(t)
    ensures
      var r, st := h.states[i].reqs[t], h.states[q].state;
      r.p.user in st.totp && st.totpValid(st.totp[r.p.user].secret, r.job.code, st.now)
  {
    hide Can, Do, Initial, Who;
    var job, p := h.states[i].reqs[t].job, h.states[i].reqs[t].p;
    var a := WhereArrived(h, i, t);
    assert NextAt(h, a);
    ArrivalIsFresh(h.states[a], h.labels[a]);
    var on := (n: nat) => n < |h.states| && t in h.states[n].reqs && h.states[n].reqs[t].stage.Checked?;
    q := RaisedAt(a + 1, i, on);
    assert !on(q) && on(q + 1);
    assert NextAt(h, q) && InFlight(h.states[q], t, job, p);
    BecomesChecked(h.states[q], h.labels[q], t);
  }

  lemma BecomesChecked(s: Sys, l: Label, t: ReqId)
    requires Can(s, l) && t in s.reqs && !s.reqs[t].stage.Checked?
    requires t in Do(s, l).reqs && Do(s, l).reqs[t].stage.Checked?
    ensures l == ReadTotp(t) && s.reqs[t].job.ConfirmJob? && ValidCode(s.state, s.reqs[t].p.user, s.reqs[t].job.code)
  {
    hide Do, Can, HasPrimary, ValidCode, Live, MayLoad, CredentialsOf, Unused, TotpOn, Free, CodesOf;
    OwnStage(s, l, t);
  }

  /** Another request's confirmation makes the secret active. */
  ghost predicate Confirms(h: History, k: nat, u: Id) {
    && k + 1 < |h.states| && k < |h.labels|
    && h.labels[k].Enrol? && h.labels[k].t in h.states[k].reqs && h.states[k].reqs[h.labels[k].t].p.user == u
    && TotpOn(h.states[k + 1].state, u)
  }

  ghost predicate Deactivates(h: History, k: nat, u: Id) {
    k + 1 < |h.states| && TotpOn(h.states[k].state, u) && !TotpOn(h.states[k + 1].state, u)
  }

  /** A new enrolment begins only where its own read (step `q`) found no active secret. The row it
      overwrites holds one by then exactly when a confirmation for the same user has committed
      since that read and the secret has not gone again: so a late beginTOTPEnrollment takes an
      active factor away. */
  lemma LateBeginIff(h: History, i: nat) returns (q: nat)
    requires IsHistory(h) && i < |h.labels| && |h.states| == |h.labels| + 1 && h.labels[i].Store?
    requires h.labels[i].t in h.states[i].reqs && h.states[i].reqs[h.labels[i].t].job.StartTotpJob?
    ensures q < i && h.labels[q] == ReadTotp(h.labels[i].t)
    ensures
      var u := h.states[i].reqs[h.labels[i].t].p.user;
      && !(u in h.states[q].state.totp && h.states[q].state.totp[u].active)
      && u in h.states[i + 1].state.totp && !h.states[i + 1].state.totp[u].active
      && (u in h.states[i].state.totp && h.states[i].state.totp[u].active <==>
            Since(q, i, (k: nat) => Confirms(h, k, u), (k: nat) => Deactivates(h, k, u)))
  {
    hide Can, Do, Initial, Tables, CanDo;
    assert NextAt(h, i);
    var l := h.labels[i];
    OwnTables(h.states[i], l);
    OwnFactorRows(h.states[i].state, l, h.states[i].reqs[l.t]);
    StoreIsPermitted(h.states[i], l);
    q := WhereFoundNone(h, i, l.t);
    var u := h.states[i].reqs[l.t].p.user;
    var on := (n: nat) => n < |h.states| && TotpOn(h.states[n].state, u);
    var up, down := (k: nat) => Confirms(h, k, u), (k: nat) => Deactivates(h, k, u);
    forall n: nat | q <= n < i ensures on(n + 1) <==> up(n) || (on(n) && !down(n)) {
      if on(n + 1) && !on(n) {
        var c := ActiveTotpComes(h, n, u);
      }
    }
    FlagSince(q, i, on, up, down);
  }

  lemma StoreIsPermitted(s: Sys, l: Label)
    requires Can(s, l) && l.Store?
    ensures l.t in s.reqs && s.reqs[l.t].stage.Permitted?
  {
  }

  lemma WhereFoundNone(h: History, i: nat, t: ReqId) returns (q: nat)
    requires IsHistory(h) && i < |h.states| && t in h.states[i].reqs && h.states[i].reqs[t].stage.Permitted?
    requires h.states[i].reqs[t].job.StartTotpJob?
    ensures q < i && q < |h.labels| && h.labels[q] == ReadTotp(t)
    ensures !TotpOn(h.states[q].state, h.states[i].reqs[t].p.user)
  {
    hide Can, Do, Initial, Who;
    var job, p := h.states[i].reqs[t].job, h.states[i].reqs[t].p;
    var a := WhereArrived(h, i, t);
    assert NextAt(h, a);
    ArrivalIsFresh(h.states[a], h.labels[a]);
    var on := (n: nat) => n < |h.states| && t in h.states[n].reqs && h.states[n].reqs[t].stage.Permitted?;
    q := RaisedAt(a + 1, i, on);
    assert !on(q) && on(q + 1);
    assert NextAt(h, q) && InFlight(h.states[q], t, job, p);
    StagesFit(h, q, t);
    FindsNone(h.states[q], h.labels[q], t);
  }

  lemma FindsNone(s: Sys, l: Label, t: ReqId)
    requires Can(s, l) && t in s.reqs && s.reqs[t].job.StartTotpJob? && StageFits(s.reqs[t])
    requires !s.reqs[t].stage.Permitted?
    requires t in Do(s, l).reqs && Do(s, l).reqs[t].stage.Permitted?
    ensures l == ReadTotp(t) && !TotpOn(s.state, s.reqs[t].p.user)
  {
    hide Do, Can, HasPrimary, ValidCode, Live, MayLoad, CredentialsOf, Unused, Free, CodesOf;
    OwnStage(s, l, t);
  }

  /** A credential comes only by a registration of its own user, with a new handle; which
      ceremony that rests on is CeremonyServesItsOwner. */
  lemma CredentialComes(h: History, i: nat, row: Id)
    requires IsHistory(h) && i < |h.labels| && |h.states| == |h.labels| + 1
    requires row !in h.states[i].state.credentials && row in h.states[i + 1].state.credentials
    ensures
      var s, l, c := h.states[i], h.labels[i], h.states[i + 1].state.credentials[row];
      && l.Insert? && l.row == row && l.t in s.reqs && s.reqs[l.t].p.user == c.user && s.reqs[l.t].job.RegisterJob?
      && forall o :: o in s.state.credentials ==> s.state.credentials[o].handle != c.handle
  {
    hide Can, Do, After, Enabled, CanDo, Initial, Tables;
    assert NextAt(h, i);
    var s, l := h.states[i], h.labels[i];
    if l.World? {
      WorldDoes(s, l);
      WorldFactorRows(s.state, l.e);
    } else if l.Arrive? || l.Abandon? {
      OthersTables(s, l);
    } else {
      OwnTables(s, l);
      OwnFactorRows(s.state, l, s.reqs[l.t]);
      InsertIsNew(s, l, s.reqs[l.t]);
    }
  }

  lemma InsertIsNew(s: Sys, l: Label, r: Req)
    requires !l.World? && !l.Arrive? && !l.Abandon? && CanDo(s, l, r)
    ensures l.Insert? ==>
              && r.job.RegisterJob? && l.credential.user == r.p.user
              && forall o :: o in s.state.credentials ==> s.state.credentials[o].handle != l.credential.handle
  {
    hide CodesOf, Unused, Free, HasPrimary, ValidCode;
  }

  /** An assertion is accepted and a credential added only after the request had loaded the user
      (step `d`), who was active and enrolled; a ceremony is begun only after that, and for a
      sign-in only if the user had a credential. */
  lemma UserWasLoaded(h: History, i: nat) returns (d: nat)
    requires IsHistory(h) && i < |h.labels| && |h.states| == |h.labels| + 1
    requires h.labels[i].Insert? || h.labels[i].Note? || h.labels[i].Store?
    requires h.labels[i].t in h.states[i].reqs
    requires h.labels[i].Store? ==> h.states[i].reqs[h.labels[i].t].job.StartKeyJob?
    ensures d < i && h.labels[d] == Load(h.labels[i].t)
    ensures
      var r, st := h.states[i].reqs[h.labels[i].t], h.states[d].state;
      && r.p.user in st.users && st.users[r.p.user].active
      && ((r.job.StartKeyJob? && r.job.kind != SignIn) || r.p.user in st.enrolled)
      && (r.job.StartKeyJob? && r.job.kind == SignIn ==>
            exists c :: c in st.credentials && st.credentials[c].user == r.p.user)
  {
    hide Can, Do, Initial, Who, CanDo, CredentialsOf, MayLoad;
    assert NextAt(h, i);
    var t := h.labels[i].t;
    NeedsLoad(h.states[i], h.labels[i]);
    var job, p := h.states[i].reqs[t].job, h.states[i].reqs[t].p;
    var a := WhereArrived(h, i, t);
    assert NextAt(h, a);
    ArrivalIsFresh(h.states[a], h.labels[a]);
    var on := (n: nat) =>
      n < |h.states| && t in h.states[n].reqs
      && (h.states[n].reqs[t].stage.Loaded? || h.states[n].reqs[t].stage.Permitted?);
    d := RaisedAt(a + 1, i, on);
    assert !on(d) && on(d + 1);
    assert NextAt(h, d) && InFlight(h.states[d], t, job, p);
    StagesFit(h, d, t);
    Loads(h.states[d], h.labels[d], t);
    LoadedFacts(h.states[d].state, p.user);
  }

  lemma NeedsLoad(s: Sys, l: Label)
    requires Can(s, l) && (l.Insert? || l.Note? || l.Store?)
    requires l.t in s.reqs && (l.Store? ==> s.reqs[l.t].job.StartKeyJob?)
    ensures s.reqs[l.t].stage.Loaded? || s.reqs[l.t].stage.Permitted?
    ensures l.Insert? ==> s.reqs[l.t].job.RegisterJob?
    ensures l.Note? ==> s.reqs[l.t].job.AssertJob?
  {
    hide CredentialsOf;
  }

  lemma Loads(s: Sys, l: Label, t: ReqId)
    requires Can(s, l) && t in s.reqs && t in Do(s, l).reqs
    requires s.reqs[t].job.RegisterJob? || s.reqs[t].job.AssertJob? || s.reqs[t].job.StartKeyJob?
    requires !s.reqs[t].stage.Loaded? && !s.reqs[t].stage.Permitted? && StageFits(s.reqs[t])
    requires Do(s, l).reqs[t].stage.Loaded? || Do(s, l).reqs[t].stage.Permitted?
    ensures l == Load(t)
    ensures
      var u, job := s.reqs[t].p.user, s.reqs[t].job;
      if job.StartKeyJob? && !job.kind.SignIn? then u in s.state.users && s.state.users[u].active
      else MayLoad(s.state, u) && (job.StartKeyJob? ==> CredentialsOf(s.state, u) != {})
  {
    hide Do, Can, HasPrimary, ValidCode, Live, MayLoad, CredentialsOf, Unused, Free, CodesOf, TotpOn;
    OwnStage(s, l, t);
  }

  lemma LoadedFacts(st: State, u: Id)
    ensures MayLoad(st, u) ==> u in st.users && st.users[u].active && u in st.enrolled
    ensures CredentialsOf(st, u) != {} ==> exists c :: c in st.credentials && st.credentials[c].user == u
  {
    if c :| c in CredentialsOf(st, u) {
      assert c in st.credentials && st.credentials[c].user == u;
    }
  }

  /** New recovery codes are ten; an enrolment brings none while an unused one is left; and none of
      them takes the place of a row that stays. */
  lemma NewCodesAreTen(h: History, i: nat)
    requires IsHistory(h) && i < |h.labels| && |h.states| == |h.labels| + 1
    requires h.labels[i].Enrol? || h.labels[i].CommitCodes?
    ensures h.labels[i].t in h.states[i].reqs
    ensures
      var l, st, u := h.labels[i], h.states[i].state, h.states[i].reqs[h.labels[i].t].p.user;
      && |l.issued| ==
           (if l.Enrol? && u in st.codes && (exists d :: d in st.codes[u] && !st.codes[u][d]) then 0 else 10)
      && (l.Enrol? && u in st.codes ==> forall d :: d in l.issued ==> d !in st.codes[u])
  {
    hide Do, Initial;
    assert NextAt(h, i);
    var st, u := h.states[i].state, h.states[i].reqs[h.labels[i].t].p.user;
    forall d | u in st.codes && d in st.codes[u] && !st.codes[u][d] ensures d in Unused(st, u) {
    }
    if d :| d in Unused(st, u) {
      assert u in st.codes && d in st.codes[u] && !st.codes[u][d];
    }
  }

  // ----- Removals and the policy -----

  /** A removal follows two reads of its own: of the rules (step `q`), and, where one bound the user,
      of the factors (step `n`), when another one was there besides the one to go. */
  lemma RemovalKeepsPolicy(h: History, i: nat) returns (q: nat, n: nat)
    requires IsHistory(h) && i < |h.labels| && |h.states| == |h.labels| + 1 && h.labels[i].Remove?
    ensures q < n < i && h.labels[i].t in h.states[i].reqs
    ensures h.labels[q] == ReadPolicy(h.labels[i].t) && h.labels[n] == CountFactors(h.labels[i].t)
    ensures
      var r, rules, seen := h.states[i].reqs[h.labels[i].t], h.states[q].state.policy, h.states[n].state;
      var u := r.p.user;
      && (r.job == DropTotpJob || r.job.DropKeyJob?)
      && (rules.everyone || (exists g :: g in rules.groups && (g, u) in rules.members) ==>
            if r.job == DropTotpJob then exists c :: c in seen.credentials && seen.credentials[c].user == u
            else || (u in seen.totp && seen.totp[u].active)
                 || |set c | c in seen.credentials && seen.credentials[c].user == u| > 1)
  {
    hide Do, Initial, Who, HasPrimary, CanDo, CredentialsOf, Required;
    assert NextAt(h, i);
    var t := h.labels[i].t;
    RemovalIsPermitted(h.states[i], h.labels[i]);
    var p, required := h.states[i].reqs[t].p, false;
    q, n, required := WherePermitted(h, i, t);
    SeenFactors(h.states[n].state, p.user);
    SeenRules(h.states[q].state, h.states[n].state, p.user);
  }

  /** Where a removal read the rules, and where it counted the factors. */
  lemma WherePermitted(h: History, i: nat, t: ReqId) returns (q: nat, n: nat, required: bool)
    requires IsHistory(h) && i < |h.states| && t in h.states[i].reqs && h.states[i].reqs[t].stage.Permitted?
    requires h.states[i].reqs[t].job.DropTotpJob? || h.states[i].reqs[t].job.DropKeyJob?
    ensures q < n < i && i <= |h.labels| && h.labels[q] == ReadPolicy(t) && h.labels[n] == CountFactors(t)
    ensures
      var r, seen := h.states[i].reqs[t], h.states[n].state;
      && required == Required(h.states[q].state.policy, r.p.user, None)
      && (required ==>
            if r.job.DropTotpJob? then CredentialsOf(seen, r.p.user) != {}
            else TotpOn(seen, r.p.user) || |CredentialsOf(seen, r.p.user)| > 1)
  {
    hide Can, Do, Initial, Who, CredentialsOf, TotpOn, Required;
    var job, p := h.states[i].reqs[t].job, h.states[i].reqs[t].p;
    var a := WhereArrived(h, i, t);
    assert NextAt(h, a);
    ArrivalIsFresh(h.states[a], h.labels[a]);
    var on := (m: nat) => m < |h.states| && t in h.states[m].reqs && h.states[m].reqs[t].stage.Permitted?;
    n := RaisedAt(a + 1, i, on);
    assert !on(n) && on(n + 1);
    assert NextAt(h, n) && InFlight(h.states[n], t, job, p);
    BecomesPermitted(h.states[n], h.labels[n], t);
    required := h.states[n].reqs[t].stage.required;
    q := WherePolicyRead(h, a + 1, n, t, job, p, required);
  }

  lemma WherePolicyRead(h: History, from: nat, n: nat, t: ReqId, job: Job, p: Principal, required: bool)
      returns (q: nat)
    requires IsHistory(h) && from <= n < |h.states| && SameRequest(h, from, n, t, job, p)
    requires h.states[from].reqs[t].stage.Arrived? && h.states[n].reqs[t].stage == PolicyRead(required)
    ensures from <= q < n && h.labels[q] == ReadPolicy(t)
    ensures required == Required(h.states[q].state.policy, p.user, None)
  {
    hide Can, Do, Initial, Required;
    assert InFlight(h.states[from], t, job, p) && InFlight(h.states[n], t, job, p);
    var on := (m: nat) =>
      m < |h.states| && t in h.states[m].reqs && h.states[m].reqs[t].stage == PolicyRead(required);
    q := RaisedAt(from, n, on);
    assert !on(q) && on(q + 1);
    assert NextAt(h, q) && InFlight(h.states[q], t, job, p);
    BecomesPolicyRead(h.states[q], h.labels[q], t, required);
  }

  lemma SeenRules(rules: State, st: State, u: Id)
    ensures Required(rules.policy, u, None) <==>
              rules.policy.everyone || exists g :: g in rules.policy.groups && (g, u) in rules.policy.members
    ensures CredentialsOf(st, u) == set c | c in st.credentials && st.credentials[c].user == u
    ensures CredentialsOf(st, u) != {} ==> exists c :: c in st.credentials && st.credentials[c].user == u
  {
    if c :| c in CredentialsOf(st, u) {
      assert c in st.credentials && st.credentials[c].user == u;
    }
  }

  lemma RemovalIsPermitted(s: Sys, l: Label)
    requires Can(s, l) && l.Remove?
    ensures l.t in s.reqs && s.reqs[l.t].stage.Permitted?
    ensures s.reqs[l.t].job.DropTotpJob? || s.reqs[l.t].job.DropKeyJob?
  {
    hide CredentialsOf;
  }

  lemma BecomesPermitted(s: Sys, l: Label, t: ReqId)
    requires Can(s, l) && t in s.reqs && (s.reqs[t].job.DropTotpJob? || s.reqs[t].job.DropKeyJob?)
    requires !s.reqs[t].stage.Permitted? && t in Do(s, l).reqs && Do(s, l).reqs[t].stage.Permitted?
    ensures l == CountFactors(t) && s.reqs[t].stage.PolicyRead?
    ensures s.reqs[t].stage.required ==>
              var st, u := s.state, s.reqs[t].p.user;
              if s.reqs[t].job.DropTotpJob? then CredentialsOf(st, u) != {}
              else TotpOn(st, u) || |CredentialsOf(st, u)| > 1
  {
    hide Do, Can, HasPrimary, ValidCode, Live, MayLoad, CredentialsOf, Unused, TotpOn, Free, CodesOf;
    OwnStage(s, l, t);
  }

  lemma BecomesPolicyRead(s: Sys, l: Label, t: ReqId, required: bool)
    requires Can(s, l) && t in s.reqs && s.reqs[t].stage != PolicyRead(required)
    requires t in Do(s, l).reqs && Do(s, l).reqs[t].stage == PolicyRead(required)
    ensures l == ReadPolicy(t) && required == Required(s.state.policy, s.reqs[t].p.user, None)
  {
    hide Do, Can, HasPrimary, ValidCode, Live, MayLoad, CredentialsOf, Unused, TotpOn, Free, CodesOf, Required;
    OwnStage(s, l, t);
  }

  // ----- Marks and recovery codes -----

  /** What a mark on a session rests on, in its own request: a code of the active TOTP secret, an
      unused recovery code that it spends, or one of the user's credentials; or, for an
      enrolment, factors read at step `q` of which there was none, unless the session was
      verified on arrival. */
  lemma MarkRests(h: History, i: nat) returns (a: nat, q: nat)
    requires IsHistory(h) && i < |h.labels| && |h.states| == |h.labels| + 1 && h.labels[i].SetMark?
    ensures a < q < i && h.labels[i].t in h.states[i].reqs
    ensures
      var t, r := h.labels[i].t, h.states[i].reqs[h.labels[i].t];
      var k, u, on := r.p.session, r.p.user, h.states[i].state.sessions;
      && h.labels[a] == Arrive(t, k, r.job)
      && k in on && on[k].user == u && !on[k].revoked && h.states[i].state.now < on[k].expires
      && (r.job.TotpJob? || r.job.RecoveryJob? || r.job.AssertJob? || r.job.ConfirmJob? || r.job.RegisterJob?)
    ensures
      var t, st, was := h.labels[i].t, h.states[q].state, h.states[a].state.sessions;
      var r := h.states[i].reqs[t];
      var k, u := r.p.session, r.p.user;
      && k in was && was[k].user == u
      && (r.job.TotpJob? ==>
            && h.labels[q] == ReadTotp(t) && u in st.totp && st.totp[u].active
            && st.totpValid(st.totp[u].secret, r.job.code, st.now))
      && (r.job.RecoveryJob? ==>
            && h.labels[q] == CommitSpent(t)
            && u in st.codes && r.job.digest in st.codes[u] && !st.codes[u][r.job.digest]
            && h.states[q + 1].state.codes == st.codes[u := st.codes[u][r.job.digest := true]])
      && (r.job.AssertJob? ==>
            && h.labels[q].Note? && h.labels[q].t == t
            && h.labels[q].row in st.credentials && st.credentials[h.labels[q].row].user == u)
      && (r.job.ConfirmJob? || r.job.RegisterJob? ==>
            && h.labels[q] == Guard(t)
            && (u in st.totp && st.totp[u].active ==> was[k].mfaVerified)
            && ((exists c :: c in st.credentials && st.credentials[c].user == u) ==> was[k].mfaVerified))
  {
    hide Can, Do, Initial, PrincipalOf, HasPrimary, CodesOf;
    a, q := MarkIsEarned(h, i);
    assert NextAt(h, i) && NextAt(h, q);
    var t, r := h.labels[i].t, h.states[i].reqs[h.labels[i].t];
    MarksLive(h.states[i], h.labels[i]);
    JobOfMark(h, i);
    assert InFlight(h.states[q], t, r.job, r.p);
    LivePrincipal(h.states[a].state, r.p.session);
    SeenFactors(h.states[q].state, r.p.user);
    SpentRow(h.states[q], h.labels[q]);
  }

  lemma SpentRow(s: Sys, l: Label)
    requires Can(s, l)
    ensures
      l.CommitSpent? && l.t in s.reqs && s.reqs[l.t].job.RecoveryJob?
      && s.reqs[l.t].job.digest in Unused(s.state, s.reqs[l.t].p.user) ==>
        var u, d := s.reqs[l.t].p.user, s.reqs[l.t].job.digest;
        && u in s.state.codes && d in s.state.codes[u] && !s.state.codes[u][d]
        && Do(s, l).state.codes == s.state.codes[u := s.state.codes[u][d := true]]
  {
    hide CanDo, Onward, Locks, Enabled, After, Who;
  }

  /** A recovery code is spent (step `i`) only after it was issued to the same user (step `k`). */
  lemma SpentCodeWasIssued(h: History, i: nat) returns (k: nat)
    requires IsHistory(h) && i < |h.labels| && |h.states| == |h.labels| + 1
    requires h.labels[i].CommitSpent? && h.labels[i].t in h.states[i].reqs
    requires h.states[i].reqs[h.labels[i].t].job.RecoveryJob?
    ensures k < i && (h.labels[k].Enrol? || h.labels[k].CommitCodes?) && h.labels[k].t in h.states[k].reqs
    ensures
      var r, o := h.states[i].reqs[h.labels[i].t], h.states[k].reqs[h.labels[k].t];
      && o.p.user == r.p.user && r.job.digest in h.labels[k].issued
      && forall m :: k < m < i ==>
           && h.labels[m] != World(Reset(r.p.user))
           && !(&& h.labels[m].CommitSpent? && h.labels[m].t in h.states[m].reqs
                && h.states[m].reqs[h.labels[m].t].p.user == r.p.user
                && h.states[m].reqs[h.labels[m].t].job == RecoveryJob(r.job.digest))
  {
    hide Can, Do, Initial;
    k := Assurance.RecoveryCodesWorkOnce(h, i);
    var r := h.states[i].reqs[h.labels[i].t];
    forall m | k < m < i
      ensures h.labels[m] != World(Reset(r.p.user))
      ensures !(&& h.labels[m].CommitSpent? && h.labels[m].t in h.states[m].reqs
                && h.states[m].reqs[h.labels[m].t].p.user == r.p.user
                && h.states[m].reqs[h.labels[m].t].job == RecoveryJob(r.job.digest))
    {
      assert !Assurance.Cancels(h.states[m], h.labels[m], r.p.user, r.job.digest);
    }
  }
}
