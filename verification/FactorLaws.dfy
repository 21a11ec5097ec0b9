/**
  The laws of second factors said outright: every statement here is about rows of the tables
  and arguments of a request, with no predicate of the model in between. `e` is the step taken
  in state `s` of a run and `t` the state it leaves.
 */
module FactorLaws {
  import opened Accounts
  import opened Mfa

  lemma StepIsEnabled(r: Run, k: nat)
    requires IsRun(r) && k < |r.steps|
    ensures |r.states| == |r.steps| + 1
    ensures Enabled(r.states[k], r.steps[k]) && r.states[k + 1] == After(r.states[k], r.steps[k])
  {
    assert StepAt(r, k);
  }

  /** A step of self-service is taken through a live session of its user; allowMFAMutation asks
      for the second factor unless there is none. */
  lemma Inside(s: State, e: Step) returns (u: Id)
    requires Enabled(s, e) && By(e).Some?
    ensures e.h in s.sessions && s.sessions[e.h].user == u && !s.sessions[e.h].revoked
    ensures s.now < s.sessions[e.h].expires && u in s.users && s.users[u].active
    ensures MayMutate(s, e.h) <==>
              || s.sessions[e.h].mfaVerified
              || (&& (u in s.totp ==> !s.totp[u].active)
                  && forall c :: c in s.credentials ==> s.credentials[c].user != u)
    ensures Verified(s, e.h) <==> s.sessions[e.h].mfaVerified
    ensures EnabledFor(s, e, u) && After(s, e) == AfterBy(s, e, u)
  {
    hide EnabledFor, AfterBy;
    u := Who(s, e.h).value.user;
    forall c | c in s.credentials && s.credentials[c].user == u ensures c in CredentialsOf(s, u) {
    }
  }

  /** Any other step. */
  lemma Outside(s: State, e: Step)
    requires Enabled(s, e) && By(e).None?
    ensures e.Login? ==> e.h !in s.sessions && e.u in s.users && s.users[e.u].active
    ensures e.Reset? ==> After(s, e) == Cleared(s, e.u)
    ensures !e.Reset? ==>
              && var t := After(s, e);
              && t.totp == s.totp && t.credentials == s.credentials && t.codes == s.codes
              && t.ceremonies == s.ceremonies && t.enrolled == s.enrolled
              && t.sessions == match e
                               case Login(h, u, expires) => s.sessions[h := Session(u, expires, false, false)]
                               case EndSessions(ended) => End(s.sessions, ended)
                               case _ => s.sessions
  {
    hide End, Cleared;
  }

  /** An active TOTP secret stays as it is, until an administrator resets the user or the user
      removes it through a live session that has passed the second factor; and while a global
      or group rule binds the user only if a credential remains. */
  lemma TotpGoes(r: Run, k: nat, u: Id)
    requires IsRun(r) && |r.states| == |r.steps| + 1 && k < |r.steps|
    requires u in r.states[k].totp && r.states[k].totp[u].active
    requires u in r.states[k + 1].totp ==> r.states[k + 1].totp[u] != r.states[k].totp[u]
    ensures u !in r.states[k + 1].totp
    ensures
      var s, e := r.states[k], r.steps[k];
      || e == Reset(u)
      || (&& e.DisableTotp? && e.h in s.sessions && s.sessions[e.h].user == u
          && !s.sessions[e.h].revoked && s.now < s.sessions[e.h].expires && u in s.users && s.users[u].active
          && s.sessions[e.h].mfaVerified
          && (s.policy.everyone ==> exists c :: c in s.credentials && s.credentials[c].user == u)
          && forall g :: g in s.policy.groups && (g, u) in s.policy.members ==>
               exists c :: c in s.credentials && s.credentials[c].user == u)
  {
    hide IsRun, After, Enabled, PrincipalOf, MayMutate, Verified, Mark, End, SessionsOf, Issue;
    hide Unused, ValidCode, Removable, Registers;
    StepIsEnabled(r, k);
    var s, e := r.states[k], r.steps[k];
    if By(e).Some? {
      var v := Inside(s, e);
    } else {
      Outside(s, e);
    }
    forall c | c in CredentialsOf(s, u) ensures c in s.credentials && s.credentials[c].user == u {
    }
  }

  /** So does a credential; here the TOTP secret or another credential must remain. */
  lemma CredentialGoes(r: Run, k: nat, row: Id)
    requires IsRun(r) && |r.states| == |r.steps| + 1 && k < |r.steps|
    requires row in r.states[k].credentials
    requires row in r.states[k + 1].credentials ==> r.states[k + 1].credentials[row] != r.states[k].credentials[row]
    ensures row !in r.states[k + 1].credentials
    ensures
      var s, e, u := r.states[k], r.steps[k], r.states[k].credentials[row].user;
      || e == Reset(u)
      || (&& e.DeleteCredential? && e.row == row && e.h in s.sessions && s.sessions[e.h].user == u
          && !s.sessions[e.h].revoked && s.now < s.sessions[e.h].expires && u in s.users && s.users[u].active
          && s.sessions[e.h].mfaVerified
          && (|| (u in s.totp && s.totp[u].active)
              || (exists c :: c in s.credentials && s.credentials[c].user == u && c != row)
              || (!s.policy.everyone && forall g :: g in s.policy.groups ==> (g, u) !in s.policy.members)))
  {
    hide IsRun, After, Enabled, PrincipalOf, MayMutate, Verified, Mark, End, SessionsOf, Issue;
    hide Unused, ValidCode, CodesOf;
    StepIsEnabled(r, k);
    var s, e := r.states[k], r.steps[k];
    if By(e).Some? {
      var v := Inside(s, e);
    } else {
      Outside(s, e);
    }
    var u := s.credentials[row].user;
    if |CredentialsOf(s, u)| > 1 {
      Another(CredentialsOf(s, u), row);
    }
  }

  lemma Another(rows: set<Id>, row: Id)
    requires |rows| > 1
    ensures exists c :: c in rows && c != row
  {
    if forall c :: c in rows ==> c == row {
      assert rows <= {row};
      SubsetSize(rows, {row});
    }
  }

  /** A TOTP secret comes through a live session of its user that has passed the second factor,
      unless the user had no factor: first pending, never over an active one, and active only
      with a code of that very secret. */
  lemma TotpComes(r: Run, k: nat, u: Id)
    requires IsRun(r) && |r.states| == |r.steps| + 1 && k < |r.steps|
    requires u in r.states[k + 1].totp
    requires u in r.states[k].totp ==> r.states[k + 1].totp[u] != r.states[k].totp[u]
    ensures
      var s, e := r.states[k], r.steps[k];
      && (e.BeginTotp? || e.ConfirmTotp?)
      && e.h in s.sessions && s.sessions[e.h].user == u
      && !s.sessions[e.h].revoked && s.now < s.sessions[e.h].expires && u in s.users && s.users[u].active
      && (s.sessions[e.h].mfaVerified || forall c :: c in s.credentials ==> s.credentials[c].user != u)
      && (u in s.totp ==> !s.totp[u].active)
    ensures
      var s, e, t := r.states[k], r.steps[k], r.states[k + 1];
      if t.totp[u].active
      then e.ConfirmTotp? && u in s.totp && t.totp[u].secret == s.totp[u].secret
           && s.totpValid(s.totp[u].secret, e.code, s.now)
      else e.BeginTotp? && t.totp[u].secret == e.secret
  {
    hide IsRun, After, Enabled, PrincipalOf, MayMutate, Verified, Mark, End, SessionsOf, Issue;
    hide Unused, CodesOf, Removable, Registers, Required, CredentialsOf;
    StepIsEnabled(r, k);
    var s, e := r.states[k], r.steps[k];
    if By(e).Some? {
      var v := Inside(s, e);
    } else {
      Outside(s, e);
    }
  }

  /** A credential comes through such a session too, at the end of a registration ceremony that
      the same user began and that is used up by it; its handle is new. */
  lemma CredentialComes(r: Run, k: nat, row: Id)
    requires IsRun(r) && |r.states| == |r.steps| + 1 && k < |r.steps|
    requires row !in r.states[k].credentials && row in r.states[k + 1].credentials
    ensures
      var s, e, t := r.states[k], r.steps[k], r.states[k + 1];
      var u := t.credentials[row].user;
      && e.FinishRegistration? && e.h in s.sessions && s.sessions[e.h].user == u
      && !s.sessions[e.h].revoked && s.now < s.sessions[e.h].expires && u in s.users && s.users[u].active
      && (s.sessions[e.h].mfaVerified
          || (&& (u in s.totp ==> !s.totp[u].active)
              && forall c :: c in s.credentials ==> s.credentials[c].user != u))
      && e.c in s.ceremonies && e.c !in t.ceremonies && s.now < s.ceremonies[e.c].expires
      && s.ceremonies[e.c].user == u && s.ceremonies[e.c].kind != SignIn
      && forall c :: c in s.credentials ==> s.credentials[c].handle != t.credentials[row].handle
  {
    hide IsRun, After, Enabled, PrincipalOf, MayMutate, Verified, Mark, End, SessionsOf, Issue;
    hide Unused, CodesOf, Removable, Required, CredentialsOf, ValidCode;
    StepIsEnabled(r, k);
    var s, e := r.states[k], r.steps[k];
    if By(e).Some? {
      var v := Inside(s, e);
    } else {
      Outside(s, e);
    }
  }

  /** Every mark on a session is made through that live session, by its own user: with a code of
      the active TOTP secret, with an unused recovery code, with one of the user's credentials
      in a sign-in ceremony, or by enrolling a factor when there was none. */
  lemma SessionIsMarked(r: Run, k: nat, h: Hash)
    requires IsRun(r) && |r.states| == |r.steps| + 1 && k < |r.steps|
    requires h in r.states[k + 1].sessions && r.states[k + 1].sessions[h].mfaVerified
    requires h in r.states[k].sessions ==> !r.states[k].sessions[h].mfaVerified
    ensures
      var s, e, t := r.states[k], r.steps[k], r.states[k + 1];
      && h in s.sessions && !s.sessions[h].revoked && s.now < s.sessions[h].expires
      && var u := s.sessions[h].user;
      && u in s.users && s.users[u].active
      && match e
         case VerifyTotp(via, code, _) =>
           via == h && u in s.totp && s.totp[u].active && s.totpValid(s.totp[u].secret, code, s.now)
         case UseRecovery(via, digest, _) =>
           && via == h && u in s.codes && digest in s.codes[u] && !s.codes[u][digest]
           && t.codes == s.codes[u := s.codes[u][digest := true]]
         case FinishLogin(via, c, used, _) =>
           && via == h && c in s.ceremonies && c !in t.ceremonies && s.now < s.ceremonies[c].expires
           && s.ceremonies[c].user == u && s.ceremonies[c].kind == SignIn
           && used.Some? && used.value in s.credentials && s.credentials[used.value].user == u
         case ConfirmTotp(via, _, _, _) =>
           && via == h && u in t.totp && t.totp[u].active && (u in s.totp ==> !s.totp[u].active)
           && forall c :: c in s.credentials ==> s.credentials[c].user != u
         case FinishRegistration(via, _, result) =>
           && via == h && result.Added? && result.row in t.credentials && t.credentials[result.row].user == u
           && (u in s.totp ==> !s.totp[u].active)
           && forall c :: c in s.credentials ==> s.credentials[c].user != u
         case _ => false
  {
    hide IsRun, After, Enabled, PrincipalOf, MayMutate, Issue, Removable, Required;
    StepIsEnabled(r, k);
    var s, e := r.states[k], r.steps[k];
    if By(e).Some? {
      var v := Inside(s, e);
    } else {
      Outside(s, e);
    }
  }

  /** The recovery codes of a user change only with a reset, by spending one unused code, or by
      ten new ones; and those come through a live session of the user that has passed the
      second factor, unless the user had none. Enrolment gives new codes only to a user who
      has no unused one left. */
  lemma CodesChange(r: Run, k: nat, u: Id)
    requires IsRun(r) && |r.states| == |r.steps| + 1 && k < |r.steps|
    requires u in r.states[k].codes || u in r.states[k + 1].codes
    requires u in r.states[k].codes && u in r.states[k + 1].codes ==> r.states[k].codes[u] != r.states[k + 1].codes[u]
    ensures
      var s, e, t := r.states[k], r.steps[k], r.states[k + 1];
      if e == Reset(u) then u !in t.codes
      else
        && (e.UseRecovery? || e.Regenerate? || e.ConfirmTotp? || e.FinishRegistration?)
        && e.h in s.sessions && s.sessions[e.h].user == u
        && !s.sessions[e.h].revoked && s.now < s.sessions[e.h].expires && u in s.users && s.users[u].active
        && u in t.codes
        && if e.UseRecovery?
           then && u in s.codes && e.digest in s.codes[u] && !s.codes[u][e.digest]
                && t.codes[u] == s.codes[u][e.digest := true]
           else && |set d | d in t.codes[u] && !t.codes[u][d]| == 10
                && (e.Regenerate? ==> s.sessions[e.h].mfaVerified && t.codes[u].Keys == e.issued)
                && (!e.Regenerate? && u in s.codes ==> forall d :: d in s.codes[u] ==> s.codes[u][d])
                && (|| s.sessions[e.h].mfaVerified
                    || (&& (u in s.totp ==> !s.totp[u].active)
                        && forall c :: c in s.credentials ==> s.credentials[c].user != u))
  {
    hide IsRun, After, Enabled, PrincipalOf, MayMutate, Verified, EnabledFor, AfterBy, End, SessionsOf, CredentialsOf;
    StepIsEnabled(r, k);
    var s, e, t := r.states[k], r.steps[k], r.states[k + 1];
    if By(e).Some? {
      var v := Inside(s, e);
      if v != u {
        OthersCodes(s, e, v, u);
        assert false;
      }
      NewCodes(s, e, u);
      forall d | u in s.codes && d in s.codes[u] && !s.codes[u][d] ensures d in UnusedIn(s.codes[u]) {
      }
      assert UnusedIn(t.codes[u]) == set d | d in t.codes[u] && !t.codes[u][d];
    } else {
      Outside(s, e);
    }
  }

  /** What the three kinds of issue leave. */
  lemma IssuedCodes(s: State, e: Step, u: Id)
    ensures e.ConfirmTotp? ==>
              && (e.issued == {} && u in s.codes ==> Issue(CodesOf(s, u), e.issued) == s.codes[u])
              && UnusedIn(Issue(CodesOf(s, u), e.issued)) == Unused(s, u) + e.issued
    ensures e.Regenerate? ==>
              UnusedIn(Issue(map[], e.issued)) == e.issued && Issue(map[], e.issued).Keys == e.issued
    ensures e.FinishRegistration? && e.result.Added? && e.result.issued.Some? ==>
              UnusedIn(Issue(map[], e.result.issued.value)) == e.result.issued.value
    ensures u !in s.codes ==> Unused(s, u) == {}
  {
  }

  lemma OthersCodes(s: State, e: Step, v: Id, u: Id)
    requires By(e).Some? && v != u
    ensures u in AfterBy(s, e, v).codes <==> u in s.codes
    ensures u in s.codes ==> AfterBy(s, e, v).codes[u] == s.codes[u]
  {
    hide Mark, Issue, CodesOf;
  }

  lemma NewCodes(s: State, e: Step, u: Id)
    requires By(e).Some? && EnabledFor(s, e, u)
    requires AfterBy(s, e, u).codes != s.codes
    ensures u in AfterBy(s, e, u).codes && (e.UseRecovery? || e.Regenerate? || e.ConfirmTotp? || e.FinishRegistration?)
    ensures
      var after := AfterBy(s, e, u).codes[u];
      if e.UseRecovery? then u in s.codes && e.digest in UnusedIn(s.codes[u]) && after == s.codes[u][e.digest := true]
      else
        && |UnusedIn(after)| == 10
        && (if e.Regenerate? then Verified(s, e.h) && after.Keys == e.issued
            else MayMutate(s, e.h) && (u in s.codes ==> UnusedIn(s.codes[u]) == {}))
  {
    hide Mark, Issue, UnusedIn, MayMutate, Verified, ValidCode, HasPrimary;
    IssuedCodes(s, e, u);
    if u in s.codes {
      assert s.codes[u := s.codes[u]] == s.codes;
    }
  }

  /** Session rows: made by a login that is not verified, with user and expiry fixed; marks and
      revocations stay; revoked by name or by a reset of the user, which leaves nothing. */
  lemma SessionRows(r: Run, k: nat, h: Hash)
    requires IsRun(r) && |r.states| == |r.steps| + 1 && k < |r.steps|
    ensures
      var s, e, t := r.states[k], r.steps[k], r.states[k + 1];
      && (h in s.sessions ==>
            && h in t.sessions
            && t.sessions[h].user == s.sessions[h].user && t.sessions[h].expires == s.sessions[h].expires
            && (s.sessions[h].mfaVerified ==> t.sessions[h].mfaVerified)
            && (t.sessions[h].revoked <==>
                  s.sessions[h].revoked || (e.EndSessions? && h in e.ended) || e == Reset(s.sessions[h].user)))
      && (h !in s.sessions && h in t.sessions ==>
            && e.Login? && e.h == h && e.u in s.users && s.users[e.u].active
            && t.sessions[h] == Session(e.u, e.expires, false, false))
      && (e.Reset? ==>
            && e.u !in t.totp && e.u !in t.codes && e.u !in t.enrolled
            && forall c :: c in t.credentials ==> t.credentials[c].user != e.u)
  {
    hide IsRun, After, Enabled, PrincipalOf, MayMutate, Verified, Issue;
    hide Removable, Required, ValidCode, EnabledFor, CodesOf;
    StepIsEnabled(r, k);
    var s, e := r.states[k], r.steps[k];
    if By(e).Some? {
      var v := Inside(s, e);
    } else {
      Outside(s, e);
    }
  }

  /** Ceremonies: begun by a live session for its own user, for five minutes; for a sign-in by a
      user with a credential, for a registration through a session that has passed the second
      factor unless there is none; and used up by whoever finishes them. */
  lemma CeremonyRows(r: Run, k: nat, c: Hash)
    requires IsRun(r) && |r.states| == |r.steps| + 1 && k < |r.steps|
    ensures
      var s, e, t := r.states[k], r.steps[k], r.states[k + 1];
      && (c in t.ceremonies && !(c in s.ceremonies && s.ceremonies[c] == t.ceremonies[c]) ==>
            && e.Begin? && e.c == c && e.h in s.sessions
            && !s.sessions[e.h].revoked && s.now < s.sessions[e.h].expires
            && var u := s.sessions[e.h].user;
            && u in s.users && s.users[u].active
            && t.ceremonies[c] == Ceremony(u, e.kind, s.now + 300_000_000)
            && if e.kind == SignIn
               then u in s.enrolled && exists row :: row in s.credentials && s.credentials[row].user == u
               else || s.sessions[e.h].mfaVerified
                    || (&& (u in s.totp ==> !s.totp[u].active)
                        && forall row :: row in s.credentials ==> s.credentials[row].user != u))
      && (c in s.ceremonies && c !in t.ceremonies ==> (e.FinishRegistration? || e.FinishLogin?) && e.c == c)
      && ((e.FinishRegistration? || e.FinishLogin?) && e.c == c ==>
            c in s.ceremonies && s.now < s.ceremonies[c].expires && c !in t.ceremonies)
  {
    hide IsRun, After, Enabled, PrincipalOf, MayMutate, Verified, Mark, End, SessionsOf, Issue;
    hide Removable, Required, ValidCode, CodesOf, Unused;
    StepIsEnabled(r, k);
    var s, e := r.states[k], r.steps[k];
    if By(e).Some? {
      var v := Inside(s, e);
    } else {
      Outside(s, e);
    }
  }

  // ----- What is open to whom -----

  /** The principal behind the protected pages: a live session that has passed the second factor
      or whose user neither the global rule nor a group's rule binds. */
  lemma AdmittedWhen(s: State, h: Hash)
    ensures Admitted(s, h).Some? <==>
              && h in s.sessions && !s.sessions[h].revoked && s.now < s.sessions[h].expires
              && s.sessions[h].user in s.users && s.users[s.sessions[h].user].active
              && (|| s.sessions[h].mfaVerified
                  || (&& !s.policy.everyone
                      && forall g :: g in s.policy.groups ==> (g, s.sessions[h].user) !in s.policy.members))
    ensures Admitted(s, h).Some? ==>
              Admitted(s, h).value == Principal(h, s.sessions[h].user, s.users[s.sessions[h].user].mustChangePassword,
                                                s.sessions[h].mfaVerified)
  {
  }

  /** What exactly a user can do through a live session: factors and codes change hands only
      after the second factor, or when there is none yet; each proof needs its own factor. */
  lemma WhatIsOpen(s: State, h: Hash, u: Id, e: Step)
    requires h in s.sessions && s.sessions[h].user == u && !s.sessions[h].revoked && s.now < s.sessions[h].expires
    requires u in s.users && s.users[u].active && By(e) == Some(h)
    ensures
      var totpOn := u in s.totp && s.totp[u].active;
      var keyed := exists c :: c in s.credentials && s.credentials[c].user == u;
      var strong := s.sessions[h].mfaVerified || (!totpOn && !keyed);
      var bound := s.policy.everyone || exists g :: g in s.policy.groups && (g, u) in s.policy.members;
      var left := u in s.codes && exists d :: d in s.codes[u] && !s.codes[u][d];
      Enabled(s, e) <==>
        match e
        case BeginTotp(_, _) => strong && !totpOn
        case ConfirmTotp(_, code, issued, _) =>
          && strong && u in s.totp && s.totpValid(s.totp[u].secret, code, s.now)
          && (u in s.codes ==> forall d :: d in issued ==> d !in s.codes[u])
          && |issued| == if left then 0 else 10
        case DisableTotp(_) => strong && u in s.totp && (bound ==> keyed)
        case Regenerate(_, issued) => s.sessions[h].mfaVerified && (totpOn || keyed) && |issued| == 10
        case Prepare(_) => strong
        case Begin(_, _, kind) => if kind == SignIn then u in s.enrolled && keyed else strong
        case FinishRegistration(_, c, result) =>
          && strong && c in s.ceremonies && s.now < s.ceremonies[c].expires
          && (result.Added? ==>
                && s.ceremonies[c].user == u && s.ceremonies[c].kind != SignIn && u in s.enrolled
                && result.row !in s.credentials && result.credential.user == u
                && (forall o :: o in s.credentials ==> s.credentials[o].handle != result.credential.handle)
                && (result.issued.Some? ==> |result.issued.value| == if left then 0 else 10)
                && (result.marked ==> result.issued.Some?))
        case DeleteCredential(_, row) =>
          && strong && row in s.credentials && s.credentials[row].user == u
          && (bound ==> totpOn || exists c :: c in s.credentials && s.credentials[c].user == u && c != row)
        case VerifyTotp(_, code, _) => totpOn && s.totpValid(s.totp[u].secret, code, s.now)
        case UseRecovery(_, digest, _) => u in s.codes && digest in s.codes[u] && !s.codes[u][digest]
        case FinishLogin(_, c, used, marked) =>
          && c in s.ceremonies && s.now < s.ceremonies[c].expires && (marked ==> used.Some?)
          && (used.Some? ==>
                && s.ceremonies[c].user == u && s.ceremonies[c].kind == SignIn && u in s.enrolled
                && used.value in s.credentials && s.credentials[used.value].user == u)
        case _ => false
  {
    hide After, MayMutate, CredentialsOf, Unused, Required;
    Facts(s, h, u);
    if e.DeleteCredential? && e.row in CredentialsOf(s, u) {
      OthersLeft(s, u, e.row);
    }
  }

  /** What such a step does to factors and ceremonies. */
  lemma FactorsAfter(s: State, h: Hash, u: Id, e: Step)
    requires Enabled(s, e) && By(e) == Some(h) && h in s.sessions && s.sessions[h].user == u
    ensures
      var t := After(s, e);
      && match e
         case BeginTotp(_, secret) => t == s.(totp := s.totp[u := Totp(secret, false)])
         case ConfirmTotp(_, _, _, _) => u in s.totp && t.totp == s.totp[u := Totp(s.totp[u].secret, true)]
         case DisableTotp(_) => t == s.(totp := s.totp - {u})
         case Prepare(_) => t == s.(enrolled := s.enrolled + {u})
         case Begin(_, c, kind) =>
           && t.ceremonies == s.ceremonies[c := Ceremony(u, kind, s.now + 300_000_000)]
           && t.enrolled == if kind == SignIn then s.enrolled else s.enrolled + {u}
         case FinishRegistration(_, c, result) =>
           && t.ceremonies == s.ceremonies - {c}
           && t.credentials == if result.Added? then s.credentials[result.row := result.credential] else s.credentials
         case DeleteCredential(_, row) => t == s.(credentials := s.credentials - {row})
         case FinishLogin(_, c, _, _) => t.ceremonies == s.ceremonies - {c}
         case _ => true
  {
    hide After, Enabled, MayMutate, PrincipalOf, Required, Removable, Registers, Mark, Issue, CodesOf;
    var v := Inside(s, e);
  }

  /** What it does to recovery codes and to the session. */
  lemma CodesAfter(s: State, h: Hash, u: Id, e: Step)
    requires Enabled(s, e) && By(e) == Some(h) && h in s.sessions && s.sessions[h].user == u
    ensures
      var t := After(s, e);
      && match e
         case ConfirmTotp(_, _, issued, _) =>
           && u in t.codes && (forall d :: d in issued ==> d in t.codes[u] && !t.codes[u][d])
           && (u in s.codes ==>
                 forall d :: d in s.codes[u] && d !in issued ==> d in t.codes[u] && t.codes[u][d] == s.codes[u][d])
         case Regenerate(_, issued) =>
           u in t.codes && t.codes[u].Keys == issued && forall d :: d in issued ==> !t.codes[u][d]
         case FinishRegistration(_, _, Added(_, _, Some(issued), _)) =>
           issued != {} ==> u in t.codes && t.codes[u].Keys == issued && forall d :: d in issued ==> !t.codes[u][d]
         case UseRecovery(_, digest, _) => u in s.codes && t.codes == s.codes[u := s.codes[u][digest := true]]
         case _ => t.codes == s.codes
  {
    hide After, Enabled, EnabledFor, MayMutate, PrincipalOf, Mark, Issue, CodesOf;
    var v := Inside(s, e);
    CodesNeed(s, e, u);
    match e {
      case ConfirmTotp(_, _, issued, _) => IssueRows(CodesOf(s, u), issued);
      case Regenerate(_, issued) => IssueRows(map[], issued);
      case FinishRegistration(_, _, Added(_, _, Some(issued), _)) => IssueRows(map[], issued);
      case _ =>
    }
  }

  lemma IssueRows(rows: map<Hash, bool>, issued: set<Hash>)
    ensures Issue(rows, issued).Keys == rows.Keys + issued
    ensures forall d :: d in issued ==> !Issue(rows, issued)[d]
    ensures forall d :: d in rows && d !in issued ==> Issue(rows, issued)[d] == rows[d]
  {
  }

  lemma MarkAfter(s: State, h: Hash, u: Id, e: Step)
    requires Enabled(s, e) && By(e) == Some(h) && h in s.sessions && s.sessions[h].user == u
    ensures
      var t := After(s, e);
      && h in t.sessions
      && t.sessions[h].mfaVerified ==
           (s.sessions[h].mfaVerified ||
            match e
            case ConfirmTotp(_, _, _, marked) => marked
            case VerifyTotp(_, _, marked) => marked
            case UseRecovery(_, _, marked) => marked
            case FinishLogin(_, _, _, marked) => marked
            case FinishRegistration(_, _, Added(_, _, _, marked)) => marked
            case _ => false)
  {
    hide After, Enabled, MayMutate, PrincipalOf, Required, Removable, Registers, Issue, CodesOf;
    var v := Inside(s, e);
  }

  lemma Facts(s: State, h: Hash, u: Id)
    requires h in s.sessions && s.sessions[h].user == u && !s.sessions[h].revoked && s.now < s.sessions[h].expires
    requires u in s.users && s.users[u].active
    ensures Who(s, h).Some? && Who(s, h).value.user == u
    ensures CredentialsOf(s, u) != {} <==> exists c :: c in s.credentials && s.credentials[c].user == u
    ensures forall c :: c in CredentialsOf(s, u) <==> c in s.credentials && s.credentials[c].user == u
    ensures MayMutate(s, h) <==> s.sessions[h].mfaVerified || (!TotpOn(s, u) && CredentialsOf(s, u) == {})
    ensures Required(s.policy, u, None) <==>
              s.policy.everyone || exists g :: g in s.policy.groups && (g, u) in s.policy.members
    ensures Unused(s, u) == {} <==> !(u in s.codes && exists d :: d in s.codes[u] && !s.codes[u][d])
    ensures forall d :: d in Unused(s, u) <==> u in s.codes && d in s.codes[u] && !s.codes[u][d]
  {
    forall c | c in s.credentials && s.credentials[c].user == u ensures c in CredentialsOf(s, u) {
    }
    forall d | u in s.codes && d in s.codes[u] && !s.codes[u][d] ensures d in Unused(s, u) {
    }
    if d :| d in Unused(s, u) {
      assert u in s.codes && d in s.codes[u] && !s.codes[u][d];
    }
  }

  lemma OthersLeft(s: State, u: Id, row: Id)
    requires row in CredentialsOf(s, u)
    ensures |CredentialsOf(s, u)| > 1 <==> exists c :: c in s.credentials && s.credentials[c].user == u && c != row
  {
    if |CredentialsOf(s, u)| > 1 {
      Another(CredentialsOf(s, u), row);
    }
    if c :| c in s.credentials && s.credentials[c].user == u && c != row {
      assert {c, row} <= CredentialsOf(s, u);
      SubsetSize({c, row}, CredentialsOf(s, u));
    }
  }
}
