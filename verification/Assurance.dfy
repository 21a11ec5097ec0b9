/**
  The MFA requests, statement by statement (backend/internal/httpapi/mfa.go,
  backend/internal/mfa/service.go, backend/internal/mfa/webauthn.go). A request reads its
  principal, then the factor status, then does its work, and marks its session last; nothing
  but recovery-code rows is locked in between. What a mark is worth is therefore decided by
  what its own request has seen, and this module says exactly what that is.
 */
module Assurance {
  import opened Accounts
  import opened Runs
  import opened Mfa

  type ReqId = nat

  datatype Job =
    | ConfirmJob(code: string)               // confirmTOTPEnrollment
    | RegisterJob(c: Hash)                   // finishWebAuthnRegistration
    | TotpJob(code: string)                  // verifyMFAFactor, "totp"
    | RecoveryJob(digest: Hash)              // verifyMFAFactor, "recovery"
    | AssertJob(c: Hash)                     // finishWebAuthnAuthentication
    | StartTotpJob(secret: Secret)           // beginTOTPEnrollment
    | StartKeyJob(c: Hash, kind: Kind)       // beginWebAuthnRegistration, beginWebAuthnAuthentication
    | DropTotpJob                            // disableTOTP
    | DropKeyJob(row: Id)                    // deleteWebAuthnCredential
    | RenewJob                               // regenerateRecoveryCodes

  datatype Stage =
    | Arrived                                // principal read
    | Guarded                                // factor status read and accepted
    | Checked                                // the code fits the stored secret
    | Taken(cer: Ceremony)                   // GETDEL
    | Loaded(cer: Ceremony)                  // ceremony matches, user loaded
    | KeyAdded                               // credential inserted
    | Renewing                               // no recovery codes left
    | Deleting(todo: set<Hash>, gone: set<Hash>)
    | Enrolled                               // only the session mark is missing
    | CodeLocked | CodeSpent                 // FOR UPDATE, then the UPDATE
    | Accepted                               // a proof: only the session mark is missing
    | PolicyRead(required: bool)
    | Permitted

  datatype Req = Req(job: Job, p: Principal, stage: Stage)

  /** Locks are on rows of mfa_recovery_codes. */
  datatype Sys = Sys(state: State, reqs: map<ReqId, Req>, locks: map<(Id, Hash), ReqId>)

  datatype Label =
    | World(e: Step)
    | Arrive(t: ReqId, h: Hash, job: Job)
    | Abandon(t: ReqId)
    | Guard(t: ReqId)
    | ReadTotp(t: ReqId)
    | Take(t: ReqId)
    | Load(t: ReqId)
    | Enrol(t: ReqId, issued: set<Hash>)
    | Insert(t: ReqId, row: Id, credential: Credential)
    | CountCodes(t: ReqId)
    | StartDelete(t: ReqId)
    | DeleteCode(t: ReqId, d: Hash)
    | CommitCodes(t: ReqId, issued: set<Hash>)
    | LockCode(t: ReqId)
    | SpendCode(t: ReqId)
    | CommitSpent(t: ReqId)
    | Note(t: ReqId, row: Id)
    | SetMark(t: ReqId)
    | ReadPolicy(t: ReqId)
    | CountFactors(t: ReqId)
    | Remove(t: ReqId)
    | Store(t: ReqId)

  // ----- Steps -----

  /** Handlers that start with the factor status. */
  predicate IsGuarded(job: Job) {
    || job.ConfirmJob? || job.RegisterJob? || job.StartTotpJob? || job.DropTotpJob? || job.DropKeyJob? || job.RenewJob?
    || (job.StartKeyJob? && !job.kind.SignIn?)
  }

  predicate Free(locks: map<(Id, Hash), ReqId>, t: ReqId, u: Id, d: Hash) {
    (u, d) in locks ==> locks[(u, d)] == t
  }

  function Release(locks: map<(Id, Hash), ReqId>, t: ReqId): map<(Id, Hash), ReqId> {
    map k | k in locks && locks[k] != t :: locks[k]
  }

  predicate MayLoad(st: State, u: Id) {
    u in st.users && st.users[u].active && u in st.enrolled
  }

  predicate IsLive(st: State, p: Principal) {
    && p.session in st.sessions && st.sessions[p.session].user == p.user
    && !st.sessions[p.session].revoked && st.now < st.sessions[p.session].expires
  }

  predicate Can(s: Sys, l: Label) {
    match l
    case World(e) => By(e) == None && Enabled(s.state, e) && (e.Reset? ==> forall k :: k in s.locks ==> k.0 != e.u)
    case Arrive(t, h, job) => t !in s.reqs && Who(s.state, h).Some?
    case Abandon(t) => t in s.reqs
    case _ => l.t in s.reqs && CanDo(s, l, s.reqs[l.t])
  }

  /** One statement of request `r`. */
  predicate CanDo(s: Sys, l: Label, r: Req)
    requires !l.World? && !l.Arrive? && !l.Abandon?
  {
    var st, u := s.state, r.p.user;
    match l
    case Guard(_) =>
      && r.stage.Arrived? && IsGuarded(r.job)
      && (HasPrimary(st, u) ==> r.p.mfaVerified) && (r.job.RenewJob? ==> HasPrimary(st, u) && r.p.mfaVerified)
    case ReadTotp(_) =>
      || (r.job.ConfirmJob? && r.stage.Guarded? && ValidCode(st, u, r.job.code))
      || (r.job.TotpJob? && r.stage.Arrived? && TotpOn(st, u) && ValidCode(st, u, r.job.code))
      || (r.job.StartTotpJob? && r.stage.Guarded? && !TotpOn(st, u))
    case Take(_) =>
      || (r.job.RegisterJob? && r.stage.Guarded? && Live(st, r.job.c))
      || (r.job.AssertJob? && r.stage.Arrived? && Live(st, r.job.c))
    case Load(_) =>
      || (r.stage.Taken? && r.stage.cer.user == u && MayLoad(st, u)
          && (if r.job.RegisterJob? then !r.stage.cer.kind.SignIn? else r.job.AssertJob? && r.stage.cer.kind.SignIn?))
      || (r.job.StartKeyJob? && r.job.kind.SignIn? && r.stage.Arrived? && MayLoad(st, u) && CredentialsOf(st, u) != {})
      || (r.job.StartKeyJob? && !r.job.kind.SignIn? && r.stage.Guarded? && u in st.users && st.users[u].active)
    case Enrol(t, issued) =>
      && r.job.ConfirmJob? && r.stage.Checked?
      && |issued| == (if Unused(st, u) == {} then CODES else 0)
      && issued !! CodesOf(st, u).Keys && (forall d :: d in issued ==> Free(s.locks, t, u, d))
    case Insert(_, row, credential) =>
      && r.job.RegisterJob? && r.stage.Loaded? && row !in st.credentials && credential.user == u
      && (forall other :: other in st.credentials ==> st.credentials[other].handle != credential.handle)
    case CountCodes(_) => r.job.RegisterJob? && r.stage.KeyAdded?
    case StartDelete(_) => (r.job.RegisterJob? && r.stage.Renewing?) || (r.job.RenewJob? && r.stage.Guarded?)
    case DeleteCode(t, d) => r.stage.Deleting? && d in r.stage.todo && Free(s.locks, t, u, d)
    case CommitCodes(t, issued) =>
      && r.stage.Deleting? && r.stage.todo == {} && |issued| == CODES
      && issued !! CodesOf(st, u).Keys - r.stage.gone && (forall d :: d in issued ==> Free(s.locks, t, u, d))
    case LockCode(t) =>
      && r.job.RecoveryJob? && r.stage.Arrived?
      && r.job.digest in Unused(st, u) && (u, r.job.digest) !in s.locks
    case SpendCode(_) => r.stage.CodeLocked?
    case CommitSpent(_) => r.job.RecoveryJob? && r.stage.CodeSpent?
    case Note(_, row) => r.job.AssertJob? && r.stage.Loaded? && row in CredentialsOf(st, u)
    case SetMark(_) => (r.stage.Accepted? || r.stage.Enrolled?) && IsLive(st, r.p)
    case ReadPolicy(_) => (r.job.DropTotpJob? || r.job.DropKeyJob?) && r.stage.Guarded?
    case CountFactors(_) =>
      && r.stage.PolicyRead?
      && (r.stage.required ==>
            if r.job.DropTotpJob? then CredentialsOf(st, u) != {} else TotpOn(st, u) || |CredentialsOf(st, u)| > 1)
    case Remove(_) =>
      && r.stage.Permitted?
      && ((r.job.DropTotpJob? && u in st.totp) || (r.job.DropKeyJob? && r.job.row in CredentialsOf(st, u)))
    case Store(_) => r.stage.Permitted? && (r.job.StartTotpJob? || r.job.StartKeyJob?)
  }

  /** The tables after a statement of `r`. Writes of an open transaction show at its commit. */
  function Tables(st: State, l: Label, r: Req): State {
    var u := r.p.user;
    match l
    case Take(_) => if r.job.RegisterJob? || r.job.AssertJob? then st.(ceremonies := st.ceremonies - {r.job.c}) else st
    case Load(_) => if r.job.StartKeyJob? then st.(enrolled := st.enrolled + {u}) else st
    case Enrol(_, issued) =>
      st.(totp := if u in st.totp then st.totp[u := st.totp[u].(active := true)] else st.totp,
          codes := st.codes[u := Issue(CodesOf(st, u), issued)])
    case Insert(_, row, credential) => st.(credentials := st.credentials[row := credential])
    case CommitCodes(_, issued) =>
      if r.stage.Deleting? then st.(codes := st.codes[u := Issue(CodesOf(st, u) - r.stage.gone, issued)]) else st
    case CommitSpent(_) =>
      if r.job.RecoveryJob? then st.(codes := st.codes[u := CodesOf(st, u)[r.job.digest := true]]) else st
    case SetMark(_) => st.(sessions := Mark(st.sessions, r.p.session, true))
    case Remove(_) =>
      if r.job.DropTotpJob? then st.(totp := st.totp - {u})
      else if r.job.DropKeyJob? then st.(credentials := st.credentials - {r.job.row})
      else st
    case Store(_) =>
      if r.job.StartTotpJob? then st.(totp := st.totp[u := Totp(r.job.secret, false)])
      else if r.job.StartKeyJob? then
        st.(ceremonies := st.ceremonies[r.job.c := Ceremony(u, r.job.kind, st.now + CEREMONY_TTL)])
      else st
    case _ => st
  }

  /** How far the request is then; None when it is over. */
  function Onward(st: State, l: Label, r: Req): Option<Stage> {
    var u := r.p.user;
    match l
    case Guard(_) => Some(Guarded)
    case ReadTotp(_) => Some(if r.job.ConfirmJob? then Checked else if r.job.TotpJob? then Accepted else Permitted)
    case Take(_) =>
      if (r.job.RegisterJob? || r.job.AssertJob?) && r.job.c in st.ceremonies then Some(Taken(st.ceremonies[r.job.c]))
      else None
    case Load(_) => Some(if r.stage.Taken? then Loaded(r.stage.cer) else Permitted)
    case Enrol(_, _) => Some(Enrolled)
    case Insert(_, _, _) => Some(KeyAdded)
    case CountCodes(_) => Some(if Unused(st, u) == {} then Renewing else Enrolled)
    case StartDelete(_) => Some(Deleting(CodesOf(st, u).Keys, {}))
    case DeleteCode(_, d) =>
      if !r.stage.Deleting? then None
      else Some(Deleting(r.stage.todo - {d}, if d in CodesOf(st, u) then r.stage.gone + {d} else r.stage.gone))
    case CommitCodes(_, _) => if r.job.RegisterJob? then Some(Enrolled) else None
    case LockCode(_) => Some(CodeLocked)
    case SpendCode(_) => Some(CodeSpent)
    case CommitSpent(_) => Some(Accepted)
    case Note(_, _) => Some(Accepted)
    case ReadPolicy(_) => Some(PolicyRead(Required(st.policy, u, None)))
    case CountFactors(_) => Some(Permitted)
    case _ => None
  }

  function Locks(s: Sys, l: Label, r: Req): map<(Id, Hash), ReqId> {
    var u := r.p.user;
    match l
    case DeleteCode(t, d) => if d in CodesOf(s.state, u) then s.locks[(u, d) := t] else s.locks
    case LockCode(t) => if r.job.RecoveryJob? then s.locks[(u, r.job.digest) := t] else s.locks
    case CommitCodes(t, _) => Release(s.locks, t)
    case CommitSpent(t) => Release(s.locks, t)
    case _ => s.locks
  }

  function Do(s: Sys, l: Label): Sys {
    match l
    case World(e) => s.(state := After(s.state, e))
    case Arrive(t, h, job) =>
      if Who(s.state, h).None? then s else s.(reqs := s.reqs[t := Req(job, Who(s.state, h).value, Arrived)])
    case Abandon(t) => s.(reqs := s.reqs - {t}, locks := Release(s.locks, t))
    case _ => if l.t !in s.reqs then s else Statement(s, l, l.t, s.reqs[l.t])
  }

  function Statement(s: Sys, l: Label, t: ReqId, r: Req): Sys {
    Sys(Tables(s.state, l, r),
        match Onward(s.state, l, r) case None => s.reqs - {t} case Some(stage) => s.reqs[t := r.(stage := stage)],
        Locks(s, l, r))
  }

  // ----- Histories -----

  datatype History = History(states: seq<Sys>, labels: seq<Label>)

  ghost predicate NextAt(h: History, i: nat)
    requires i < |h.labels| && i + 1 < |h.states|
  {
    Can(h.states[i], h.labels[i]) && h.states[i + 1] == Do(h.states[i], h.labels[i])
  }

  ghost predicate Steps(h: History) {
    && |h.states| == |h.labels| + 1
    && forall i :: 0 <= i < |h.labels| ==> NextAt(h, i)
  }

  ghost predicate IsHistory(h: History) {
    && Steps(h)
    && Initial(h.states[0].state) && h.states[0].reqs == map[] && h.states[0].locks == map[]
  }

  // ----- One request from its arrival on -----

  predicate InFlight(s: Sys, t: ReqId, job: Job, p: Principal) {
    t in s.reqs && s.reqs[t].job == job && s.reqs[t].p == p
  }

  ghost predicate SameRequest(h: History, c: nat, i: nat, t: ReqId, job: Job, p: Principal) {
    c <= i < |h.states| && forall k :: c <= k <= i ==> InFlight(h.states[k], t, job, p)
  }

  predicate ByRequest(l: Label, t: ReqId) {
    !l.World? && !l.Arrive? && !l.Abandon? && l.t == t
  }

  /** Only its own statements move a request on. */
  lemma OwnStage(s: Sys, l: Label, t: ReqId)
    requires Can(s, l) && t in s.reqs && t in Do(s, l).reqs
    ensures ByRequest(l, t) ==>
              && CanDo(s, l, s.reqs[t]) && Onward(s.state, l, s.reqs[t]).Some?
              && Do(s, l).reqs[t] == s.reqs[t].(stage := Onward(s.state, l, s.reqs[t]).value)
    ensures !ByRequest(l, t) ==> Do(s, l).reqs[t] == s.reqs[t]
  {
    hide CanDo, Tables, Onward, Locks, After, Enabled, Who;
  }

  lemma NewRequest(s: Sys, l: Label, t: ReqId)
    requires Can(s, l) && t in Do(s, l).reqs && t !in s.reqs
    ensures l.Arrive? && l.t == t
  {
    hide CanDo, Tables, Onward, Locks, After, Enabled, Who;
  }

  lemma BecomesInFlight(s: Sys, l: Label, t: ReqId, job: Job, p: Principal)
    requires Can(s, l) && InFlight(Do(s, l), t, job, p) && !InFlight(s, t, job, p)
    ensures l == Arrive(t, p.session, job) && Who(s.state, p.session) == Some(p)
  {
    hide Do, Can, Who;
    if t in s.reqs {
      OwnStage(s, l, t);
    } else {
      NewRequest(s, l, t);
      Arrives(s, l);
    }
  }

  lemma Arrives(s: Sys, l: Label)
    requires Can(s, l) && l.Arrive?
    ensures Who(s.state, l.h).Some? && Do(s, l).reqs[l.t] == Req(l.job, Who(s.state, l.h).value, Arrived)
    ensures Who(s.state, l.h).value.session == l.h
  {
  }

  lemma WhereArrived(h: History, i: nat, t: ReqId) returns (a: nat)
    requires IsHistory(h) && i < |h.states| && t in h.states[i].reqs
    ensures a < i && a < |h.labels| && SameRequest(h, a + 1, i, t, h.states[i].reqs[t].job, h.states[i].reqs[t].p)
    ensures h.labels[a] == Arrive(t, h.states[i].reqs[t].p.session, h.states[i].reqs[t].job)
    ensures Who(h.states[a].state, h.states[i].reqs[t].p.session) == Some(h.states[i].reqs[t].p)
  {
    hide Can, Do, InFlight, Initial, Who;
    var job, p := h.states[i].reqs[t].job, h.states[i].reqs[t].p;
    NotYet(h.states[0], t, job, p);
    Present(h.states[i], t);
    var on := (n: nat) => n < |h.states| && InFlight(h.states[n], t, job, p);
    a := RaisedAt(0, i, on);
    assert !on(a) && on(a + 1);
    assert NextAt(h, a);
    BecomesInFlight(h.states[a], h.labels[a], t, job, p);
    forall k | a + 1 <= k <= i ensures InFlight(h.states[k], t, job, p) {
      assert on(k);
    }
  }

  lemma NotYet(s: Sys, t: ReqId, job: Job, p: Principal)
    requires s.reqs == map[]
    ensures !InFlight(s, t, job, p)
  {
  }

  lemma Present(s: Sys, t: ReqId)
    requires t in s.reqs
    ensures InFlight(s, t, s.reqs[t].job, s.reqs[t].p)
  {
  }

  // ----- What its own statements have established -----

  /** The statement accepts a factor or recovery code that the request's user has. */
  ghost predicate Proof(s: Sys, l: Label, t: ReqId) {
    && t in s.reqs
    && var r := s.reqs[t];
    match l
    case ReadTotp(x) =>
      x == t && r.job.TotpJob? && TotpOn(s.state, r.p.user) && ValidCode(s.state, r.p.user, r.job.code)
    case CommitSpent(x) => x == t && r.job.RecoveryJob? && r.job.digest in Unused(s.state, r.p.user)
    case Note(x, row) => x == t && r.job.AssertJob? && row in CredentialsOf(s.state, r.p.user)
    case _ => false
  }

  /** The statement reads the factor status before an enrolment or another change. */
  ghost predicate PassesGuard(s: Sys, l: Label, t: ReqId) {
    && l == Guard(t) && t in s.reqs && (HasPrimary(s.state, s.reqs[t].p.user) ==> s.reqs[t].p.mfaVerified)
    && (s.reqs[t].job.RenewJob? ==> HasPrimary(s.state, s.reqs[t].p.user) && s.reqs[t].p.mfaVerified)
  }

  /** The statement commits the enrolment of a factor. */
  predicate Enrols(s: Sys, l: Label, t: ReqId) {
    t in s.reqs && ((l.Enrol? && l.t == t) || (l.Insert? && l.t == t))
  }

  predicate PastGuard(s: Sys, t: ReqId) {
    t in s.reqs && !s.reqs[t].stage.Arrived?
  }

  predicate PastProof(s: Sys, t: ReqId) {
    t in s.reqs && s.reqs[t].stage.Accepted?
  }

  predicate PastEnrolment(s: Sys, t: ReqId) {
    && t in s.reqs && (s.reqs[t].job.ConfirmJob? || s.reqs[t].job.RegisterJob?)
    && var stage := s.reqs[t].stage;
    stage.KeyAdded? || stage.Renewing? || stage.Deleting? || stage.Enrolled?
  }

  lemma BecomesPastGuard(s: Sys, l: Label, t: ReqId)
    requires Can(s, l) && t in s.reqs && IsGuarded(s.reqs[t].job) && !PastGuard(s, t) && PastGuard(Do(s, l), t)
    ensures PassesGuard(s, l, t)
  {
    hide Do, Can, HasPrimary, ValidCode, Live, MayLoad, CredentialsOf, Unused, TotpOn, Free, CodesOf;
    OwnStage(s, l, t);
  }

  lemma BecomesPastProof(s: Sys, l: Label, t: ReqId)
    requires Can(s, l) && t in s.reqs && !PastProof(s, t) && PastProof(Do(s, l), t) && Held(s, t)
    ensures Proof(s, l, t)
  {
    hide Do, Can, HasPrimary, ValidCode, Live, MayLoad, CredentialsOf, Unused, TotpOn, Free, CodesOf;
    OwnStage(s, l, t);
  }

  lemma BecomesPastEnrolment(s: Sys, l: Label, t: ReqId)
    requires Can(s, l) && t in s.reqs && !PastEnrolment(s, t) && PastEnrolment(Do(s, l), t)
    ensures Enrols(s, l, t)
  {
    hide Do, Can, HasPrimary, ValidCode, Live, MayLoad, CredentialsOf, Unused, TotpOn, Free, CodesOf;
    OwnStage(s, l, t);
  }

  lemma StaysPastEnrolment(s: Sys, l: Label, t: ReqId)
    requires Can(s, l) && PastEnrolment(s, t) && t in Do(s, l).reqs
    ensures PastEnrolment(Do(s, l), t)
  {
    hide Do, Can, HasPrimary, ValidCode, Live, MayLoad, CredentialsOf, Unused, TotpOn, Free, CodesOf;
    OwnStage(s, l, t);
  }

  lemma EnrolmentIsOnce(s: Sys, l: Label, t: ReqId)
    requires Can(s, l) && Enrols(s, l, t)
    ensures !PastEnrolment(s, t) && PastEnrolment(Do(s, l), t)
  {
    hide Tables, Locks, HasPrimary, CredentialsOf, Unused, Free;
  }

  // ----- The locks on recovery codes -----

  /** A request that has selected its code FOR UPDATE holds the row, still unused; one that
      has deleted rows holds those. */
  ghost predicate Held(s: Sys, t: ReqId)
    requires t in s.reqs
  {
    var r := s.reqs[t];
    && (r.stage.CodeLocked? || r.stage.CodeSpent? ==>
          && r.job.RecoveryJob? && Owns(s.locks, t, r.p.user, r.job.digest)
          && r.job.digest in Unused(s.state, r.p.user))
    && (r.stage.Deleting? ==> forall d :: d in r.stage.gone ==> Owns(s.locks, t, r.p.user, d))
  }

  predicate Owns(locks: map<(Id, Hash), ReqId>, t: ReqId, u: Id, d: Hash) {
    (u, d) in locks && locks[(u, d)] == t
  }

  ghost predicate Inv(s: Sys) {
    forall t :: t in s.reqs ==> Held(s, t)
  }

  /** The committed statement that ends code `d` of `u`, if there was one to end. */
  ghost predicate Cancels(s: Sys, l: Label, u: Id, d: Hash) {
    match l
    case World(e) => e == Reset(u)
    case CommitSpent(t) => t in s.reqs && s.reqs[t].p.user == u && s.reqs[t].job == RecoveryJob(d)
    case CommitCodes(t, _) =>
      t in s.reqs && s.reqs[t].p.user == u && s.reqs[t].stage.Deleting? && d in s.reqs[t].stage.gone
    case _ => false
  }

  ghost predicate Issues(s: Sys, l: Label, u: Id, d: Hash) {
    match l
    case Enrol(t, issued) => t in s.reqs && s.reqs[t].p.user == u && d in issued
    case CommitCodes(t, issued) => t in s.reqs && s.reqs[t].p.user == u && d in issued
    case _ => false
  }

  /** The code rows of `u` after a step. */
  function Rows(s: Sys, l: Label, u: Id): map<Hash, bool> {
    match l
    case World(e) => if e == Reset(u) then map[] else CodesOf(s.state, u)
    case Enrol(t, issued) =>
      if t in s.reqs && s.reqs[t].p.user == u then Issue(CodesOf(s.state, u), issued) else CodesOf(s.state, u)
    case CommitCodes(t, issued) =>
      if t in s.reqs && s.reqs[t].p.user == u && s.reqs[t].stage.Deleting? then
        Issue(CodesOf(s.state, u) - s.reqs[t].stage.gone, issued)
      else CodesOf(s.state, u)
    case CommitSpent(t) =>
      if t in s.reqs && s.reqs[t].p.user == u && s.reqs[t].job.RecoveryJob? then
        CodesOf(s.state, u)[s.reqs[t].job.digest := true]
      else CodesOf(s.state, u)
    case _ => CodesOf(s.state, u)
  }

  lemma WorldRows(st: State, e: Step, u: Id)
    requires By(e) == None
    ensures CodesOf(After(st, e), u) == if e == Reset(u) then map[] else CodesOf(st, u)
  {
    hide End, SessionsOf, CredentialsOf, Who;
  }

  lemma TablesRows(s: Sys, l: Label, u: Id)
    requires !l.World? && !l.Arrive? && !l.Abandon? && l.t in s.reqs
    ensures CodesOf(Tables(s.state, l, s.reqs[l.t]), u) == Rows(s, l, u)
  {
    hide Issue, Mark;
  }

  lemma RowsAfter(s: Sys, l: Label, u: Id)
    requires Can(s, l)
    ensures CodesOf(Do(s, l).state, u) == Rows(s, l, u)
  {
    hide CanDo, Onward, Locks, Issue, Enabled, After, Tables, Who, CodesOf;
    if l.World? {
      WorldRows(s.state, l.e, u);
    } else if !l.Arrive? && !l.Abandon? {
      TablesRows(s, l, u);
    }
  }

  lemma CodeStep(s: Sys, l: Label, u: Id, d: Hash)
    requires Can(s, l)
    ensures d in Unused(Do(s, l).state, u) ==> Issues(s, l, u, d) || (d in Unused(s.state, u) && !Cancels(s, l, u, d))
    ensures d in Unused(s.state, u) && !Cancels(s, l, u, d) ==> d in Unused(Do(s, l).state, u)
  {
    hide Do, CanDo, CodesOf, Enabled;
    RowsAfter(s, l, u);
    CanIssue(s, l);
  }

  /** New codes are not among the rows that stay. */
  lemma CanIssue(s: Sys, l: Label)
    requires Can(s, l)
    ensures l.Enrol? ==> l.t in s.reqs && l.issued !! CodesOf(s.state, s.reqs[l.t].p.user).Keys
    ensures l.CommitCodes? ==> l.t in s.reqs && s.reqs[l.t].stage.Deleting?
    ensures l.CommitSpent? ==> l.t in s.reqs && s.reqs[l.t].job.RecoveryJob? && s.reqs[l.t].stage.CodeSpent?
    ensures l.CommitCodes? ==> l.issued !! CodesOf(s.state, s.reqs[l.t].p.user).Keys - s.reqs[l.t].stage.gone
  {
    hide CodesOf, Free, Unused;
  }

  lemma LocksStay(s: Sys, l: Label, t: ReqId, u: Id, d: Hash)
    requires Can(s, l) && Owns(s.locks, t, u, d)
    requires l.World? || l.Arrive? || l.t != t
    ensures Owns(Do(s, l).locks, t, u, d)
  {
    hide Tables, Onward, After, Enabled, Who, HasPrimary, ValidCode, Live, MayLoad, CredentialsOf, Unused, TotpOn;
    hide CodesOf;
  }

  lemma OthersHeld(s: Sys, l: Label, t: ReqId)
    requires Can(s, l) && Inv(s) && t in s.reqs && (l.World? || l.Arrive? || l.t != t)
    ensures t in Do(s, l).reqs && Do(s, l).reqs[t] == s.reqs[t] && Held(Do(s, l), t)
  {
    hide Do, CanDo, CodesOf, Enabled, Unused;
    RequestStays(s, l, t);
    var r := s.reqs[t];
    assert Held(s, t);
    if r.stage.Deleting? {
      forall d | d in r.stage.gone ensures Owns(Do(s, l).locks, t, r.p.user, d) {
        LocksStay(s, l, t, r.p.user, d);
      }
    } else if r.stage.CodeLocked? || r.stage.CodeSpent? {
      LocksStay(s, l, t, r.p.user, r.job.digest);
      NotCancelled(s, l, t);
      CodeStep(s, l, r.p.user, r.job.digest);
    }
  }

  lemma RequestStays(s: Sys, l: Label, t: ReqId)
    requires Can(s, l) && t in s.reqs && (l.World? || l.Arrive? || l.t != t)
    ensures t in Do(s, l).reqs && Do(s, l).reqs[t] == s.reqs[t]
  {
    hide CanDo, Tables, Onward, Locks, After, Enabled, Who;
  }

  /** Nobody else can end a code whose row is held. */
  lemma NotCancelled(s: Sys, l: Label, t: ReqId)
    requires Can(s, l) && Inv(s) && t in s.reqs && (l.World? || l.Arrive? || l.t != t)
    requires s.reqs[t].stage.CodeLocked? || s.reqs[t].stage.CodeSpent?
    ensures s.reqs[t].job.RecoveryJob? && !Cancels(s, l, s.reqs[t].p.user, s.reqs[t].job.digest)
  {
    hide CanDo, Unused, Enabled;
    assert Held(s, t);
    CanIssue(s, l);
    if l.CommitSpent? || l.CommitCodes? {
      assert Held(s, l.t);
    }
  }

  lemma OwnLocks(s: Sys, l: Label)
    requires Can(s, l) && !l.World? && ByRequest(l, l.t)
    ensures l.t in s.reqs && Do(s, l).locks == Locks(s, l, s.reqs[l.t])
  {
    hide CanDo, Tables, Onward, Locks, After, Enabled, Who;
  }

  lemma OwnHeld(s: Sys, l: Label)
    requires Can(s, l) && Inv(s) && !l.World? && !l.Arrive? && l.t in s.reqs && l.t in Do(s, l).reqs
    ensures Held(Do(s, l), l.t)
  {
    hide Do, Can, CanDo, Onward, Locks, Rows, CodesOf, Held;
    assert Held(s, l.t);
    OwnStage(s, l, l.t);
    if l.Abandon? {
      AbandonEnds(s, l);
    } else {
      OwnLocks(s, l);
      RowsAfter(s, l, s.reqs[l.t].p.user);
      OwnHeldOnward(s, l, Do(s, l));
    }
  }

  lemma OwnHeldOnward(s: Sys, l: Label, s': Sys)
    requires !l.World? && !l.Arrive? && !l.Abandon? && l.t in s.reqs && Held(s, l.t)
    requires CanDo(s, l, s.reqs[l.t]) && Onward(s.state, l, s.reqs[l.t]).Some?
    requires l.t in s'.reqs && s'.reqs[l.t] == s.reqs[l.t].(stage := Onward(s.state, l, s.reqs[l.t]).value)
    requires s'.locks == Locks(s, l, s.reqs[l.t])
    requires CodesOf(s'.state, s.reqs[l.t].p.user) == Rows(s, l, s.reqs[l.t].p.user)
    ensures Held(s', l.t)
  {
    hide HasPrimary, ValidCode, Live, MayLoad, CredentialsOf, TotpOn, UnusedIn, CodesOf, Required;
    match l
    case LockCode(_) =>
    case SpendCode(_) =>
    case DeleteCode(_, _) =>
    case _ =>
  }

  lemma AbandonEnds(s: Sys, l: Label)
    requires Can(s, l) && l.Abandon?
    ensures l.t !in Do(s, l).reqs
  {
    hide CanDo, Tables, Onward, Locks;
  }

  lemma ArrivalIsFresh(s: Sys, l: Label)
    requires Can(s, l) && l.Arrive?
    ensures l.t in Do(s, l).reqs && Do(s, l).reqs[l.t].stage.Arrived? && Held(Do(s, l), l.t)
  {
    hide CanDo, Tables, Onward, Locks;
  }

  lemma Acting(s: Sys, l: Label)
    requires Can(s, l) && !l.World? && !l.Arrive?
    ensures l.t in s.reqs
  {
    hide CanDo;
  }

  lemma Other(s: Sys, l: Label, t: ReqId)
    requires Can(s, l) && t in Do(s, l).reqs && (l.World? || l.t != t)
    ensures t in s.reqs
  {
    hide CanDo, Tables, Onward, Locks, After, Enabled, Who;
  }

  lemma StepKeepsInv(s: Sys, l: Label)
    requires Can(s, l) && Inv(s)
    ensures Inv(Do(s, l))
  {
    hide Held, Can, Do;
    forall t | t in Do(s, l).reqs ensures Held(Do(s, l), t) {
      if l.Arrive? && l.t == t {
        ArrivalIsFresh(s, l);
      } else if l.Abandon? && l.t == t {
        AbandonEnds(s, l);
      } else if !l.World? && l.t == t {
        Acting(s, l);
        OwnHeld(s, l);
      } else {
        Other(s, l, t);
        OthersHeld(s, l, t);
      }
    }
  }

  lemma {:induction false} InvThroughout(h: History, i: nat)
    requires IsHistory(h) && i < |h.states|
    ensures Inv(h.states[i])
    decreases i
  {
    hide Held, Can, Do, Initial;
    if i > 0 {
      InvThroughout(h, i - 1);
      assert NextAt(h, i - 1);
      StepKeepsInv(h.states[i - 1], h.labels[i - 1]);
    }
  }

  // ----- Marks -----

  /** The step marks session `k` for its user `u`. */
  ghost predicate Marks(s: Sys, l: Label, k: Hash, u: Id) {
    l.SetMark? && l.t in s.reqs && s.reqs[l.t].p.session == k && s.reqs[l.t].p.user == u
  }

  function Sessions(s: Sys, l: Label): map<Hash, Session> {
    match l
    case World(e) => After(s.state, e).sessions
    case SetMark(t) => if t in s.reqs then Mark(s.state.sessions, s.reqs[t].p.session, true) else s.state.sessions
    case _ => s.state.sessions
  }

  lemma SessionsAfter(s: Sys, l: Label)
    ensures Do(s, l).state.sessions == Sessions(s, l)
  {
    hide CanDo, Onward, Locks, After, Who, Mark, Issue, CodesOf;
  }

  /** How sessions are changed by a step that is no statement of a request. */
  lemma WorldSessions(st: State, e: Step, k: Hash)
    requires By(e) == None && Enabled(st, e)
    ensures k in st.sessions ==>
              && k in After(st, e).sessions && After(st, e).sessions[k].user == st.sessions[k].user
              && After(st, e).sessions[k].mfaVerified == st.sessions[k].mfaVerified
              && (st.sessions[k].revoked ==> After(st, e).sessions[k].revoked)
    ensures k !in st.sessions && k in After(st, e).sessions ==> !After(st, e).sessions[k].mfaVerified
  {
    hide After, EnabledFor, Who;
    SessionsStep(st, e);
  }

  lemma BecomesVerified(s: Sys, l: Label, k: Hash, u: Id)
    requires Can(s, l) && VerifiedFor(Do(s, l).state, k, u) && !VerifiedFor(s.state, k, u)
    ensures Marks(s, l, k, u)
  {
    hide Do, After, Enabled, HasPrimary, CredentialsOf, CodesOf, Unused;
    SessionsAfter(s, l);
    if l.World? {
      WorldSessions(s.state, l.e, k);
    }
  }

  lemma StaysVerified(s: Sys, l: Label, k: Hash)
    requires Can(s, l) && k in s.state.sessions
    ensures k in Do(s, l).state.sessions && Do(s, l).state.sessions[k].user == s.state.sessions[k].user
    ensures s.state.sessions[k].mfaVerified ==> Do(s, l).state.sessions[k].mfaVerified
    ensures s.state.sessions[k].revoked ==> Do(s, l).state.sessions[k].revoked
  {
    hide Do, CanDo, After, Enabled;
    SessionsAfter(s, l);
    if l.World? {
      WorldSessions(s.state, l.e, k);
    }
  }

  lemma {:induction false} StillVerified(h: History, i: nat, j: nat, k: Hash)
    requires IsHistory(h) && i <= j < |h.states| && k in h.states[i].state.sessions
    ensures k in h.states[j].state.sessions
    ensures h.states[j].state.sessions[k].user == h.states[i].state.sessions[k].user
    ensures h.states[i].state.sessions[k].mfaVerified ==> h.states[j].state.sessions[k].mfaVerified
    ensures h.states[i].state.sessions[k].revoked ==> h.states[j].state.sessions[k].revoked
    decreases j
  {
    hide Can, Do, Initial;
    if i < j {
      StillVerified(h, i, j - 1, k);
      assert NextAt(h, j - 1);
      StaysVerified(h.states[j - 1], h.labels[j - 1], k);
    }
  }

  /** Revoked sessions stay so, whatever is still in flight, and start no further request. */
  lemma RevokedForever(h: History, i: nat, j: nat, k: Hash)
    requires IsHistory(h) && i <= j < |h.states|
    requires k in h.states[i].state.sessions && h.states[i].state.sessions[k].revoked
    ensures Who(h.states[j].state, k).None?
    ensures forall n :: i <= n < |h.labels| && h.labels[n].Arrive? ==> h.labels[n].h != k
    ensures forall n :: i <= n < |h.labels| && h.labels[n].SetMark? ==>
              h.labels[n].t in h.states[n].reqs && h.states[n].reqs[h.labels[n].t].p.session != k
  {
    hide Do, Initial, CanDo;
    StillVerified(h, i, j, k);
    forall n | i <= n < |h.labels| && h.labels[n].Arrive? ensures h.labels[n].h != k {
      StillVerified(h, i, n, k);
      assert NextAt(h, n);
    }
    forall n | i <= n < |h.labels| && h.labels[n].SetMark?
      ensures h.labels[n].t in h.states[n].reqs && h.states[n].reqs[h.labels[n].t].p.session != k
    {
      StillVerified(h, i, n, k);
      assert NextAt(h, n);
      MarksLive(h.states[n], h.labels[n]);
    }
  }

  lemma MarksLive(s: Sys, l: Label)
    requires Can(s, l) && l.SetMark?
    ensures l.t in s.reqs && IsLive(s.state, s.reqs[l.t].p)
    ensures s.reqs[l.t].stage.Accepted? || s.reqs[l.t].stage.Enrolled?
  {
  }

  /** After its arrival, the step that took a request of a guarded kind past its guard. */
  lemma WhereGuarded(h: History, i: nat, t: ReqId) returns (a: nat, g: nat)
    requires IsHistory(h) && i < |h.states| && PastGuard(h.states[i], t) && IsGuarded(h.states[i].reqs[t].job)
    ensures a < g < i && h.labels[a] == Arrive(t, h.states[i].reqs[t].p.session, h.states[i].reqs[t].job)
    ensures Who(h.states[a].state, h.states[i].reqs[t].p.session) == Some(h.states[i].reqs[t].p)
    ensures PassesGuard(h.states[g], h.labels[g], t)
    ensures SameRequest(h, a + 1, i, t, h.states[i].reqs[t].job, h.states[i].reqs[t].p)
  {
    hide Can, Do, Initial, Who, HasPrimary;
    var job, p := h.states[i].reqs[t].job, h.states[i].reqs[t].p;
    a := WhereArrived(h, i, t);
    assert NextAt(h, a);
    ArrivalIsFresh(h.states[a], h.labels[a]);
    var on := (n: nat) => n < |h.states| && PastGuard(h.states[n], t);
    g := RaisedAt(a + 1, i, on);
    assert !on(g) && on(g + 1);
    assert NextAt(h, g) && InFlight(h.states[g], t, job, p);
    BecomesPastGuard(h.states[g], h.labels[g], t);
  }

  lemma WhereProved(h: History, i: nat, t: ReqId) returns (a: nat, q: nat)
    requires IsHistory(h) && i < |h.states| && PastProof(h.states[i], t)
    ensures a < q < i && h.labels[a] == Arrive(t, h.states[i].reqs[t].p.session, h.states[i].reqs[t].job)
    ensures Who(h.states[a].state, h.states[i].reqs[t].p.session) == Some(h.states[i].reqs[t].p)
    ensures Proof(h.states[q], h.labels[q], t)
    ensures SameRequest(h, a + 1, i, t, h.states[i].reqs[t].job, h.states[i].reqs[t].p)
  {
    hide Can, Do, Initial, Who, Proof, Held;
    var job, p := h.states[i].reqs[t].job, h.states[i].reqs[t].p;
    a := WhereArrived(h, i, t);
    assert NextAt(h, a);
    ArrivalIsFresh(h.states[a], h.labels[a]);
    var on := (n: nat) => n < |h.states| && PastProof(h.states[n], t);
    q := RaisedAt(a + 1, i, on);
    assert !on(q) && on(q + 1);
    assert NextAt(h, q) && InFlight(h.states[q], t, job, p);
    InvThroughout(h, q);
    assert Held(h.states[q], t);
    BecomesPastProof(h.states[q], h.labels[q], t);
  }

  /** Every mark follows, in its own request: a proof by a factor or recovery code that the user
      had (step `q`); or, for an enrolment, a look at the factor status (step `q`) at which the
      user had no factor, unless the session was verified when the request arrived (step `a`). */
  lemma MarkIsEarned(h: History, i: nat) returns (a: nat, q: nat)
    requires IsHistory(h) && i < |h.labels| && h.labels[i].SetMark?
    ensures h.labels[i].t in h.states[i].reqs && a < q < i
    ensures
      var t, r := h.labels[i].t, h.states[i].reqs[h.labels[i].t];
      && h.labels[a] == Arrive(t, r.p.session, r.job) && Who(h.states[a].state, r.p.session) == Some(r.p)
      && SameRequest(h, a + 1, i, t, r.job, r.p)
      && (if r.job.ConfirmJob? || r.job.RegisterJob?
          then
            && h.labels[q] == Guard(t)
            && (HasPrimary(h.states[q].state, r.p.user) ==> Verified(h.states[a].state, r.p.session))
          else Proof(h.states[q], h.labels[q], t))
  {
    hide Do, Initial, PrincipalOf, HasPrimary, CanDo, Proof;
    assert NextAt(h, i);
    var t := h.labels[i].t;
    MarksLive(h.states[i], h.labels[i]);
    JobOfMark(h, i);
    var r := h.states[i].reqs[t];
    if r.job.ConfirmJob? || r.job.RegisterJob? {
      a, q := WhereGuarded(h, i, t);
      SessionOfPrincipal(h.states[a].state, r.p.session);
    } else {
      a, q := WhereProved(h, i, t);
    }
  }

  lemma SessionOfPrincipal(st: State, k: Hash)
    requires Who(st, k).Some?
    ensures k in st.sessions && Who(st, k).value.session == k && st.sessions[k].user == Who(st, k).value.user
    ensures Who(st, k).value.mfaVerified == st.sessions[k].mfaVerified
  {
  }

  /** Only enrolments reach `Enrolled`, and they never count as accepted proofs; a ceremony that
      was loaded belongs to the request's user and purpose. */
  predicate StageFits(r: Req) {
    && (r.stage.Enrolled? || r.stage.Checked? || r.stage.KeyAdded? || r.stage.Renewing? ==>
          r.job.ConfirmJob? || r.job.RegisterJob?)
    && (r.stage.Loaded? ==>
          && r.stage.cer.user == r.p.user
          && (if r.job.RegisterJob? then !r.stage.cer.kind.SignIn? else r.job.AssertJob? && r.stage.cer.kind.SignIn?))
    && (r.stage.Accepted? ==> r.job.TotpJob? || r.job.RecoveryJob? || r.job.AssertJob?)
    && (r.stage.Deleting? ==> r.job.RegisterJob? || r.job.RenewJob?)
    && (r.stage.PolicyRead? ==> r.job.DropTotpJob? || r.job.DropKeyJob?)
  }

  lemma StageStep(s: Sys, l: Label, t: ReqId)
    requires Can(s, l) && t in Do(s, l).reqs && (t in s.reqs ==> StageFits(s.reqs[t]))
    ensures StageFits(Do(s, l).reqs[t])
  {
    hide Do, Can, HasPrimary, ValidCode, Live, MayLoad, CredentialsOf, Unused, TotpOn, Free, CodesOf;
    if t in s.reqs {
      OwnStage(s, l, t);
    } else {
      NewRequest(s, l, t);
      ArrivalIsFresh(s, l);
    }
  }

  lemma {:induction false} StagesFit(h: History, i: nat, t: ReqId)
    requires IsHistory(h) && i < |h.states| && t in h.states[i].reqs
    ensures StageFits(h.states[i].reqs[t])
    decreases i
  {
    hide Can, Do, Initial, StageFits;
    if i > 0 {
      assert NextAt(h, i - 1);
      if t in h.states[i - 1].reqs {
        StagesFit(h, i - 1, t);
      }
      StageStep(h.states[i - 1], h.labels[i - 1], t);
    }
  }

  lemma JobOfMark(h: History, i: nat)
    requires IsHistory(h) && i < |h.labels| && h.labels[i].SetMark?
    ensures h.labels[i].t in h.states[i].reqs
    ensures
      var r := h.states[i].reqs[h.labels[i].t];
      if r.job.ConfirmJob? || r.job.RegisterJob? then r.stage.Enrolled? else r.stage.Accepted?
  {
    hide Do, Initial, CanDo;
    assert NextAt(h, i);
    MarksLive(h.states[i], h.labels[i]);
    StagesFit(h, i, h.labels[i].t);
  }

  /** A session is verified only because an earlier step marked it for its own user. */
  lemma VerifiedByMark(h: History, n: nat, k: Hash) returns (i: nat)
    requires IsHistory(h) && n < |h.states| && Verified(h.states[n].state, k)
    ensures i < n && Marks(h.states[i], h.labels[i], k, h.states[n].state.sessions[k].user)
  {
    hide Can, Do, Marks;
    var u := h.states[n].state.sessions[k].user;
    var on := (m: nat) => m < |h.states| && VerifiedFor(h.states[m].state, k, u);
    i := RaisedAt(0, n, on);
    assert !on(i) && on(i + 1);
    assert NextAt(h, i);
    BecomesVerified(h.states[i], h.labels[i], k, u);
  }

  /** Where policy asks for a second factor, whoever is admitted got the session marked (step `i`),
      and that mark was earned (MarkIsEarned). */
  lemma AdmissionByMark(h: History, n: nat, k: Hash) returns (i: nat)
    requires IsHistory(h) && n < |h.states| && Admitted(h.states[n].state, k).Some?
    requires Required(h.states[n].state.policy, Admitted(h.states[n].state, k).value.user, None)
    ensures i < n && Marks(h.states[i], h.labels[i], k, Admitted(h.states[n].state, k).value.user)
  {
    hide Can, Do, Marks, Required, Initial;
    SessionOfPrincipal(h.states[n].state, k);
    i := VerifiedByMark(h, n, k);
  }

  /** While the user has had some factor ever since the marking request arrived, an unverified
      session is marked only on a proof made in that very request. */
  lemma FactorMustBeProved(h: History, i: nat) returns (a: nat, q: nat)
    requires IsHistory(h) && i < |h.labels| && h.labels[i].SetMark? && h.labels[i].t in h.states[i].reqs
    requires !Verified(h.states[i].state, h.states[i].reqs[h.labels[i].t].p.session)
    ensures a < q < i && h.labels[a].Arrive? && h.labels[a].t == h.labels[i].t
    ensures
      var t := h.labels[i].t;
      SameRequest(h, a + 1, i, t, h.states[i].reqs[t].job, h.states[i].reqs[t].p)
    ensures (forall m :: a < m < i ==> HasPrimary(h.states[m].state, h.states[i].reqs[h.labels[i].t].p.user)) ==>
              Proof(h.states[q], h.labels[q], h.labels[i].t)
  {
    hide Can, Do, Initial, HasPrimary, Proof, PrincipalOf;
    a, q := MarkIsEarned(h, i);
    var p := h.states[i].reqs[h.labels[i].t].p;
    SessionOfPrincipal(h.states[a].state, p.session);
    StillVerified(h, a, i, p.session);
  }

  // ----- An enrolment that comes late -----

  /** The step commits another request's enrolment and leaves the user with a factor. */
  ghost predicate OtherEnrols(h: History, k: nat, t: ReqId, u: Id) {
    && k < |h.labels| && k + 1 < |h.states|
    && (h.labels[k].Enrol? || h.labels[k].Insert?) && h.labels[k].t != t
    && h.labels[k].t in h.states[k].reqs && h.states[k].reqs[h.labels[k].t].p.user == u
    && HasPrimary(h.states[k + 1].state, u)
  }

  /** The step takes the user's last factor away. */
  ghost predicate LosesFactor(h: History, k: nat, u: Id) {
    k + 1 < |h.states| && HasPrimary(h.states[k].state, u) && !HasPrimary(h.states[k + 1].state, u)
  }

  /** Between the steps `g` and `e` another request enrolled a factor for the user, who has
      not been left without one since. */
  ghost predicate Overtaken(h: History, g: nat, e: nat, t: ReqId, u: Id) {
    Since(g, e, (k: nat) => OtherEnrols(h, k, t, u), (k: nat) => LosesFactor(h, k, u))
  }

  /** Nothing but an enrolment gives a user a factor. */
  lemma BecomesPrimary(s: Sys, l: Label, u: Id)
    requires Can(s, l) && !HasPrimary(s.state, u) && HasPrimary(Do(s, l).state, u)
    ensures (l.Enrol? || l.Insert?) && l.t in s.reqs && s.reqs[l.t].p.user == u
  {
    hide CanDo, Do, Enabled, Who, TotpOn, CredentialsOf;
    if l.World? {
      WorldDoes(s, l);
      WorldFactors(s.state, l.e, u);
    } else if !l.Arrive? && !l.Abandon? {
      OwnTables(s, l);
      if TotpOn(Do(s, l).state, u) && !(l.Enrol? && s.reqs[l.t].p.user == u) {
        TablesTotp(s, l, s.reqs[l.t], u);
      }
      if !(l.Insert? && s.reqs[l.t].p.user == u) {
        TablesKeys(s, l, s.reqs[l.t], u);
      }
    } else {
      OthersTables(s, l);
    }
  }

  lemma WorldDoes(s: Sys, l: Label)
    requires Can(s, l) && l.World?
    ensures By(l.e) == None && Do(s, l).state == After(s.state, l.e)
  {
    hide After, Enabled;
  }

  lemma OwnTables(s: Sys, l: Label)
    requires Can(s, l) && !l.World? && !l.Arrive? && !l.Abandon?
    ensures l.t in s.reqs && CanDo(s, l, s.reqs[l.t]) && Do(s, l).state == Tables(s.state, l, s.reqs[l.t])
  {
    hide CanDo, Tables, Onward, Locks;
  }

  lemma OthersTables(s: Sys, l: Label)
    requires Can(s, l) && (l.Arrive? || l.Abandon?)
    ensures Do(s, l).state == s.state
  {
    hide Who;
  }

  lemma WorldFactors(st: State, e: Step, u: Id)
    requires By(e) == None && HasPrimary(After(st, e), u)
    ensures HasPrimary(st, u)
  {
    hide End, SessionsOf, Who;
    assert CredentialsOf(After(st, e), u) <= CredentialsOf(st, u);
  }

  lemma TablesKeys(s: Sys, l: Label, r: Req, u: Id)
    requires !l.World? && !l.Arrive? && !l.Abandon? && CanDo(s, l, r) && !(l.Insert? && r.p.user == u)
    ensures CredentialsOf(Tables(s.state, l, r), u) <= CredentialsOf(s.state, u)
  {
    hide Issue, Mark, CodesOf, Unused, Live, ValidCode, MayLoad, Required, Free, TotpOn, HasPrimary;
  }

  lemma TablesTotp(s: Sys, l: Label, r: Req, u: Id)
    requires !(l.Enrol? && r.p.user == u) && TotpOn(Tables(s.state, l, r), u)
    ensures TotpOn(s.state, u)
  {
    hide Issue, Mark, CodesOf;
  }

  lemma {:induction false} StillEnrolled(h: History, k: nat, e: nat, t: ReqId, job: Job, p: Principal)
    requires IsHistory(h) && SameRequest(h, k, e, t, job, p) && PastEnrolment(h.states[k], t)
    ensures PastEnrolment(h.states[e], t)
    decreases e
  {
    hide Can, Do, Initial, PastEnrolment;
    if k < e {
      assert SameRequest(h, k, e - 1, t, job, p);
      StillEnrolled(h, k, e - 1, t, job, p);
      assert NextAt(h, e - 1) && InFlight(h.states[e], t, job, p);
      StaysPastEnrolment(h.states[e - 1], h.labels[e - 1], t);
    }
  }

  lemma WhereEnrolled(h: History, i: nat, t: ReqId) returns (a: nat, g: nat, e: nat)
    requires IsHistory(h) && i < |h.states| && PastEnrolment(h.states[i], t)
    ensures a < g < e < i && h.labels[a] == Arrive(t, h.states[i].reqs[t].p.session, h.states[i].reqs[t].job)
    ensures Who(h.states[a].state, h.states[i].reqs[t].p.session) == Some(h.states[i].reqs[t].p)
    ensures PassesGuard(h.states[g], h.labels[g], t) && Enrols(h.states[e], h.labels[e], t)
    ensures SameRequest(h, a + 1, i, t, h.states[i].reqs[t].job, h.states[i].reqs[t].p)
  {
    hide Can, Do, Initial, Who, HasPrimary, Held;
    var job, p := h.states[i].reqs[t].job, h.states[i].reqs[t].p;
    a := WhereArrived(h, i, t);
    assert NextAt(h, a);
    ArrivalIsFresh(h.states[a], h.labels[a]);
    var on := (n: nat) => n < |h.states| && PastEnrolment(h.states[n], t);
    e := RaisedAt(a + 1, i, on);
    assert !on(e) && on(e + 1);
    assert NextAt(h, e) && InFlight(h.states[e], t, job, p);
    BecomesPastEnrolment(h.states[e], h.labels[e], t);
    EnrolsGuarded(h.states[e], h.labels[e], t);
    var b;
    b, g := WhereGuarded(h, e, t);
    SameArrival(h, a, b, e, t, job, p);
  }

  lemma EnrolsGuarded(s: Sys, l: Label, t: ReqId)
    requires Can(s, l) && Enrols(s, l, t)
    ensures PastGuard(s, t) && (s.reqs[t].job.ConfirmJob? || s.reqs[t].job.RegisterJob?)
  {
    hide CodesOf, Unused, Free;
  }

  /** A request in flight arrived once. */
  lemma SameArrival(h: History, a: nat, b: nat, e: nat, t: ReqId, job: Job, p: Principal)
    requires IsHistory(h) && a < e && b < e
    requires SameRequest(h, a + 1, e, t, job, p) && SameRequest(h, b + 1, e, t, job, p)
    requires h.labels[a].Arrive? && h.labels[a].t == t && h.labels[b].Arrive? && h.labels[b].t == t
    ensures a == b
  {
    hide Do, Initial, Who, CanDo;
    assert NextAt(h, a) && NextAt(h, b);
    assert !InFlight(h.states[a], t, job, p) && !InFlight(h.states[b], t, job, p);
  }

  /** An enrolment that marks an unverified session looked at the factor status at step `g` and
      found no factor. By the time it commits its own factor (step `e`) the user already has one
      exactly when another enrolment for the user committed in between and the user has not
      been left without a factor since. */
  lemma LateEnrolmentIff(h: History, i: nat) returns (a: nat, g: nat, e: nat)
    requires IsHistory(h) && i < |h.labels| && h.labels[i].SetMark? && h.labels[i].t in h.states[i].reqs
    requires h.states[i].reqs[h.labels[i].t].job.ConfirmJob? || h.states[i].reqs[h.labels[i].t].job.RegisterJob?
    requires !Verified(h.states[i].state, h.states[i].reqs[h.labels[i].t].p.session)
    ensures a < g < e < i
    ensures
      var t, r := h.labels[i].t, h.states[i].reqs[h.labels[i].t];
      && h.labels[a] == Arrive(t, r.p.session, r.job) && SameRequest(h, a + 1, i, t, r.job, r.p)
      && h.labels[g] == Guard(t) && !HasPrimary(h.states[g].state, r.p.user)
      && Enrols(h.states[e], h.labels[e], t)
      && (HasPrimary(h.states[e].state, r.p.user) <==> Overtaken(h, g, e, t, r.p.user))
  {
    hide Can, Do, Initial, HasPrimary, PrincipalOf;
    var t, r := h.labels[i].t, h.states[i].reqs[h.labels[i].t];
    JobOfMark(h, i);
    a, g, e := WhereEnrolled(h, i, t);
    SessionOfPrincipal(h.states[a].state, r.p.session);
    StillVerified(h, a, i, r.p.session);
    assert InFlight(h.states[g], t, r.job, r.p);
    OvertakenIff(h, g, e, t, r);
  }

  lemma OvertakenIff(h: History, g: nat, e: nat, t: ReqId, r: Req)
    requires IsHistory(h) && g < e < |h.labels| && SameRequest(h, g, e, t, r.job, r.p)
    requires Enrols(h.states[e], h.labels[e], t) && !HasPrimary(h.states[g].state, r.p.user)
    ensures HasPrimary(h.states[e].state, r.p.user) <==> Overtaken(h, g, e, t, r.p.user)
  {
    hide Can, Do, Initial, HasPrimary;
    var u := r.p.user;
    var on := (n: nat) => n < |h.states| && HasPrimary(h.states[n].state, u);
    var up, down := (k: nat) => OtherEnrols(h, k, t, u), (k: nat) => LosesFactor(h, k, u);
    forall n: nat | g <= n < e ensures on(n + 1) <==> up(n) || (on(n) && !down(n)) {
      assert NextAt(h, n);
      if on(n + 1) && !on(n) {
        BecomesPrimary(h.states[n], h.labels[n], u);
        NotYetEnrolled(h, n, e, t, r);
      }
    }
    FlagSince(g, e, on, up, down);
  }

  /** Before its enrolling commit the request itself commits none. */
  lemma NotYetEnrolled(h: History, n: nat, e: nat, t: ReqId, r: Req)
    requires IsHistory(h) && n < e < |h.labels|
    requires SameRequest(h, n, e, t, r.job, r.p) && Enrols(h.states[e], h.labels[e], t)
    ensures !Enrols(h.states[n], h.labels[n], t)
  {
    hide Can, Do, Initial, PastEnrolment;
    assert NextAt(h, n) && NextAt(h, e);
    EnrolmentIsOnce(h.states[e], h.labels[e], t);
    if Enrols(h.states[n], h.labels[n], t) {
      EnrolmentIsOnce(h.states[n], h.labels[n], t);
      assert SameRequest(h, n + 1, e, t, r.job, r.p);
      StillEnrolled(h, n + 1, e, t, r.job, r.p);
    }
  }

  // ----- Recovery codes -----

  /** However verifications, regenerations and enrolments interleave: a code whose use commits
      was issued to this very user (step `k`), and since then no other use of it has committed and
      no committed regeneration or reset has deleted its row. */
  lemma RecoveryCodesWorkOnce(h: History, i: nat) returns (k: nat)
    requires IsHistory(h) && i < |h.labels| && h.labels[i].CommitSpent? && h.labels[i].t in h.states[i].reqs
    requires h.states[i].reqs[h.labels[i].t].job.RecoveryJob?
    ensures
      var r := h.states[i].reqs[h.labels[i].t];
      && k < i && Issues(h.states[k], h.labels[k], r.p.user, r.job.digest)
      && forall m :: k < m < i ==> !Cancels(h.states[m], h.labels[m], r.p.user, r.job.digest)
  {
    hide Do, Initial, CanDo, UnusedIn;
    var t, r := h.labels[i].t, h.states[i].reqs[h.labels[i].t];
    var u, d := r.p.user, r.job.digest;
    assert NextAt(h, i);
    CanIssue(h.states[i], h.labels[i]);
    InvThroughout(h, i);
    assert Held(h.states[i], t);
    NoCodesAtFirst(h.states[0].state, u);
    k := CodeMadeSince(h, i, u, d);
  }

  lemma NoCodesAtFirst(st: State, u: Id)
    requires Initial(st)
    ensures Unused(st, u) == {}
  {
  }

  lemma CodeMadeSince(h: History, i: nat, u: Id, d: Hash) returns (k: nat)
    requires IsHistory(h) && i < |h.states| && d in Unused(h.states[i].state, u) && Unused(h.states[0].state, u) == {}
    ensures k < i && Issues(h.states[k], h.labels[k], u, d)
    ensures forall m :: k < m < i ==> !Cancels(h.states[m], h.labels[m], u, d)
  {
    hide Can, Do, Initial, Unused, Issues, Cancels;
    var on := (n: nat) => n < |h.states| && d in Unused(h.states[n].state, u);
    var makes := (n: nat) => n < |h.labels| && n < |h.states| && Issues(h.states[n], h.labels[n], u, d);
    var removes := (n: nat) => n < |h.labels| && n < |h.states| && Cancels(h.states[n], h.labels[n], u, d);
    forall n: nat | 0 <= n < i && on(n + 1) ensures makes(n) || (on(n) && !removes(n)) {
      assert NextAt(h, n);
      CodeStep(h.states[n], h.labels[n], u, d);
    }
    k := Runs.MadeSince(0, i, on, makes, removes);
    forall m | k < m < i ensures !Cancels(h.states[m], h.labels[m], u, d) {
      assert !removes(m);
    }
  }

  /** Two uses of one code by one user: it was issued again in between. */
  lemma NoCodeTwice(h: History, i: nat, j: nat) returns (k: nat)
    requires IsHistory(h) && i < j < |h.labels| && h.labels[i].CommitSpent? && h.labels[j].CommitSpent?
    requires h.labels[i].t in h.states[i].reqs && h.labels[j].t in h.states[j].reqs
    requires h.states[i].reqs[h.labels[i].t].job == h.states[j].reqs[h.labels[j].t].job
    requires h.states[i].reqs[h.labels[i].t].p.user == h.states[j].reqs[h.labels[j].t].p.user
    requires h.states[j].reqs[h.labels[j].t].job.RecoveryJob?
    ensures i < k < j
    ensures
      var r := h.states[j].reqs[h.labels[j].t];
      Issues(h.states[k], h.labels[k], r.p.user, r.job.digest)
  {
    hide Can, Do, Initial;
    k := RecoveryCodesWorkOnce(h, j);
    var r := h.states[j].reqs[h.labels[j].t];
    assert Cancels(h.states[i], h.labels[i], r.p.user, r.job.digest);
  }

  // ----- Ceremonies -----

  /** The step takes ceremony `c`, or stores it anew. */
  ghost predicate Touches(s: Sys, l: Label, c: Hash) {
    || (l.Take? && l.t in s.reqs && (s.reqs[l.t].job == RegisterJob(c) || s.reqs[l.t].job == AssertJob(c)))
    || (l.Store? && l.t in s.reqs && s.reqs[l.t].job.StartKeyJob? && s.reqs[l.t].job.c == c)
  }

  /** The step stores this very ceremony. */
  ghost predicate Begins(s: Sys, l: Label, c: Hash, cer: Ceremony) {
    && l.Store? && l.t in s.reqs && s.reqs[l.t].job == StartKeyJob(c, cer.kind) && s.reqs[l.t].p.user == cer.user
    && cer.expires == s.state.now + CEREMONY_TTL
  }

  predicate Has(st: State, c: Hash, cer: Ceremony) {
    c in st.ceremonies && st.ceremonies[c] == cer
  }

  lemma CeremonyStep(s: Sys, l: Label, c: Hash, cer: Ceremony)
    requires Can(s, l) && Has(Do(s, l).state, c, cer)
    ensures Begins(s, l, c, cer) || (Has(s.state, c, cer) && !Touches(s, l, c))
  {
    hide Do, Enabled, CanDo, After;
    if l.World? {
      WorldDoes(s, l);
      WorldCeremonies(s.state, l.e);
    } else if l.Arrive? || l.Abandon? {
      OthersTables(s, l);
    } else {
      OwnTables(s, l);
      StoresNew(s, l);
    }
  }

  lemma StoresNew(s: Sys, l: Label)
    requires !l.World? && !l.Arrive? && !l.Abandon? && l.t in s.reqs && CanDo(s, l, s.reqs[l.t])
    ensures l.Store? ==> s.reqs[l.t].job.StartTotpJob? || s.reqs[l.t].job.StartKeyJob?
  {
    hide Free, Unused, CodesOf, CredentialsOf;
  }

  predicate HasTaken(s: Sys, t: ReqId, cer: Ceremony) {
    t in s.reqs && (s.reqs[t].stage == Taken(cer) || s.reqs[t].stage == Loaded(cer))
  }

  lemma BecomesTaken(s: Sys, l: Label, t: ReqId, cer: Ceremony)
    requires Can(s, l) && t in s.reqs && HasTaken(Do(s, l), t, cer) && !HasTaken(s, t, cer)
    ensures l == Take(t) && (s.reqs[t].job.RegisterJob? || s.reqs[t].job.AssertJob?)
    ensures Has(s.state, s.reqs[t].job.c, cer) && s.state.now < cer.expires
  {
    hide Do, Can, HasPrimary, ValidCode, MayLoad, CredentialsOf, Unused, TotpOn, Free, CodesOf;
    OwnStage(s, l, t);
  }

  /** However requests interleave, a credential is added or an assertion accepted (step `i`) only
      on a ceremony that the same request took (step `q`), that was begun by the same user for
      the same purpose less than five minutes before it was taken (step `b`), and that nobody
      had taken or begun again in between: one begin, at most one use. */
  lemma CeremonyServesItsOwner(h: History, i: nat) returns (b: nat, q: nat)
    requires IsHistory(h) && i < |h.labels| && (h.labels[i].Insert? || h.labels[i].Note?)
    ensures h.labels[i].t in h.states[i].reqs && b < q < i
    ensures
      var t, r := h.labels[i].t, h.states[i].reqs[h.labels[i].t];
      && (r.job.RegisterJob? || r.job.AssertJob?) && h.labels[q] == Take(t)
      && SameRequest(h, q, i, t, r.job, r.p)
      && h.labels[b].Store? && h.labels[b].t in h.states[b].reqs
      && (var o := h.states[b].reqs[h.labels[b].t];
          && o.p.user == r.p.user && o.job.StartKeyJob? && o.job.c == r.job.c
          && (o.job.kind == SignIn <==> h.labels[i].Note?))
      && h.states[q].state.now < h.states[b].state.now + 300_000_000
      && (forall m :: b < m < q ==> !Touches(h.states[m], h.labels[m], r.job.c))
  {
    hide Do, Initial, Who, Touches, Begins;
    var t := h.labels[i].t;
    assert NextAt(h, i);
    Finishes(h.states[i], h.labels[i]);
    StagesFit(h, i, t);
    var r := h.states[i].reqs[t];
    q := WhereTaken(h, i, t, r.stage.cer);
    NoCeremonyAtFirst(h.states[0].state);
    b := WhereBegun(h, q, r.job.c, r.stage.cer);
    assert Begins(h.states[b], h.labels[b], r.job.c, r.stage.cer);
    BeginTime(h.states[b], h.labels[b], r.job.c, r.stage.cer);
  }

  lemma BeginTime(s: Sys, l: Label, c: Hash, cer: Ceremony)
    requires Begins(s, l, c, cer)
    ensures cer.expires == s.state.now + CEREMONY_TTL
    ensures l.Store? && l.t in s.reqs && s.reqs[l.t].p.user == cer.user && s.reqs[l.t].job == StartKeyJob(c, cer.kind)
  {
  }

  lemma NoCeremonyAtFirst(st: State)
    requires Initial(st)
    ensures st.ceremonies == map[]
  {
  }

  lemma Finishes(s: Sys, l: Label)
    requires Can(s, l) && (l.Insert? || l.Note?)
    ensures l.t in s.reqs && s.reqs[l.t].stage.Loaded?
    ensures if l.Insert? then s.reqs[l.t].job.RegisterJob? else s.reqs[l.t].job.AssertJob?
  {
    hide CredentialsOf;
  }

  lemma WhereTaken(h: History, i: nat, t: ReqId, cer: Ceremony) returns (q: nat)
    requires IsHistory(h) && i < |h.states| && HasTaken(h.states[i], t, cer)
    requires h.states[i].reqs[t].job.RegisterJob? || h.states[i].reqs[t].job.AssertJob?
    ensures q < i && q < |h.labels| && h.labels[q] == Take(t)
    ensures SameRequest(h, q, i, t, h.states[i].reqs[t].job, h.states[i].reqs[t].p)
    ensures Has(h.states[q].state, h.states[i].reqs[t].job.c, cer) && h.states[q].state.now < cer.expires
  {
    hide Can, Do, Initial, Who, Has;
    var job, p := h.states[i].reqs[t].job, h.states[i].reqs[t].p;
    var a := WhereArrived(h, i, t);
    assert NextAt(h, a);
    ArrivalIsFresh(h.states[a], h.labels[a]);
    var on := (n: nat) => n < |h.states| && HasTaken(h.states[n], t, cer);
    q := RaisedAt(a + 1, i, on);
    assert !on(q) && on(q + 1);
    assert NextAt(h, q) && InFlight(h.states[q], t, job, p);
    BecomesTaken(h.states[q], h.labels[q], t, cer);
  }

  lemma WhereBegun(h: History, q: nat, c: Hash, cer: Ceremony) returns (b: nat)
    requires IsHistory(h) && q < |h.states| && Has(h.states[q].state, c, cer) && h.states[0].state.ceremonies == map[]
    ensures b < q && Begins(h.states[b], h.labels[b], c, cer)
    ensures forall m :: b < m < q ==> !Touches(h.states[m], h.labels[m], c)
  {
    hide Can, Do, Initial, Touches, Begins;
    var on := (n: nat) => n < |h.states| && Has(h.states[n].state, c, cer);
    var makes := (n: nat) => n < |h.labels| && n < |h.states| && Begins(h.states[n], h.labels[n], c, cer);
    var removes := (n: nat) => n < |h.labels| && n < |h.states| && Touches(h.states[n], h.labels[n], c);
    forall n: nat | 0 <= n < q && on(n + 1) ensures makes(n) || (on(n) && !removes(n)) {
      assert NextAt(h, n);
      CeremonyStep(h.states[n], h.labels[n], c, cer);
    }
    b := Runs.MadeSince(0, q, on, makes, removes);
    forall m | b < m < q ensures !Touches(h.states[m], h.labels[m], c) {
      assert !removes(m);
    }
  }
}
