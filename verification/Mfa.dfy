/**
  Second factors, recovery codes and session assurance as a state machine. One step is one
  handler of backend/internal/httpapi/mfa.go (or an administrator's change), run without
  interruption but possibly stopping half-way, as each of its statements commits by itself.
 */
module Mfa {
  import opened Accounts
  import Runs

  datatype Secret = Secret(n: nat)

  /** A WebAuthn credential ID. */
  datatype Handle = Handle(n: nat)

  datatype Totp = Totp(secret: Secret, active: bool)

  datatype Credential = Credential(user: Id, handle: Handle, discoverable: bool)

  datatype Kind = SecurityKey | Passkey | SignIn

  datatype Ceremony = Ceremony(user: Id, kind: Kind, expires: Time)

  /** `totpValid` is the RFC 6238 check of a code against a secret at a time. */
  datatype State = State(
    totpValid: (Secret, string, Time) -> bool,
    now: Time,
    users: map<Id, User>,
    sessions: map<Hash, Session>,
    policy: Policy,
    totp: map<Id, Totp>,
    credentials: map<Id, Credential>,
    enrolled: set<Id>,
    codes: map<Id, map<Hash, bool>>,
    ceremonies: map<Hash, Ceremony>)

  const CODES := 10
  const CEREMONY_TTL: Time := 5 * MINUTE

  function Who(s: State, h: Hash): Option<Principal> {
    PrincipalOf(s.users, s.sessions, h, s.now)
  }

  predicate TotpOn(s: State, u: Id) {
    u in s.totp && s.totp[u].active
  }

  function CredentialsOf(s: State, u: Id): set<Id> {
    set c | c in s.credentials && s.credentials[c].user == u
  }

  predicate HasPrimary(s: State, u: Id) {
    TotpOn(s, u) || CredentialsOf(s, u) != {}
  }

  /** The user's recovery codes by digest; true when used. */
  function CodesOf(s: State, u: Id): map<Hash, bool> {
    if u in s.codes then s.codes[u] else map[]
  }

  function UnusedIn(rows: map<Hash, bool>): set<Hash> {
    set h | h in rows && !rows[h]
  }

  function Unused(s: State, u: Id): set<Hash> {
    UnusedIn(CodesOf(s, u))
  }

  function Verified(s: State, h: Hash): bool {
    h in s.sessions && s.sessions[h].mfaVerified
  }

  /** allowMFAMutation for a live session. */
  predicate MayMutate(s: State, h: Hash) {
    Who(s, h).Some? && (HasPrimary(s, Who(s, h).value.user) ==> Who(s, h).value.mfaVerified)
  }

  function Issue(rows: map<Hash, bool>, issued: set<Hash>): map<Hash, bool> {
    rows + map h | h in issued :: false
  }

  /** An outcome of finishing a registration whose ceremony was taken: nothing, or a new
      credential row, then recovery codes if the user had none left, then the session mark.
      Without `issued` the codes could not be written. */
  datatype Registration = Dropped | Added(row: Id, credential: Credential, issued: Option<set<Hash>>, marked: bool)

  datatype Step =
    | Tick(to: Time)
    | Administer(users: map<Id, User>, policy: Policy)
    | Login(h: Hash, u: Id, expires: Time)
    | EndSessions(ended: set<Hash>)
    | Reset(u: Id)
    | BeginTotp(h: Hash, secret: Secret)
    | ConfirmTotp(h: Hash, code: string, issued: set<Hash>, marked: bool)
    | DisableTotp(h: Hash)
    | Regenerate(h: Hash, issued: set<Hash>)
    | Prepare(h: Hash)
    | Begin(h: Hash, c: Hash, kind: Kind)
    | FinishRegistration(h: Hash, c: Hash, result: Registration)
    | DeleteCredential(h: Hash, row: Id)
    | VerifyTotp(h: Hash, code: string, marked: bool)
    | UseRecovery(h: Hash, digest: Hash, marked: bool)
    | FinishLogin(h: Hash, c: Hash, used: Option<Id>, marked: bool)

  /** The session through which a self-service step is taken. */
  function By(e: Step): Option<Hash> {
    match e
    case Tick(_) => None
    case Administer(_, _) => None
    case Login(_, _, _) => None
    case EndSessions(_) => None
    case Reset(_) => None
    case _ => Some(e.h)
  }

  predicate Acts(s: State, e: Step, u: Id) {
    By(e).Some? && Who(s, By(e).value).Some? && Who(s, By(e).value).value.user == u
  }

  /** withPrincipal: the principal a protected handler gets to see. */
  function Admitted(s: State, h: Hash): Option<Principal> {
    match Who(s, h)
    case None => None
    case Some(p) => if Required(s.policy, p.user, None) && !p.mfaVerified then None else Some(p)
  }

  // ----- when a step happens -----

  predicate Live(s: State, c: Hash) {
    c in s.ceremonies && s.now < s.ceremonies[c].expires
  }

  predicate ValidCode(s: State, u: Id, code: string) {
    u in s.totp && s.totpValid(s.totp[u].secret, code, s.now)
  }

  predicate Registers(s: State, u: Id, c: Hash, r: Registration) {
    match r
    case Dropped => true
    case Added(row, credential, issued, marked) =>
      && c in s.ceremonies && s.ceremonies[c].user == u && !s.ceremonies[c].kind.SignIn?
      && u in s.enrolled && row !in s.credentials && credential.user == u
      && (forall other :: other in s.credentials ==> s.credentials[other].handle != credential.handle)
      && (issued.Some? ==> |issued.value| == if Unused(s, u) == {} then CODES else 0)
      && (marked ==> issued.Some?)
  }

  predicate Removable(s: State, u: Id, row: Id) {
    && row in CredentialsOf(s, u)
    && (Required(s.policy, u, None) ==> TotpOn(s, u) || |CredentialsOf(s, u)| > 1)
  }

  predicate Enabled(s: State, e: Step) {
    if By(e).Some? then
      Who(s, e.h).Some? && EnabledFor(s, e, Who(s, e.h).value.user)
    else
      match e
      case Tick(to) => s.now <= to
      case Login(h, u, expires) => h !in s.sessions && u in s.users && s.users[u].active
      case _ => true
  }

  /** `u` is the user of the session. */
  predicate EnabledFor(s: State, e: Step, u: Id) {
    match e
    case BeginTotp(h, secret) => MayMutate(s, h) && !TotpOn(s, u)
    case ConfirmTotp(h, code, issued, marked) =>
      && MayMutate(s, h) && ValidCode(s, u, code)
      && issued !! CodesOf(s, u).Keys
      && |issued| == if Unused(s, u) == {} then CODES else 0
    case DisableTotp(h) =>
      MayMutate(s, h) && u in s.totp && (Required(s.policy, u, None) ==> CredentialsOf(s, u) != {})
    case Regenerate(h, issued) => HasPrimary(s, u) && Verified(s, h) && |issued| == CODES
    case Prepare(h) => MayMutate(s, h)
    case Begin(h, c, kind) => if kind.SignIn? then u in s.enrolled && CredentialsOf(s, u) != {} else MayMutate(s, h)
    case FinishRegistration(h, c, r) => MayMutate(s, h) && Live(s, c) && Registers(s, u, c, r)
    case DeleteCredential(h, row) => MayMutate(s, h) && Removable(s, u, row)
    case VerifyTotp(h, code, marked) => TotpOn(s, u) && ValidCode(s, u, code)
    case UseRecovery(h, digest, marked) => digest in Unused(s, u)
    case FinishLogin(h, c, used, marked) =>
      && Live(s, c) && (marked ==> used.Some?)
      && (used.Some? ==>
            && s.ceremonies[c].user == u && s.ceremonies[c].kind.SignIn?
            && u in s.enrolled && used.value in CredentialsOf(s, u))
    case _ => true
  }

  // ----- what it changes -----

  /** markSessionMFAVerified. */
  function Mark(sessions: map<Hash, Session>, h: Hash, marked: bool): map<Hash, Session> {
    if marked && h in sessions then sessions[h := sessions[h].(mfaVerified := true)] else sessions
  }

  function End(sessions: map<Hash, Session>, ended: set<Hash>): map<Hash, Session> {
    map h | h in sessions :: if h in ended then sessions[h].(revoked := true) else sessions[h]
  }

  function SessionsOf(s: State, u: Id): set<Hash> {
    set h | h in s.sessions && s.sessions[h].user == u
  }

  function Cleared(s: State, u: Id): State {
    s.(totp := s.totp - {u}, codes := s.codes - {u}, credentials := s.credentials - CredentialsOf(s, u),
       enrolled := s.enrolled - {u}, sessions := End(s.sessions, SessionsOf(s, u)))
  }

  function Registered(s: State, h: Hash, u: Id, r: Registration): State {
    match r
    case Dropped => s
    case Added(row, credential, issued, marked) =>
      s.(credentials := s.credentials[row := credential],
         codes := if issued == None || issued.value == {} then s.codes else s.codes[u := Issue(map[], issued.value)],
         sessions := Mark(s.sessions, h, marked))
  }

  function After(s: State, e: Step): State {
    if By(e).Some? then
      if Who(s, e.h).None? then s else AfterBy(s, e, Who(s, e.h).value.user)
    else
      match e
      case Tick(to) => s.(now := to)
      case Administer(users, policy) => s.(users := users, policy := policy)
      case Login(h, u, expires) => s.(sessions := s.sessions[h := Session(u, expires, false, false)])
      case EndSessions(ended) => s.(sessions := End(s.sessions, ended))
      case Reset(u) => Cleared(s, u)
      case _ => s
  }

  function AfterBy(s: State, e: Step, u: Id): State {
    match e
    case BeginTotp(h, secret) => s.(totp := s.totp[u := Totp(secret, false)])
    case ConfirmTotp(h, code, issued, marked) =>
      if u !in s.totp then s
      else s.(totp := s.totp[u := s.totp[u].(active := true)],
              codes := s.codes[u := Issue(CodesOf(s, u), issued)],
              sessions := Mark(s.sessions, h, marked))
    case DisableTotp(h) => s.(totp := s.totp - {u})
    case Regenerate(h, issued) => s.(codes := s.codes[u := Issue(map[], issued)])
    case Prepare(h) => s.(enrolled := s.enrolled + {u})
    case Begin(h, c, kind) =>
      s.(ceremonies := s.ceremonies[c := Ceremony(u, kind, s.now + CEREMONY_TTL)],
         enrolled := if kind.SignIn? then s.enrolled else s.enrolled + {u})
    case FinishRegistration(h, c, r) => Registered(s.(ceremonies := s.ceremonies - {c}), h, u, r)
    case DeleteCredential(h, row) => s.(credentials := s.credentials - {row})
    case VerifyTotp(h, code, marked) => s.(sessions := Mark(s.sessions, h, marked))
    case UseRecovery(h, digest, marked) =>
      s.(codes := s.codes[u := CodesOf(s, u)[digest := true]], sessions := Mark(s.sessions, h, marked))
    case FinishLogin(h, c, used, marked) =>
      s.(ceremonies := s.ceremonies - {c}, sessions := Mark(s.sessions, h, marked))
    case _ => s
  }

  // ----- runs -----

  datatype Run = Run(states: seq<State>, steps: seq<Step>)

  ghost predicate Initial(s: State) {
    s.sessions == map[] && s.totp == map[] && s.credentials == map[] && s.codes == map[] && s.ceremonies == map[]
  }

  ghost predicate StepAt(r: Run, i: nat)
    requires i < |r.steps| < |r.states|
  {
    Enabled(r.states[i], r.steps[i]) && r.states[i + 1] == After(r.states[i], r.steps[i])
  }

  ghost predicate IsRun(r: Run) {
    && |r.states| == |r.steps| + 1
    && Initial(r.states[0])
    && forall i :: 0 <= i < |r.steps| ==> StepAt(r, i)
  }

  /** Something absent at `from` and present at `i` was made by a step in between, and nothing
      since then has removed it. */
  lemma MadeSince(
      r: Run, from: nat, i: nat, present: State -> bool, makes: (State, Step) -> bool, removes: (State, Step) -> bool)
      returns (k: nat)
    requires IsRun(r) && from <= i < |r.states| && !present(r.states[from]) && present(r.states[i])
    requires forall s, e :: Enabled(s, e) && present(After(s, e)) ==> makes(s, e) || (present(s) && !removes(s, e))
    ensures from <= k < i && makes(r.states[k], r.steps[k])
    ensures forall m :: k < m < i ==> !removes(r.states[m], r.steps[m])
  {
    var on := (n: nat) => n < |r.states| && present(r.states[n]);
    var made := (n: nat) => n < |r.steps| && n < |r.states| && makes(r.states[n], r.steps[n]);
    var removed := (n: nat) => n < |r.steps| && n < |r.states| && removes(r.states[n], r.steps[n]);
    forall n: nat | from <= n < i && on(n + 1) ensures made(n) || (on(n) && !removed(n)) {
      assert StepAt(r, n);
    }
    k := Runs.MadeSince(from, i, on, made, removed);
    forall m | k < m < i ensures !removes(r.states[m], r.steps[m]) {
      assert !removed(m);
    }
  }

  // ----- session assurance -----

  /** Through session h, its own user has shown a factor or a recovery code they already had. */
  ghost predicate Proves(s: State, e: Step, h: Hash, u: Id) {
    && Acts(s, e, u) && By(e).value == h
    && match e
       case VerifyTotp(_, code, marked) => marked && TotpOn(s, u) && s.totpValid(s.totp[u].secret, code, s.now)
       case UseRecovery(_, digest, marked) => marked && digest in Unused(s, u)
       case FinishLogin(_, c, used, marked) =>
         && marked && used.Some? && used.value in CredentialsOf(s, u)
         && c in s.ceremonies && s.ceremonies[c].user == u && s.ceremonies[c].kind.SignIn?
         && s.now < s.ceremonies[c].expires
       case _ => false
  }

  /** Through session h, its own user has enrolled a factor, having had none. */
  ghost predicate EnrolsFirst(s: State, e: Step, h: Hash, u: Id) {
    && Acts(s, e, u) && By(e).value == h && !HasPrimary(s, u)
    && (e.ConfirmTotp? || (e.FinishRegistration? && e.result.Added?))
    && HasPrimary(After(s, e), u)
  }

  ghost predicate VerifiedFor(s: State, h: Hash, u: Id) {
    Verified(s, h) && s.sessions[h].user == u
  }

  lemma VerificationHasCause(s: State, e: Step, h: Hash, u: Id)
    requires Enabled(s, e) && VerifiedFor(After(s, e), h, u) && !VerifiedFor(s, h, u)
    ensures Proves(s, e, h, u) || EnrolsFirst(s, e, h, u)
  {
    hide Issue, CodesOf, Required, Removable;
    if By(e).Some? {
      var v := Who(s, e.h).value.user;
      match e
      case ConfirmTotp(_, _, _, _) =>
        assert TotpOn(After(s, e), v);
      case FinishRegistration(_, _, Added(row, _, _, _)) =>
        assert row in CredentialsOf(After(s, e), v);
      case _ =>
    }
  }

  /** No session is ever MFA-verified except through a factor or recovery code of its own user,
      or through the enrolment of that user's first factor. */
  lemma AssuranceIsEarned(r: Run, i: nat, h: Hash) returns (k: nat)
    requires IsRun(r) && i < |r.states| && Verified(r.states[i], h)
    ensures k < i
    ensures var u := r.states[i].sessions[h].user;
            Proves(r.states[k], r.steps[k], h, u) || EnrolsFirst(r.states[k], r.steps[k], h, u)
  {
    var u := r.states[i].sessions[h].user;
    k := EarnedSince(r, 0, i, h, u);
  }

  lemma EarnedSince(r: Run, from: nat, i: nat, h: Hash, u: Id) returns (k: nat)
    requires IsRun(r) && from <= i < |r.states| && !VerifiedFor(r.states[from], h, u) && VerifiedFor(r.states[i], h, u)
    ensures from <= k < i
    ensures Proves(r.states[k], r.steps[k], h, u) || EnrolsFirst(r.states[k], r.steps[k], h, u)
  {
    ghost var present := (s: State) => VerifiedFor(s, h, u);
    ghost var makes := (s: State, e: Step) => Proves(s, e, h, u) || EnrolsFirst(s, e, h, u);
    forall s, e | Enabled(s, e) && present(After(s, e)) && !present(s) ensures makes(s, e) {
      VerificationHasCause(s, e, h, u);
    }
    k := MadeSince(r, from, i, present, makes, (s, e) => false);
  }

  /** Where policy asks for a second factor, a request gets through only on such a proof,
      made earlier through the same session. */
  lemma AdmissionIsEarned(r: Run, i: nat, h: Hash) returns (k: nat)
    requires IsRun(r) && i < |r.states| && Admitted(r.states[i], h).Some?
    requires Required(r.states[i].policy, Admitted(r.states[i], h).value.user, None)
    ensures k < i
    ensures var u := Admitted(r.states[i], h).value.user;
            Proves(r.states[k], r.steps[k], h, u) || EnrolsFirst(r.states[k], r.steps[k], h, u)
  {
    k := AssuranceIsEarned(r, i, h);
  }

  /** While the user keeps some factor, an unverified session gets verified only by proving
      one, or a recovery code, through that very session. */
  lemma FactorMustBeProved(r: Run, j: nat, i: nat, h: Hash, u: Id) returns (k: nat)
    requires IsRun(r) && j <= i < |r.states|
    requires !Verified(r.states[j], h) && VerifiedFor(r.states[i], h, u)
    requires forall m :: j <= m < i ==> HasPrimary(r.states[m], u)
    ensures j <= k < i && Proves(r.states[k], r.steps[k], h, u)
  {
    k := EarnedSince(r, j, i, h, u);
  }

  // ----- revoked sessions -----

  /** Revoked sessions stay so and never stand for anybody again. */
  lemma {:induction false} RevokedForever(r: Run, i: nat, j: nat, h: Hash)
    requires IsRun(r) && i <= j < |r.states| && h in r.states[i].sessions && r.states[i].sessions[h].revoked
    ensures h in r.states[j].sessions && r.states[j].sessions[h].revoked && Who(r.states[j], h).None?
    decreases j
  {
    if i < j {
      RevokedForever(r, i, j - 1, h);
      assert StepAt(r, j - 1);
      RevocationKept(r.states[j - 1], r.steps[j - 1], h);
    }
  }

  lemma SessionsStep(s: State, e: Step)
    ensures var now := After(s, e).sessions;
            match e
            case Login(h, u, expires) => now == s.sessions[h := Session(u, expires, false, false)]
            case EndSessions(ended) => now == End(s.sessions, ended)
            case Reset(u) => now == End(s.sessions, SessionsOf(s, u))
            case _ => now == s.sessions || (By(e).Some? && now == Mark(s.sessions, e.h, true))
  {
    hide PrincipalOf, End, CredentialsOf, SessionsOf, Issue, CodesOf, Required;
  }

  lemma RevocationKept(s: State, e: Step, h: Hash)
    requires Enabled(s, e) && h in s.sessions && s.sessions[h].revoked
    ensures h in After(s, e).sessions && After(s, e).sessions[h].revoked
  {
    hide After, EnabledFor, PrincipalOf;
    SessionsStep(s, e);
  }

  // ----- ceremonies -----

  ghost predicate Takes(s: State, e: Step, c: Hash) {
    (e.FinishRegistration? || e.FinishLogin?) && e.c == c
  }

  ghost predicate Begins(s: State, e: Step, c: Hash, cer: Ceremony) {
    && e.Begin? && e.c == c && e.kind == cer.kind && cer.expires == s.now + CEREMONY_TTL && Acts(s, e, cer.user)
  }

  /** A ceremony that finishes was begun by the same user and for the same purpose less than
      five minutes ago, and neither taken nor begun again since: one begin, at most one use. */
  lemma CeremonyServesItsOwner(r: Run, i: nat, c: Hash, u: Id) returns (k: nat)
    requires IsRun(r) && i < |r.steps| && Takes(r.states[i], r.steps[i], c) && Acts(r.states[i], r.steps[i], u)
    ensures k < i && r.steps[k].Begin? && r.steps[k].c == c
    ensures r.states[i].now < r.states[k].now + 300_000_000
    ensures forall m :: k < m < i ==> !Takes(r.states[m], r.steps[m], c) && !(r.steps[m].Begin? && r.steps[m].c == c)
    ensures r.steps[i].FinishLogin? && r.steps[i].used.Some? ==>
        r.steps[k].kind.SignIn? && Acts(r.states[k], r.steps[k], u)
    ensures r.steps[i].FinishRegistration? && r.steps[i].result.Added? ==>
        !r.steps[k].kind.SignIn? && Acts(r.states[k], r.steps[k], u)
  {
    assert StepAt(r, i);
    var cer := r.states[i].ceremonies[c];
    ghost var present := (s: State) => c in s.ceremonies && s.ceremonies[c] == cer;
    ghost var makes := (s: State, e: Step) => Begins(s, e, c, cer);
    ghost var removes := (s: State, e: Step) => Takes(s, e, c) || (e.Begin? && e.c == c);
    forall s, e | Enabled(s, e) && present(After(s, e)) ensures makes(s, e) || (present(s) && !removes(s, e)) {
      CeremonyStep(s, e, c, cer);
    }
    k := MadeSince(r, 0, i, present, makes, removes);
  }

  lemma CeremonyStep(s: State, e: Step, c: Hash, cer: Ceremony)
    requires Enabled(s, e) && c in After(s, e).ceremonies && After(s, e).ceremonies[c] == cer
    ensures
      || Begins(s, e, c, cer)
      || (c in s.ceremonies && s.ceremonies[c] == cer && !Takes(s, e, c) && !(e.Begin? && e.c == c))
  {
    hide After, Enabled, PrincipalOf, Begins;
    if By(e).Some? {
      HasActor(s, e);
      OwnAfter(s, e, Who(s, By(e).value).value.user);
      OwnCeremonies(s, e, Who(s, By(e).value).value.user, c, cer);
    } else {
      WorldCeremonies(s, e);
    }
  }

  lemma HasActor(s: State, e: Step)
    requires Enabled(s, e) && By(e).Some?
    ensures Who(s, By(e).value).Some? && Acts(s, e, Who(s, By(e).value).value.user)
  {
    hide EnabledFor, PrincipalOf;
  }

  lemma OwnCeremonies(s: State, e: Step, u: Id, c: Hash, cer: Ceremony)
    requires Acts(s, e, u) && c in AfterBy(s, e, u).ceremonies && AfterBy(s, e, u).ceremonies[c] == cer
    ensures
      || Begins(s, e, c, cer)
      || (c in s.ceremonies && s.ceremonies[c] == cer && !Takes(s, e, c) && !(e.Begin? && e.c == c))
  {
    hide PrincipalOf, Mark, Issue, CodesOf;
  }

  lemma WorldCeremonies(s: State, e: Step)
    requires By(e) == None
    ensures After(s, e).ceremonies == s.ceremonies
  {
    hide End, SessionsOf, CredentialsOf;
  }

  // ----- recovery codes -----

  ghost predicate Issues(s: State, e: Step, u: Id, digest: Hash) {
    && Acts(s, e, u)
    && match e
       case ConfirmTotp(_, _, issued, _) => digest in issued
       case Regenerate(_, issued) => digest in issued
       case FinishRegistration(_, _, Added(_, _, Some(issued), _)) => digest in issued
       case _ => false
  }

  /** The code is spent, or all the user's codes are thrown away. */
  ghost predicate Cancels(s: State, e: Step, u: Id, digest: Hash) {
    match e
    case UseRecovery(_, d, _) => Acts(s, e, u) && d == digest
    case Regenerate(_, _) => Acts(s, e, u)
    case Reset(v) => v == u
    case _ => false
  }

  /** A recovery code that works was issued to this very user, and since then neither spent nor
      replaced: no code succeeds twice, and regeneration or a reset ends all earlier ones. */
  lemma RecoveryCodesWorkOnce(r: Run, i: nat, u: Id) returns (k: nat)
    requires IsRun(r) && i < |r.steps| && r.steps[i].UseRecovery? && Acts(r.states[i], r.steps[i], u)
    ensures k < i && Issues(r.states[k], r.steps[k], u, r.steps[i].digest)
    ensures forall m :: k < m < i ==> !Cancels(r.states[m], r.steps[m], u, r.steps[i].digest)
  {
    assert StepAt(r, i);
    var digest := r.steps[i].digest;
    ghost var present := (s: State) => digest in Unused(s, u);
    ghost var makes := (s: State, e: Step) => Issues(s, e, u, digest);
    ghost var removes := (s: State, e: Step) => Cancels(s, e, u, digest);
    forall s, e | Enabled(s, e) && present(After(s, e)) ensures makes(s, e) || (present(s) && !removes(s, e)) {
      CodeStep(s, e, u, digest);
    }
    k := MadeSince(r, 0, i, present, makes, removes);
  }

  lemma CodeStep(s: State, e: Step, u: Id, digest: Hash)
    requires Enabled(s, e) && digest in Unused(After(s, e), u)
    ensures Issues(s, e, u, digest) || (digest in Unused(s, u) && !Cancels(s, e, u, digest))
  {
    hide After, Enabled, PrincipalOf;
    if Acts(s, e, u) {
      OwnCodesAfter(s, e, u);
    } else {
      CodesAreOwn(s, e, u);
    }
  }

  /** Every success uses up exactly one code. */
  lemma UseLowersByOne(s: State, e: Step, u: Id)
    requires Enabled(s, e) && e.UseRecovery? && Acts(s, e, u)
    ensures Unused(After(s, e), u) == Unused(s, u) - {e.digest}
    ensures |Unused(After(s, e), u)| == |Unused(s, u)| - 1
  {
  }

  lemma UnusedAfterIssue(rows: map<Hash, bool>, issued: set<Hash>)
    ensures UnusedIn(Issue(rows, issued)) == UnusedIn(rows) + issued
  {
  }

  lemma CodesAreOwn(s: State, e: Step, u: Id)
    requires Enabled(s, e) && !Acts(s, e, u)
    ensures Unused(After(s, e), u) <= Unused(s, u)
    ensures e == Reset(u) ==> Unused(After(s, e), u) == {}
  {
    hide PrincipalOf, Mark, End, CredentialsOf, SessionsOf, Required, EnabledFor, Issue;
  }

  function OwnCodes(s: State, e: Step, u: Id): map<Hash, bool> {
    match e
    case ConfirmTotp(_, _, issued, _) => Issue(CodesOf(s, u), issued)
    case Regenerate(_, issued) => Issue(map[], issued)
    case FinishRegistration(_, _, Added(_, _, Some(issued), _)) =>
      if issued == {} then CodesOf(s, u) else Issue(map[], issued)
    case UseRecovery(_, digest, _) => CodesOf(s, u)[digest := true]
    case _ => CodesOf(s, u)
  }

  lemma OwnCodesAfter(s: State, e: Step, u: Id)
    requires Enabled(s, e) && Acts(s, e, u)
    ensures CodesOf(After(s, e), u) == OwnCodes(s, e, u)
  {
    hide After, Enabled, EnabledFor, Acts, Mark, Issue;
    OwnAfter(s, e, u);
    CodesNeed(s, e, u);
  }

  lemma CodesNeed(s: State, e: Step, u: Id)
    requires EnabledFor(s, e, u)
    ensures e.ConfirmTotp? ==> u in s.totp && CodesOf(s, u) == if u in s.codes then s.codes[u] else map[]
    ensures e.UseRecovery? ==> u in s.codes && CodesOf(s, u) == s.codes[u]
  {
    hide MayMutate, Required, CredentialsOf;
  }

  lemma OwnAfter(s: State, e: Step, u: Id)
    requires Enabled(s, e) && Acts(s, e, u)
    ensures By(e).Some? && EnabledFor(s, e, u) && After(s, e) == AfterBy(s, e, u)
  {
    hide EnabledFor, AfterBy, PrincipalOf;
  }

  lemma OwnCodesStep(s: State, e: Step, u: Id)
    requires Enabled(s, e) && Acts(s, e, u)
    ensures var left := Unused(After(s, e), u);
            left <= Unused(s, u) || |left| == CODES
  {
    hide PrincipalOf, After, CredentialsOf, Required, MayMutate, ValidCode, Removable, HasPrimary, Issue, CodesOf;
    OwnCodesAfter(s, e, u);
    match e
    case ConfirmTotp(_, _, issued, _) =>
      UnusedAfterIssue(CodesOf(s, u), issued);
      assert issued == {} || Unused(s, u) == {};
    case Regenerate(_, issued) =>
      UnusedAfterIssue(map[], issued);
    case FinishRegistration(_, _, Added(_, _, Some(issued), _)) =>
      UnusedAfterIssue(map[], issued);
    case _ =>
  }

  lemma UnusedStep(s: State, e: Step, u: Id)
    requires Enabled(s, e)
    ensures var left := Unused(After(s, e), u);
            left <= Unused(s, u) || |left| == CODES
  {
    hide *;
    if Acts(s, e, u) { OwnCodesStep(s, e, u); } else { CodesAreOwn(s, e, u); }
  }

  lemma SubsetSize<T>(a: set<T>, b: set<T>)
    requires a <= b
    ensures |a| <= |b|
  {
    assert b == a + (b - a);
  }

  /** Nobody ever has more than ten unused codes. */
  lemma {:induction false} AtMostTenCodes(r: Run, i: nat, u: Id)
    requires IsRun(r) && i < |r.states|
    ensures |Unused(r.states[i], u)| <= 10
  {
    if i > 0 {
      AtMostTenCodes(r, i - 1, u);
      assert StepAt(r, i - 1);
      UnusedStep(r.states[i - 1], r.steps[i - 1], u);
      if Unused(r.states[i], u) <= Unused(r.states[i - 1], u) {
        SubsetSize(Unused(r.states[i], u), Unused(r.states[i - 1], u));
      }
    } else {
      assert Unused(r.states[0], u) == {};
    }
  }

  // ----- the last factor -----

  /** A step that takes the user's only factor away. */
  ghost predicate TakesOnlyFactor(s: State, e: Step, u: Id) {
    match e
    case Reset(v) => v == u
    case DisableTotp(_) => Acts(s, e, u) && CredentialsOf(s, u) == {}
    case DeleteCredential(_, row) => Acts(s, e, u) && CredentialsOf(s, u) == {row} && !TotpOn(s, u)
    case _ => false
  }

  lemma TotpStep(s: State, e: Step, u: Id)
    requires Enabled(s, e)
    ensures TotpOn(s, u) ==> (TotpOn(After(s, e), u) <==> e != Reset(u) && !(e.DisableTotp? && Acts(s, e, u)))
  {
    hide PrincipalOf, Mark, End, SessionsOf, CredentialsOf, Issue, CodesOf, Unused, Required, ValidCode, Removable;
    hide Registers, HasPrimary;
  }

  lemma CredentialsStep(s: State, e: Step, u: Id)
    requires Enabled(s, e)
    ensures var now, was := CredentialsOf(After(s, e), u), CredentialsOf(s, u);
            if e == Reset(u) then now == {}
            else if e.DeleteCredential? && Acts(s, e, u) then now == was - {e.row}
            else was <= now
  {
    hide PrincipalOf, Mark, End, SessionsOf, Issue, CodesOf, Unused, Required, ValidCode, HasPrimary, TotpOn, MayMutate;
  }

  lemma FactorStep(s: State, e: Step, u: Id)
    requires Enabled(s, e) && HasPrimary(s, u)
    ensures TakesOnlyFactor(s, e, u) ==> !HasPrimary(After(s, e), u)
    ensures !TakesOnlyFactor(s, e, u) ==> HasPrimary(After(s, e), u)
  {
    hide After, Enabled, TotpOn, CredentialsOf;
    TotpStep(s, e, u);
    CredentialsStep(s, e, u);
    if TakesOnlyFactor(s, e, u) {
      NoNewFactor(s, e, u);
    }
  }

  lemma NoNewFactor(s: State, e: Step, u: Id)
    requires Enabled(s, e) && TakesOnlyFactor(s, e, u)
    ensures !HasPrimary(After(s, e), u)
  {
    hide PrincipalOf, Mark, End, SessionsOf, Issue, CodesOf, Unused, Required;
  }

  /** Whether one self-service step can leave a user without a factor: exactly when no global
      or group rule binds the user and the step removes the only factor there is. */
  lemma LastFactorGoesIff(s: State, e: Step, u: Id)
    requires Enabled(s, e) && !e.Reset? && HasPrimary(s, u)
    ensures !HasPrimary(After(s, e), u) <==> !Required(s.policy, u, None) && TakesOnlyFactor(s, e, u)
  {
    FactorStep(s, e, u);
    if e.DeleteCredential? && Acts(s, e, u) && Required(s.policy, u, None) && CredentialsOf(s, u) == {e.row} {
      assert TotpOn(s, u);
    }
  }

  /** As long as policy keeps asking for a second factor and no administrator resets the user,
      whoever has a factor goes on having one. */
  lemma {:induction false} LastFactorKept(r: Run, i: nat, j: nat, u: Id)
    requires IsRun(r) && i <= j < |r.states| && HasPrimary(r.states[i], u)
    requires forall m :: i <= m < j ==> Required(r.states[m].policy, u, None) && r.steps[m] != Reset(u)
    ensures HasPrimary(r.states[j], u)
    decreases j
  {
    if i < j {
      LastFactorKept(r, i, j - 1, u);
      assert StepAt(r, j - 1);
      if r.steps[j - 1].Reset? {
        FactorStep(r.states[j - 1], r.steps[j - 1], u);
      } else {
        LastFactorGoesIff(r.states[j - 1], r.steps[j - 1], u);
      }
    }
  }

  // ----- the policy of an application -----

  function Digests(n: nat): set<Hash> {
    set i: nat | i < n :: Digest(i)
  }

  lemma {:induction false} DigestCount(n: nat)
    ensures |Digests(n)| == n
  {
    if n > 0 {
      DigestCount(n - 1);
      assert Digests(n) == Digests(n - 1) + {Digest(n - 1)};
    }
  }

  /** User 0, in no group; application 7 asks for a second factor. */
  function Scene(sessions: map<Hash, Session>, totp: map<Id, Totp>, codes: map<Id, map<Hash, bool>>): State {
    State((k, c, t) => true, 0, map[Uuid(0) := User(true, false)], sessions, Policy(false, {}, {}, {Uuid(7)}),
          totp, map[], {}, codes, map[])
  }

  function OneSession(verified: bool): map<Hash, Session> {
    map[Digest(0) := Session(Uuid(0), 60 * MINUTE, false, verified)]
  }

  function OneTotp(active: bool): map<Id, Totp> {
    map[Uuid(0) := Totp(Secret(1), active)]
  }

  function TenCodes(): map<Id, map<Hash, bool>> {
    map[Uuid(0) := Issue(map[], Digests(CODES))]
  }

  lemma SceneFacts(sessions: map<Hash, Session>, totp: map<Id, Totp>, codes: map<Id, map<Hash, bool>>)
    ensures var s := Scene(sessions, totp, codes);
            && CredentialsOf(s, Uuid(0)) == {} && (HasPrimary(s, Uuid(0)) <==> TotpOn(s, Uuid(0)))
            && !Required(s.policy, Uuid(0), None) && Required(s.policy, Uuid(0), Some(Uuid(7)))
  {
  }

  /** Before anything: no users, no policy. */
  function Before(): State {
    Scene(map[], map[], map[]).(users := map[], policy := Policy(false, {}, {}, {}))
  }

  function SetUp(): Step {
    Administer(Scene(map[], map[], map[]).users, Scene(map[], map[], map[]).policy)
  }

  lemma SceneOpens()
    ensures Initial(Before()) && Enabled(Before(), SetUp()) && After(Before(), SetUp()) == Scene(map[], map[], map[])
  {
  }

  lemma SceneLogsIn()
    ensures var s, e := Scene(map[], map[], map[]), Login(Digest(0), Uuid(0), 60 * MINUTE);
            Enabled(s, e) && After(s, e) == Scene(OneSession(false), map[], map[])
  {
  }

  lemma SceneBegins()
    ensures var s := Scene(OneSession(false), map[], map[]);
            && Enabled(s, BeginTotp(Digest(0), Secret(1)))
            && After(s, BeginTotp(Digest(0), Secret(1))) == Scene(OneSession(false), OneTotp(false), map[])
  {
    SceneFacts(OneSession(false), map[], map[]);
  }

  lemma SceneConfirms()
    ensures var s := Scene(OneSession(false), OneTotp(false), map[]);
            var e := ConfirmTotp(Digest(0), "123456", Digests(CODES), true);
            Enabled(s, e) && After(s, e) == Scene(OneSession(true), OneTotp(true), TenCodes())
  {
    hide Required, Digests, Issue;
    SceneFacts(OneSession(false), OneTotp(false), map[]);
    DigestCount(CODES);
    assert Unused(Scene(OneSession(false), OneTotp(false), map[]), Uuid(0)) == {};
    assert Mark(OneSession(false), Digest(0), true) == OneSession(true);
  }

  lemma SceneDisables()
    ensures var s := Scene(OneSession(true), OneTotp(true), TenCodes());
            && Enabled(s, DisableTotp(Digest(0)))
            && After(s, DisableTotp(Digest(0))) == Scene(OneSession(true), map[], TenCodes())
  {
    hide Required, TenCodes;
    SceneFacts(OneSession(true), OneTotp(true), TenCodes());
  }

  /** A rule on an application is not enough: a user who must use a second factor for one
      enrols it and then removes it again. */
  lemma ApplicationRuleDoesNotKeepFactor() returns (r: Run)
    ensures IsRun(r) && |r.steps| == 5
    ensures forall i :: 1 <= i <= 5 ==> Required(r.states[i].policy, Uuid(0), Some(Uuid(7)))
    ensures HasPrimary(r.states[4], Uuid(0)) && !HasPrimary(r.states[5], Uuid(0))
    ensures r.steps[4] == DisableTotp(Digest(0))
  {
    hide Required, TenCodes, HasPrimary, After, Enabled, Initial, SetUp;
    var s1, s2 := Scene(map[], map[], map[]), Scene(OneSession(false), map[], map[]);
    var s3, s4 := Scene(OneSession(false), OneTotp(false), map[]), Scene(OneSession(true), OneTotp(true), TenCodes());
    var s5 := Scene(OneSession(true), map[], TenCodes());
    SceneOpens();
    SceneLogsIn();
    SceneBegins();
    SceneConfirms();
    SceneDisables();
    SceneFacts(map[], map[], map[]);
    SceneFacts(OneSession(false), map[], map[]);
    SceneFacts(OneSession(false), OneTotp(false), map[]);
    SceneFacts(OneSession(true), OneTotp(true), TenCodes());
    SceneFacts(OneSession(true), map[], TenCodes());
    r := Run([Before(), s1, s2, s3, s4, s5],
             [SetUp(), Login(Digest(0), Uuid(0), 60 * MINUTE), BeginTotp(Digest(0), Secret(1)),
              ConfirmTotp(Digest(0), "123456", Digests(CODES), true), DisableTotp(Digest(0))]);
    assert StepAt(r, 0) && StepAt(r, 1) && StepAt(r, 2) && StepAt(r, 3) && StepAt(r, 4);
  }
}
