/**
  The MFA handlers (backend/internal/httpapi/mfa.go, backend/internal/mfa/service.go,
  backend/internal/mfa/webauthn.go) and the handlers that open and close sessions.

  Every statement that is not in a transaction commits at once, so a handler that fails
  half-way leaves what it has already done. `fault` numbers the database, Redis or entropy
  call that fails (0 for none), `allowed` is the verdict of the rate limiter. `history` records
  the run so far, as in GrantServer.
 */
module MfaServer {
  import opened Accounts
  import opened Encoding
  import opened Mfa
  import FactorLaws
  import Recovery

  datatype Reply =
    | Done
    | Codes(codes: seq<string>)
    | Started(ceremony: string)
    | Unauthenticated
    | Forbidden
    | TooMany
    | BadRequest
    | NotEnrolled
    | Conflict
    | InvalidCode
    | Broken

  datatype Guarded = Pass(p: Principal) | Stop(reply: Reply)

  /** What the WebAuthn library reports of a finished registration. */
  datatype Attested = Attested(handle: Handle, residentKey: Option<bool>)

  ghost function Last(run: Run): State
    requires run.states != []
  {
    run.states[|run.states| - 1]
  }

  ghost function Extend(run: Run, e: Step): Run
    requires run.states != []
  {
    Run(run.states + [After(Last(run), e)], run.steps + [e])
  }

  lemma ExtendRun(run: Run, e: Step)
    requires IsRun(run) && Enabled(Last(run), e)
    ensures IsRun(Extend(run, e)) && Last(Extend(run, e)) == After(Last(run), e)
  {
    hide After, Enabled, Initial;
    var longer := Extend(run, e);
    forall i | 0 <= i < |longer.steps| ensures StepAt(longer, i) {
      if i < |run.steps| {
        assert StepAt(run, i);
      }
    }
  }

  ghost predicate Earned(run: Run, k: nat, h: Hash, u: Id)
    requires k < |run.steps| && k < |run.states|
  {
    Proves(run.states[k], run.steps[k], h, u) || EnrolsFirst(run.states[k], run.steps[k], h, u)
  }

  function DigestsOf(hs: seq<Hash>): set<Hash> {
    set h | h in hs
  }

  lemma {:induction false} DistinctCount(hs: seq<Hash>, n: nat)
    requires n <= |hs| && forall i, j :: 0 <= i < j < n ==> hs[i] != hs[j]
    ensures |DigestsOf(hs[..n])| == n
  {
    if n > 0 {
      DistinctCount(hs, n - 1);
      assert hs[..n] == hs[..n - 1] + [hs[n - 1]];
      assert DigestsOf(hs[..n]) == DigestsOf(hs[..n - 1]) + {hs[n - 1]};
    }
  }

  predicate TenDraws(raws: seq<Bytes>) {
    |raws| == CODES && forall i :: 0 <= i < |raws| ==> |raws[i]| == Recovery.RAW
  }

  /** Ten draws that fit into the table are ten new codes. */
  lemma DrawsAreIssued(taken: map<Hash, bool>, sha: string -> Hash, upper: char -> char, raws: seq<Bytes>)
    requires TenDraws(raws) && Recovery.Insertable(taken, Recovery.Stored(sha, upper, raws), CODES)
    ensures var hs := Recovery.Stored(sha, upper, raws);
            && |DigestsOf(hs)| == CODES && DigestsOf(hs) !! taken.Keys
            && Recovery.Added(taken, hs) == Issue(taken, DigestsOf(hs))
  {
    var hs := Recovery.Stored(sha, upper, raws);
    assert |hs| == CODES && hs[..CODES] == hs;
    DistinctCount(hs, CODES);
    NewDigests(taken, hs);
    AddedIsIssue(taken, hs);
  }

  lemma NewDigests(taken: map<Hash, bool>, hs: seq<Hash>)
    requires Recovery.Insertable(taken, hs, |hs|)
    ensures DigestsOf(hs) !! taken.Keys
  {
  }

  lemma AddedIsIssue(taken: map<Hash, bool>, hs: seq<Hash>)
    ensures Recovery.Added(taken, hs) == Issue(taken, DigestsOf(hs))
  {
  }

  // ----- what the longer handlers amount to -----

  lemma StepOf(s: State, e: Step, p: Principal)
    requires By(e).Some? && Who(s, By(e).value) == Some(p)
    ensures Enabled(s, e) <==> EnabledFor(s, e, p.user)
    ensures After(s, e) == AfterBy(s, e, p.user)
    ensures MayMutate(s, By(e).value) <==> (HasPrimary(s, p.user) ==> p.mfaVerified)
    ensures p.session == By(e).value && p.session in s.sessions && s.sessions[p.session].user == p.user
    ensures !s.sessions[p.session].revoked && s.now < s.sessions[p.session].expires
  {
    hide EnabledFor, AfterBy, HasPrimary;
  }

  lemma OwnCredential(s: State, u: Id, row: Id)
    requires row in CredentialsOf(s, u)
    ensures row in s.credentials && s.credentials[row].user == u
  {
  }

  /** A live registration ceremony of this user, and a credential that is new. */
  ghost predicate MayRegister(s: State, u: Id, c: Hash, row: Id, attested: Option<Attested>) {
    && Live(s, c) && attested.Some?
    && s.ceremonies[c].user == u && !s.ceremonies[c].kind.SignIn? && u in s.enrolled
    && row !in s.credentials
    && (forall other :: other in s.credentials ==> s.credentials[other].handle != attested.value.handle)
  }

  /** A live sign-in ceremony of this user, and an assertion by one of the user's credentials. */
  ghost predicate MaySignIn(s: State, u: Id, c: Hash, asserted: Option<Handle>) {
    && Live(s, c) && s.ceremonies[c].user == u && s.ceremonies[c].kind.SignIn? && u in s.enrolled
    && exists row :: row in s.credentials && s.credentials[row].user == u && asserted == Some(s.credentials[row].handle)
  }

  /** The codes a user without any gets from these draws. */
  ghost function Drawn(s: State, u: Id, sha: string -> Hash, upper: char -> char, raws: seq<Bytes>): set<Hash>
    requires TenDraws(raws)
  {
    if Unused(s, u) == {} then DigestsOf(Recovery.Stored(sha, upper, raws)) else {}
  }

  lemma SameCodes(s: State, t: State, u: Id, sha: string -> Hash, upper: char -> char, raws: seq<Bytes>)
    requires s.codes == t.codes && TenDraws(raws)
    ensures Unused(s, u) == Unused(t, u) && Drawn(s, u, sha, upper, raws) == Drawn(t, u, sha, upper, raws)
  {
  }

  /** A registration that got as far as `r`. */
  lemma RegistrationStep(s: State, h: Hash, p: Principal, c: Hash, r: Registration)
    requires Who(s, h) == Some(p) && MayMutate(s, h) && Live(s, c) && Registers(s, p.user, c, r)
    ensures Enabled(s, FinishRegistration(h, c, r)) && Mark(s.sessions, h, false) == s.sessions
    ensures After(s, FinishRegistration(h, c, r))
              == match r
                 case Dropped => s.(ceremonies := s.ceremonies - {c})
                 case Added(row, credential, issued, marked) =>
                   s.(ceremonies := s.ceremonies - {c},
                      credentials := s.credentials[row := credential],
                      codes := if issued == None || issued.value == {} then s.codes
                               else s.codes[p.user := Issue(map[], issued.value)],
                      sessions := Mark(s.sessions, h, marked))
  {
    hide MayMutate, Live, Registers, Issue;
  }

  lemma DroppedRegisters(s: State, u: Id, c: Hash)
    ensures Registers(s, u, c, Dropped)
  {
  }

  /** A new credential, with the codes due to a user who has none left. */
  lemma NewCredential(s: State, u: Id, c: Hash, row: Id, attested: Option<Attested>, r: Registration)
    requires MayRegister(s, u, c, row, attested) && r.Added? && r.row == row
    requires r.credential.user == u && r.credential.handle == attested.value.handle
    requires r.issued.Some? ==> |r.issued.value| == if Unused(s, u) == {} then CODES else 0
    requires r.marked ==> r.issued.Some?
    ensures Registers(s, u, c, r)
  {
    hide Unused;
  }

  /** A sign-in ceremony that was taken, and what came of it. */
  lemma LoginStep(s: State, h: Hash, p: Principal, c: Hash, used: Option<Id>, marked: bool)
    requires Who(s, h) == Some(p) && Live(s, c) && (marked ==> used.Some?)
    requires used.Some? ==>
               && s.ceremonies[c].user == p.user && s.ceremonies[c].kind.SignIn?
               && p.user in s.enrolled && used.value in CredentialsOf(s, p.user)
    ensures Enabled(s, FinishLogin(h, c, used, marked)) && Mark(s.sessions, h, false) == s.sessions
    ensures After(s, FinishLogin(h, c, used, marked))
              == s.(ceremonies := s.ceremonies - {c}, sessions := Mark(s.sessions, h, marked))
    ensures LiveSession(s, p)
  {
    hide PrincipalOf, Live, CredentialsOf;
    WhoIsLive(s, h, p);
  }

  ghost predicate LiveSession(s: State, p: Principal) {
    && p.session in s.sessions && s.sessions[p.session].user == p.user
    && !s.sessions[p.session].revoked && s.now < s.sessions[p.session].expires
  }

  lemma WhoIsLive(s: State, h: Hash, p: Principal)
    requires Who(s, h) == Some(p)
    ensures p.session == h && LiveSession(s, p)
  {
  }

  /** What beginning a registration does, whether or not the ceremony gets stored. */
  lemma BeginStep(s: State, h: Hash, p: Principal, c: Hash, kind: Kind)
    requires Who(s, h) == Some(p) && MayMutate(s, h) && !kind.SignIn?
    ensures Enabled(s, Prepare(h)) && After(s, Prepare(h)) == s.(enrolled := s.enrolled + {p.user})
    ensures Enabled(s, Begin(h, c, kind))
    ensures After(s, Begin(h, c, kind))
              == s.(enrolled := s.enrolled + {p.user},
                    ceremonies := s.ceremonies[c := Mfa.Ceremony(p.user, kind, s.now + CEREMONY_TTL)])
  {
    hide PrincipalOf, MayMutate;
  }

  lemma RegenerateStep(s: State, h: Hash, p: Principal, issued: set<Hash>)
    requires Who(s, h) == Some(p) && HasPrimary(s, p.user) && p.mfaVerified && |issued| == CODES
    ensures Enabled(s, Regenerate(h, issued))
    ensures After(s, Regenerate(h, issued)) == s.(codes := s.codes[p.user := Issue(map[], issued)])
  {
    hide HasPrimary, Issue;
  }

  lemma RecoveryStep(s: State, h: Hash, p: Principal, digest: Hash, marked: bool)
    requires Who(s, h) == Some(p)
    ensures Enabled(s, UseRecovery(h, digest, marked)) <==> digest in Unused(s, p.user)
    ensures After(s, UseRecovery(h, digest, marked))
              == s.(codes := s.codes[p.user := CodesOf(s, p.user)[digest := true]],
                    sessions := Mark(s.sessions, h, marked))
  {
    hide PrincipalOf, Unused, CodesOf, Mark;
  }

  lemma VerifiedPrincipal(s: State, h: Hash, p: Principal)
    requires Who(s, h) == Some(p)
    ensures p.mfaVerified <==> Verified(s, h)
  {
  }

  class Factors {
    const sha: string -> Hash
    const upper: char -> char
    const totpValid: (Secret, string, Time) -> bool
    var now: Time
    var users: map<Id, User>
    var sessions: map<Hash, Session>
    var policy: Policy
    var totp: map<Id, Totp>
    var credentials: map<Id, Credential>
    var enrolled: set<Id>
    var codes: map<Id, map<Hash, bool>>
    var ceremonies: map<Hash, Mfa.Ceremony>
    ghost var history: Run

    function Now(): State
      reads this
    {
      State(totpValid, now, users, sessions, policy, totp, credentials, enrolled, codes, ceremonies)
    }

    ghost predicate Valid()
      reads this
    {
      history.states != [] && IsRun(history) && Last(history) == Now()
    }

    twostate predicate Did(e: Step)
      reads this
    {
      && old(Valid()) && Valid()
      && Enabled(old(Now()), e) && Now() == After(old(Now()), e)
      && history == Extend(old(history), e)
    }

    twostate predicate Untouched()
      reads this
    {
      Valid() && Now() == old(Now()) && history == old(history)
    }

    /** The session a cookie names and its principal, as a handler behind withPrincipalRaw sees them. */
    function Caller(cookie: Option<string>): Option<Principal>
      reads this
    {
      match cookie
      case None => None
      case Some(token) => Who(Now(), sha(token))
    }

    constructor (sha: string -> Hash, upper: char -> char, totpValid: (Secret, string, Time) -> bool, now: Time)
      ensures Valid() && this.sha == sha && this.upper == upper && this.totpValid == totpValid
      ensures sessions == map[] && totp == map[] && credentials == map[] && codes == map[]
    {
      this.sha, this.upper, this.totpValid, this.now := sha, upper, totpValid, now;
      users, sessions, policy := map[], map[], Policy(false, {}, {}, {});
      totp, credentials, enrolled, codes, ceremonies := map[], map[], {}, map[], map[];
      history := Run([State(totpValid, now, map[], map[], Policy(false, {}, {}, {}), map[], map[], {}, map[], map[])],
                     []);
    }

    /** Note down a step whose effect the tables already show. */
    ghost method Record(s: State, e: Step)
      requires history.states != [] && IsRun(history) && Last(history) == s && Enabled(s, e) && Now() == After(s, e)
      modifies `history
      ensures Valid() && history == Extend(old(history), e)
    {
      hide After, Enabled, IsRun;
      ExtendRun(history, e);
      history := Extend(history, e);
    }

    // ----- the surroundings -----

    method Advance(to: Time)
      requires Valid() && now <= to
      modifies this
      ensures Did(Tick(to))
    {
      ExtendRun(history, Tick(to));
      history := Extend(history, Tick(to));
      now := to;
    }

    method Administer(users: map<Id, User>, policy: Policy)
      requires Valid()
      modifies this
      ensures Did(Mfa.Administer(users, policy))
    {
      ExtendRun(history, Mfa.Administer(users, policy));
      history := Extend(history, Mfa.Administer(users, policy));
      this.users, this.policy := users, policy;
    }

    // ----- sessions -----

    /** The end of a login whose password was right: the token digest is unique. */
    method Login(user: Id, token: string, expires: Time) returns (reply: Reply)
      requires Valid()
      modifies this
      ensures reply == if sha(token) !in old(sessions) && user in users && users[user].active then Done else Broken
      ensures reply.Done? ==> Did(Mfa.Login(sha(token), user, expires))
      ensures reply.Broken? ==> Untouched()
    {
      var h := sha(token);
      if h in sessions || user !in users || !users[user].active {
        return Broken;
      }
      ExtendRun(history, Mfa.Login(h, user, expires));
      history := Extend(history, Mfa.Login(h, user, expires));
      sessions := sessions[h := Session(user, expires, false, false)];
      reply := Done;
    }

    /** logout, revokeSession, revokeMySession, revokeUserSessions, revokeAllSessions and
        updateUser all revoke some set of session rows. */
    method Revoke(ended: set<Hash>)
      requires Valid()
      modifies this
      ensures Did(EndSessions(ended))
      ensures forall h :: h in ended ==> Who(Now(), h).None?
    {
      ExtendRun(history, EndSessions(ended));
      history := Extend(history, EndSessions(ended));
      sessions := End(sessions, ended);
    }

    /** resetUserMFA; one transaction. */
    method ResetUser(user: Id, fault: bool) returns (reply: Reply)
      requires Valid()
      modifies this
      ensures reply == if fault then Broken else Done
      ensures reply.Done? ==> Did(Reset(user)) && !HasPrimary(Now(), user) && Unused(Now(), user) == {}
      ensures reply.Done? ==> forall h :: h in sessions && sessions[h].user == user ==> sessions[h].revoked
      ensures reply.Broken? ==> Untouched()
    {
      if fault {
        return Broken;
      }
      ExtendRun(history, Reset(user));
      history := Extend(history, Reset(user));
      credentials := credentials - CredentialsOf(Now(), user);
      totp, codes, enrolled := totp - {user}, codes - {user}, enrolled - {user};
      sessions := End(sessions, SessionsOf(Now(), user));
      reply := Done;
    }

    /** withPrincipal in front of the protected handlers. */
    method WithPrincipal(cookie: Option<string>) returns (r: Option<Principal>)
      ensures r == match cookie case None => None case Some(token) => Admitted(Now(), sha(token))
      ensures r.Some? <==>
                && cookie.Some?
                && var h := sha(cookie.value);
                && h in sessions && !sessions[h].revoked && now < sessions[h].expires
                && sessions[h].user in users && users[sessions[h].user].active
                && (|| sessions[h].mfaVerified
                    || (&& !policy.everyone
                        && forall g :: g in policy.groups ==> (g, sessions[h].user) !in policy.members))
    {
      var p := Caller(cookie);
      if p.None? {
        return None;
      }
      if Required(policy, p.value.user, None) && !p.value.mfaVerified {
        return None;
      }
      r := p;
    }

    // ----- shared pieces -----

    /** What every handler that changes factors does first: the session, allowMFAMutation and
        the rate limiter. */
    method GuardMutation(cookie: Option<string>, allowed: bool, fault: nat) returns (g: Guarded)
      ensures g.Pass? <==> fault != 1 && allowed && cookie.Some? && MayMutate(Now(), sha(cookie.value))
      ensures g.Pass? ==>
                && Caller(cookie) == Some(g.p)
                && (|| sessions[sha(cookie.value)].mfaVerified
                    || (&& (g.p.user in totp ==> !totp[g.p.user].active)
                        && forall c :: c in credentials ==> credentials[c].user != g.p.user))
      ensures g.Stop? ==>
                g.reply ==
                if Caller(cookie).None? then Unauthenticated
                else if fault == 1 then Broken
                else if !MayMutate(Now(), sha(cookie.value)) then Forbidden
                else TooMany
    {
      var p := Caller(cookie);
      if p.None? { return Stop(Unauthenticated); }
      if fault == 1 { return Stop(Broken); }
      FactorLaws.Facts(Now(), sha(cookie.value), p.value.user);
      if HasPrimary(Now(), p.value.user) && !p.value.mfaVerified { return Stop(Forbidden); }
      g := if allowed then Pass(p.value) else Stop(TooMany);
    }

    /** markSessionMFAVerified: no live session, no mark. */
    method MarkSession(p: Principal, fault: bool) returns (ok: bool)
      modifies `sessions
      ensures ok <==> !fault && p.session in old(sessions) && old(sessions)[p.session].user == p.user
                      && !old(sessions)[p.session].revoked && now < old(sessions)[p.session].expires
      ensures sessions == Mark(old(sessions), p.session, ok)
    {
      if fault || p.session !in sessions {
        return false;
      }
      var s := sessions[p.session];
      if s.user != p.user || s.revoked || s.expires <= now {
        return false;
      }
      sessions := sessions[p.session := s.(mfaVerified := true)];
      ok := true;
    }

    // ----- TOTP -----

    method BeginTotpEnrollment(cookie: Option<string>, allowed: bool, secret: Secret, fault: nat) returns (reply: Reply)
      requires Valid()
      modifies this
      ensures reply.Done? ==> cookie.Some? && Did(BeginTotp(sha(cookie.value), secret))
      ensures !reply.Done? ==> Untouched()
      ensures fault == 0 && allowed && cookie.Some? ==>
                (reply.Done? <==> old(Enabled(Now(), BeginTotp(sha(cookie.value), secret))))
    {
      var g := GuardMutation(cookie, allowed, fault);
      if g.Stop? { return g.reply; }
      var p := g.p;
      var user := p.user;
      if fault == 2 { return BadRequest; }
      if user in totp && totp[user].active { return Conflict; }
      if fault == 3 { return BadRequest; }
      ghost var e := BeginTotp(sha(cookie.value), secret);
      ExtendRun(history, e);
      history := Extend(history, e);
      totp := totp[user := Totp(secret, false)];
      reply := Done;
    }

    /** Service.ConfirmTOTP: the factor and its recovery codes are one transaction. */
    method ConfirmTOTP(user: Id, code: string, raws: seq<Bytes>, fault: nat) returns (reply: Reply)
      requires TenDraws(raws)
      modifies `totp, `codes
      ensures fault == 0 ==> (reply.Codes? <==>
                && old(ValidCode(Now(), user, code))
                && (old(Unused(Now(), user)) == {} ==>
                      Recovery.Insertable(old(CodesOf(Now(), user)), Recovery.Stored(sha, upper, raws), CODES)))
      ensures reply.Codes? ==>
                && old(ValidCode(Now(), user, code))
                && var issued := Drawn(old(Now()), user, sha, upper, raws);
                   && issued !! old(CodesOf(Now(), user)).Keys
                   && |issued| == (if old(Unused(Now(), user)) == {} then CODES else 0)
                   && totp == old(totp)[user := old(totp)[user].(active := true)]
                   && codes == old(codes)[user := Issue(old(CodesOf(Now(), user)), issued)]
      ensures reply.Codes? ==>
          if old(Unused(Now(), user)) == {} then Recovery.Shows(reply.codes, raws) else reply.codes == []
      ensures !reply.Codes? ==> totp == old(totp) && codes == old(codes)
    {
      hide Recovery.Insertable, Recovery.Added, Recovery.Stored, Recovery.Shows, DigestsOf;
      if user !in totp { return NotEnrolled; }
      if fault == 2 { return BadRequest; }
      if !totpValid(totp[user].secret, code, now) { return InvalidCode; }
      if fault == 3 { return BadRequest; }
      var rows := CodesOf(Now(), user);
      reply := Codes([]);
      if Unused(Now(), user) == {} {
        var generated := Recovery.Generate(sha, upper, raws, rows);
        if generated.None? { return BadRequest; }
        DrawsAreIssued(rows, sha, upper, raws);
        rows := generated.value.1;
        reply := Codes(generated.value.0);
      } else {
        assert Issue(rows, {}) == rows;
      }
      if fault == 4 { return BadRequest; }
      totp := totp[user := totp[user].(active := true)];
      codes := codes[user := rows];
    }

    method ConfirmTotpEnrollment(cookie: Option<string>, allowed: bool, code: string, raws: seq<Bytes>, fault: nat)
        returns (reply: Reply)
      requires Valid() && TenDraws(raws)
      modifies this
      ensures reply.Codes? ==>
                && old(Caller(cookie)).Some?
                && var issued := Drawn(old(Now()), old(Caller(cookie)).value.user, sha, upper, raws);
                   Did(ConfirmTotp(sha(cookie.value), Recovery.TrimSpace(code), issued, true))
      ensures reply.Codes? && old(Unused(Now(), Caller(cookie).value.user)) == {} ==> Recovery.Shows(reply.codes, raws)
      ensures !reply.Codes? ==>
                || Untouched()
                || (old(Caller(cookie)).Some?
                    && var issued := Drawn(old(Now()), old(Caller(cookie)).value.user, sha, upper, raws);
                       Did(ConfirmTotp(sha(cookie.value), Recovery.TrimSpace(code), issued, false)))
      ensures fault == 0 && !reply.Codes? ==> Untouched()
      ensures fault == 0 && allowed && old(Caller(cookie)).Some? ==>
                var u := old(Caller(cookie)).value.user;
                reply.Codes? <==>
                  && old(MayMutate(Now(), sha(cookie.value)) && ValidCode(Now(), u, Recovery.TrimSpace(code)))
                  && (old(Unused(Now(), u)) == {} ==>
                        Recovery.Insertable(old(CodesOf(Now(), u)), Recovery.Stored(sha, upper, raws), CODES))
    {
      hide Recovery.Insertable, Recovery.Stored, Recovery.Shows, Recovery.TrimSpace, Drawn, Issue, Unused, After;
      hide Enabled, MayMutate, HasPrimary, IsRun, Last, Extend;
      var g := GuardMutation(cookie, allowed, fault);
      if g.Stop? { return g.reply; }
      var p := g.p;
      ghost var s, h := Now(), sha(cookie.value);
      var user := p.user;
      reply := ConfirmTOTP(user, Recovery.TrimSpace(code), raws, fault);
      if !reply.Codes? { return; }
      var marked := MarkSession(p, fault == 5);
      if !marked { reply := Broken; }
      ghost var e := ConfirmTotp(h, Recovery.TrimSpace(code), Drawn(s, user, sha, upper, raws), marked);
      StepOf(s, e, p);
      Record(s, e);
    }

    method DisableTotpFactor(cookie: Option<string>, fault: nat) returns (reply: Reply)
      requires Valid()
      modifies this
      ensures reply.Done? ==> cookie.Some? && Did(DisableTotp(sha(cookie.value)))
      ensures !reply.Done? ==> Untouched()
      ensures fault == 0 && cookie.Some? ==> (reply.Done? <==> old(Enabled(Now(), DisableTotp(sha(cookie.value)))))
      ensures reply.Done? ==>
                && cookie.Some? && sha(cookie.value) in old(sessions)
                && var session := old(sessions)[sha(cookie.value)];
                && !session.revoked && now < session.expires
                && session.user in old(totp) && totp == old(totp) - {session.user}
                && (old(totp)[session.user].active ==> session.mfaVerified)
                && ((exists c :: c in credentials && credentials[c].user == session.user) ==> session.mfaVerified)
                && (policy.everyone ==> exists c :: c in credentials && credentials[c].user == session.user)
      ensures fault == 0 && cookie.Some? ==> (reply.Conflict? <==>
                && MayMutate(old(Now()), sha(cookie.value))
                && Required(policy, old(Caller(cookie)).value.user, None)
                && CredentialsOf(old(Now()), old(Caller(cookie)).value.user) == {})
    {
      hide CredentialsOf;
      var g := GuardMutation(cookie, true, fault);
      if g.Stop? { return g.reply; }
      var p := g.p;
      var user := p.user;
      FactorLaws.Facts(Now(), sha(cookie.value), user);
      if fault == 2 { return BadRequest; }
      if Required(policy, user, None) && |CredentialsOf(Now(), user)| == 0 { return Conflict; }
      if fault == 3 { return BadRequest; }
      if user !in totp { return NotEnrolled; }
      ghost var e := DisableTotp(sha(cookie.value));
      ExtendRun(history, e);
      history := Extend(history, e);
      totp := totp - {user};
      reply := Done;
    }

    // ----- recovery codes -----

    method RegenerateRecoveryCodes(cookie: Option<string>, allowed: bool, raws: seq<Bytes>, fault: nat)
        returns (reply: Reply)
      requires Valid() && TenDraws(raws)
      modifies this
      ensures reply.Codes? ==>
          cookie.Some? && Did(Regenerate(sha(cookie.value), DigestsOf(Recovery.Stored(sha, upper, raws))))
      ensures reply.Codes? ==> Recovery.Shows(reply.codes, raws)
      ensures !reply.Codes? ==> Untouched()
      ensures fault == 0 && allowed && old(Caller(cookie)).Some? ==>
                (reply.Codes? <==>
                   && old(HasPrimary(Now(), Caller(cookie).value.user) && Verified(Now(), sha(cookie.value)))
                   && Recovery.Insertable(map[], Recovery.Stored(sha, upper, raws), CODES))
    {
      hide Recovery.Insertable, Recovery.Added, Recovery.Stored, Recovery.Shows, DigestsOf;
      hide HasPrimary, PrincipalOf, After, Enabled, IsRun, Last, Extend, Verified, Issue;
      var p := Caller(cookie);
      if p.None? { return Unauthenticated; }
      ghost var s, h := Now(), sha(cookie.value);
      VerifiedPrincipal(s, h, p.value);
      if fault == 1 { return Broken; }
      var user := p.value.user;
      if !HasPrimary(Now(), user) { return Conflict; }
      if !p.value.mfaVerified { return Forbidden; }
      if !allowed { return TooMany; }
      var generated := Recovery.Generate(sha, upper, raws, map[]);
      if generated.None? || fault == 2 { return Broken; }
      DrawsAreIssued(map[], sha, upper, raws);
      ghost var issued := DigestsOf(Recovery.Stored(sha, upper, raws));
      RegenerateStep(s, h, p.value, issued);
      codes := codes[user := generated.value.1];
      Record(s, Regenerate(h, issued));
      reply := Codes(generated.value.0);
    }

    // ----- WebAuthn -----

    /** `kind` comes trimmed. If storing the ceremony fails, the user handle stays. */
    method BeginWebAuthnRegistration(cookie: Option<string>, allowed: bool, kind: string, token: string, fault: nat)
        returns (reply: Reply)
      requires Valid()
      modifies this
      ensures reply.Started? ==>
                && cookie.Some? && reply.ceremony == token && kind in ["security_key", "passkey"]
                && Did(Begin(sha(cookie.value), sha(token), if kind == "passkey" then Passkey else SecurityKey))
      ensures !reply.Started? ==> Untouched() || (cookie.Some? && Did(Prepare(sha(cookie.value))))
      ensures fault == 0 && allowed && cookie.Some? ==>
                (reply.Started? <==> old(MayMutate(Now(), sha(cookie.value))) && kind in ["security_key", "passkey"])
    {
      hide After, Enabled, MayMutate, PrincipalOf, IsRun, Last, Extend;
      var g := GuardMutation(cookie, allowed, fault);
      if g.Stop? { return g.reply; }
      var user := g.p.user;
      if (kind != "security_key" && kind != "passkey") || fault == 2 { return BadRequest; }
      var k := if kind == "passkey" then Passkey else SecurityKey;
      ghost var s, h := Now(), sha(cookie.value);
      BeginStep(s, h, g.p, sha(token), k);
      enrolled := enrolled + {user};
      if fault == 3 {
        Record(s, Prepare(h));
        return BadRequest;
      }
      ceremonies := ceremonies[sha(token) := Mfa.Ceremony(user, k, now + CEREMONY_TTL)];
      Record(s, Begin(h, sha(token), k));
      reply := Started(token);
    }

    method BeginWebAuthnAuthentication(cookie: Option<string>, allowed: bool, token: string, fault: nat)
        returns (reply: Reply)
      requires Valid()
      modifies this
      ensures reply.Started? ==>
          cookie.Some? && reply.ceremony == token && Did(Begin(sha(cookie.value), sha(token), SignIn))
      ensures !reply.Started? ==> Untouched()
      ensures fault == 0 && allowed && cookie.Some? ==>
                (reply.Started? <==> old(Enabled(Now(), Begin(sha(cookie.value), sha(token), SignIn))))
    {
      hide CredentialsOf, TotpOn;
      var p := Caller(cookie);
      if p.None? { return Unauthenticated; }
      if !allowed { return TooMany; }
      var user := p.value.user;
      if user !in enrolled { return NotEnrolled; }
      if |CredentialsOf(Now(), user)| == 0 { return NotEnrolled; }
      if fault != 0 { return BadRequest; }
      ghost var e := Begin(sha(cookie.value), sha(token), SignIn);
      ExtendRun(history, e);
      history := Extend(history, e);
      ceremonies := ceremonies[sha(token) := Mfa.Ceremony(user, SignIn, now + CEREMONY_TTL)];
      reply := Started(token);
    }

    /** consumeCeremony: GETDEL, so whoever asks takes the ceremony with them. */
    method ConsumeCeremony(token: string) returns (c: Option<Mfa.Ceremony>)
      modifies `ceremonies
      ensures c.Some? <==> token != "" && Live(old(Now()), sha(token))
      ensures c.Some? ==> c.value == old(ceremonies)[sha(token)] && ceremonies == old(ceremonies) - {sha(token)}
      ensures c.None? ==> ceremonies == old(ceremonies)
    {
      if token == "" { return None; }
      var key := sha(token);
      if key !in ceremonies || ceremonies[key].expires <= now { return None; }
      c := Some(ceremonies[key]);
      ceremonies := ceremonies - {key};
    }

    /** webAuthnService.FinishLogin. `asserted` is the credential the library accepts, if any;
        the row whose last use is noted must be the user's own. */
    method FinishAssertion(user: Id, token: string, asserted: Option<Handle>, fault: nat) returns (used: Option<Id>)
      modifies `ceremonies
      ensures ceremonies ==
              if token != "" && old(Live(Now(), sha(token))) then old(ceremonies) - {sha(token)} else old(ceremonies)
      ensures fault != 1 ==> (used.Some? <==> token != "" && MaySignIn(old(Now()), user, sha(token), asserted))
      ensures fault != 1 ==>
                (used.Some? <==>
                   && token != "" && sha(token) in old(ceremonies) && user in enrolled
                   && old(now < ceremonies[sha(token)].expires)
                   && old(ceremonies[sha(token)].user == user && ceremonies[sha(token)].kind == SignIn)
                   && exists row :: row in credentials && credentials[row].user == user
                                    && asserted == Some(credentials[row].handle))
      ensures used.Some? ==>
                && token != "" && MaySignIn(old(Now()), user, sha(token), asserted)
                && used.value in CredentialsOf(old(Now()), user) && asserted == Some(credentials[used.value].handle)
    {
      var c := ConsumeCeremony(token);
      if c.None? || c.value.user != user || !c.value.kind.SignIn? { return None; }
      if user !in enrolled || asserted.None? || fault == 1 { return None; }
      if row :| row in credentials && credentials[row].user == user && credentials[row].handle == asserted.value {
        return Some(row);
      }
      used := None;
    }

    method FinishWebAuthnAuthentication(cookie: Option<string>, allowed: bool, token: string, asserted: Option<Handle>,
        fault: nat)
        returns (reply: Reply, ghost used: Option<Id>)
      requires Valid()
      modifies this
      ensures reply.Done? ==>
                && cookie.Some? && used.Some? && used.value in credentials
                && asserted == Some(credentials[used.value].handle)
                && Did(FinishLogin(sha(cookie.value), sha(token), used, true))
      ensures !reply.Done? ==>
          Untouched() || (cookie.Some? && Did(FinishLogin(sha(cookie.value), sha(token), used, false)))
      ensures old(Caller(cookie)).Some? && allowed && token != "" && old(Live(Now(), sha(token))) ==>
          sha(token) !in ceremonies
      ensures fault == 0 ==> (reply.Done? <==>
                && allowed && token != "" && old(Caller(cookie)).Some?
                && MaySignIn(old(Now()), old(Caller(cookie)).value.user, sha(token), asserted))
    {
      hide After, Enabled, PrincipalOf, IsRun, Last, Extend, CredentialsOf, Mark;
      var p := Caller(cookie);
      used := None;
      if p.None? { return Unauthenticated, used; }
      if !allowed { return TooMany, used; }
      ghost var s, h, live := Now(), sha(cookie.value), token != "" && Live(Now(), sha(token));
      var found := FinishAssertion(p.value.user, token, asserted, fault);
      if found.None? {
        if live {
          LoginStep(s, h, p.value, sha(token), None, false);
          Record(s, FinishLogin(h, sha(token), None, false));
        }
        return BadRequest, used;
      }
      used := found;
      OwnCredential(s, p.value.user, used.value);
      WhoIsLive(s, h, p.value);
      var marked := MarkSession(p.value, fault == 2);
      LoginStep(s, h, p.value, sha(token), used, marked);
      Record(s, FinishLogin(h, sha(token), used, marked));
      reply := if marked then Done else Broken;
    }

    /** webAuthnService.FinishRegistration. `attested` is what the library makes of the
        browser's answer, `row` the id of the new row. */
    method FinishAttestation(user: Id, token: string, row: Id, attested: Option<Attested>, fault: nat)
        returns (made: Option<Credential>)
      modifies `ceremonies, `credentials
      ensures ceremonies ==
              if token != "" && old(Live(Now(), sha(token))) then old(ceremonies) - {sha(token)} else old(ceremonies)
      ensures fault != 2 ==> (made.Some? <==> token != "" && MayRegister(old(Now()), user, sha(token), row, attested))
      ensures fault != 2 ==>
                (made.Some? <==>
                   && token != "" && sha(token) in old(ceremonies) && user in enrolled && attested.Some?
                   && old(now < ceremonies[sha(token)].expires)
                   && old(ceremonies[sha(token)].user == user && ceremonies[sha(token)].kind != SignIn)
                   && row !in old(credentials)
                   && forall c :: c in old(credentials) ==> old(credentials[c].handle) != attested.value.handle)
      ensures made.Some? ==>
                && token != "" && MayRegister(old(Now()), user, sha(token), row, attested)
                && made.value == Credential(user, attested.value.handle,
                                   if attested.value.residentKey.Some? then attested.value.residentKey.value
                                   else old(ceremonies)[sha(token)].kind.Passkey?)
                && credentials == old(credentials)[row := made.value]
      ensures made.None? ==> credentials == old(credentials)
    {
      var c := ConsumeCeremony(token);
      if c.None? || c.value.user != user || c.value.kind.SignIn? { return None; }
      if user !in enrolled || attested.None? || fault == 2 { return None; }
      var handle := attested.value.handle;
      if row in credentials || exists other :: other in credentials && credentials[other].handle == handle {
        return None;
      }
      var resident := attested.value.residentKey;
      var discoverable := if resident.Some? then resident.value else c.value.kind.Passkey?;
      made := Some(Credential(user, handle, discoverable));
      credentials := credentials[row := made.value];
    }

    /** Service.EnsureRecoveryCodes. */
    method EnsureRecoveryCodes(user: Id, raws: seq<Bytes>, fault: nat) returns (made: Option<seq<string>>)
      requires TenDraws(raws)
      modifies `codes
      ensures made.Some? ==>
                var issued := Drawn(old(Now()), user, sha, upper, raws);
                && |issued| == (if old(Unused(Now(), user)) == {} then CODES else 0)
                && codes == if issued == {} then old(codes) else old(codes)[user := Issue(map[], issued)]
      ensures made.Some? ==>
          if old(Unused(Now(), user)) == {} then Recovery.Shows(made.value, raws) else made.value == []
      ensures made.None? ==> codes == old(codes)
      ensures fault != 3 ==>
                (made.None? <==>
                   && old(Unused(Now(), user)) == {}
                   && !Recovery.Insertable(map[], Recovery.Stored(sha, upper, raws), CODES))
    {
      hide Recovery.Insertable, Recovery.Added, Recovery.Stored, Recovery.Shows, DigestsOf;
      if Unused(Now(), user) != {} {
        return Some([]);
      }
      var generated := Recovery.Generate(sha, upper, raws, map[]);
      if generated.None? || fault == 3 { return None; }
      DrawsAreIssued(map[], sha, upper, raws);
      codes := codes[user := generated.value.1];
      made := Some(generated.value.0);
    }

    method FinishWebAuthnRegistration(
        cookie: Option<string>, allowed: bool, token: string, row: Id, attested: Option<Attested>, raws: seq<Bytes>,
        fault: nat)
        returns (reply: Reply, ghost result: Registration)
      requires Valid() && TenDraws(raws)
      modifies this
      ensures reply.Codes? ==>
                && old(Caller(cookie)).Some? && attested.Some?
                && result.Added? && result.row == row && result.credential.handle == attested.value.handle
                && result.marked
                && result.issued == Some(Drawn(old(Now()), old(Caller(cookie)).value.user, sha, upper, raws))
                && Did(FinishRegistration(sha(cookie.value), sha(token), result))
      ensures reply.Codes? && old(Unused(Now(), Caller(cookie).value.user)) == {} ==> Recovery.Shows(reply.codes, raws)
      ensures !reply.Codes? ==>
          Untouched() || (cookie.Some? && Did(FinishRegistration(sha(cookie.value), sha(token), result)))
      ensures !reply.Codes? && result.Added? ==> !result.marked
      ensures fault == 0 && allowed && old(Caller(cookie)).Some? ==>
                var u := old(Caller(cookie)).value.user;
                reply.Codes? <==>
                  && old(MayMutate(Now(), sha(cookie.value)))
                  && token != "" && MayRegister(old(Now()), u, sha(token), row, attested)
                  && (old(Unused(Now(), u)) == {} ==>
                        Recovery.Insertable(map[], Recovery.Stored(sha, upper, raws), CODES))
    {
      hide After, Enabled, Mark, MayMutate, IsRun, Last, Extend, MayRegister, Registers, PrincipalOf;
      hide Drawn, Recovery.Insertable, Recovery.Stored, Recovery.Shows, Issue, Unused;
      var g := GuardMutation(cookie, allowed, fault);
      result := Dropped;
      if g.Stop? { return g.reply, result; }
      var p := g.p;
      var user := p.user;
      ghost var s, h, live := Now(), sha(cookie.value), token != "" && Live(Now(), sha(token));
      var made := FinishAttestation(user, token, row, attested, fault);
      if made.None? {
        if live {
          DroppedRegisters(s, user, sha(token));
          RegistrationStep(s, h, p, sha(token), result);
          Record(s, FinishRegistration(h, sha(token), result));
        }
        return BadRequest, result;
      }
      SameCodes(s, Now(), user, sha, upper, raws);
      WhoIsLive(s, h, p);
      var recovery := EnsureRecoveryCodes(user, raws, fault);
      var marked := false;
      if recovery.None? {
        result := Added(row, made.value, None, false);
      } else {
        marked := MarkSession(p, fault == 4);
        result := Added(row, made.value, Some(Drawn(s, user, sha, upper, raws)), marked);
      }
      NewCredential(s, user, sha(token), row, attested, result);
      RegistrationStep(s, h, p, sha(token), result);
      Record(s, FinishRegistration(h, sha(token), result));
      reply := if marked then Codes(recovery.value) else Broken;
    }

    method DeleteWebAuthnCredential(cookie: Option<string>, row: Id, fault: nat) returns (reply: Reply)
      requires Valid()
      modifies this
      ensures reply.Done? ==> cookie.Some? && Did(DeleteCredential(sha(cookie.value), row))
      ensures !reply.Done? ==> Untouched()
      ensures fault == 0 && cookie.Some? ==>
          (reply.Done? <==> old(Enabled(Now(), DeleteCredential(sha(cookie.value), row))))
      ensures reply.Done? ==>
                && cookie.Some? && sha(cookie.value) in old(sessions)
                && var session := old(sessions)[sha(cookie.value)];
                && !session.revoked && now < session.expires && session.mfaVerified
                && row in old(credentials) && old(credentials)[row].user == session.user
                && credentials == old(credentials) - {row}
      ensures fault == 0 && cookie.Some? ==> (reply.Conflict? <==>
                && MayMutate(old(Now()), sha(cookie.value))
                && Required(policy, old(Caller(cookie)).value.user, None)
                && !TotpOn(old(Now()), old(Caller(cookie)).value.user)
                && |CredentialsOf(old(Now()), old(Caller(cookie)).value.user)| <= 1)
    {
      var g := GuardMutation(cookie, true, fault);
      if g.Stop? { return g.reply; }
      var p := g.p;
      var user := p.user;
      if fault == 2 { return BadRequest; }
      if Required(policy, user, None) && !TotpOn(Now(), user) && |CredentialsOf(Now(), user)| <= 1 { return Conflict; }
      if fault == 3 { return BadRequest; }
      if row !in credentials || credentials[row].user != user { return NotEnrolled; }
      ghost var e := DeleteCredential(sha(cookie.value), row);
      ExtendRun(history, e);
      history := Extend(history, e);
      credentials := credentials - {row};
      reply := Done;
    }

    // ----- the second step of a sign-in -----

    /** Service.VerifyTOTP: the complaint, if any. */
    method CheckTotp(user: Id, code: string, fault: nat) returns (complaint: Option<Reply>)
      ensures complaint.None? <==> fault != 1 && TotpOn(Now(), user) && ValidCode(Now(), user, code)
      ensures complaint.Some? ==>
                complaint.value ==
                if !TotpOn(Now(), user) then NotEnrolled
                else if !ValidCode(Now(), user, code) then InvalidCode
                else BadRequest
    {
      if !TotpOn(Now(), user) { return Some(NotEnrolled); }
      if !totpValid(totp[user].secret, code, now) { return Some(InvalidCode); }
      complaint := if fault == 1 then Some(BadRequest) else None;
    }

    /** Service.VerifyRecoveryCode: one transaction that spends the code. */
    method SpendRecoveryCode(user: Id, digest: Hash, fault: nat) returns (complaint: Option<Reply>)
      modifies `codes
      ensures complaint.None? <==> fault != 1 && digest in old(Unused(Now(), user))
      ensures complaint.None? ==> codes == old(codes)[user := old(CodesOf(Now(), user))[digest := true]]
      ensures complaint.Some? ==> codes == old(codes)
      ensures complaint.Some? ==> complaint.value == if digest in Unused(Now(), user) then BadRequest else InvalidCode
    {
      if digest !in CodesOf(Now(), user) || CodesOf(Now(), user)[digest] { return Some(InvalidCode); }
      if fault == 1 { return Some(BadRequest); }
      codes := codes[user := CodesOf(Now(), user)[digest := true]];
      complaint := None;
    }

    /** verifyMFAFactor with the method "totp". */
    method VerifyByTotp(p: Principal, code: string, fault: nat) returns (reply: Reply)
      requires Valid() && Who(Now(), p.session) == Some(p)
      modifies this
      ensures reply.Done? ==> Did(VerifyTotp(p.session, code, true))
      ensures !reply.Done? ==> Untouched()
      ensures fault == 0 ==> (reply.Done? <==> old(Enabled(Now(), VerifyTotp(p.session, code, true))))
    {
      hide After, Enabled, MayMutate, PrincipalOf, IsRun, Last, Extend, TotpOn, ValidCode;
      ghost var s, e := Now(), VerifyTotp(p.session, code, true);
      StepOf(s, e, p);
      var complaint := CheckTotp(p.user, code, fault);
      if complaint.Some? { return complaint.value; }
      var marked := MarkSession(p, fault == 2);
      if !marked { return Broken; }
      Record(s, e);
      reply := Done;
    }

    /** verifyMFAFactor with the method "recovery": the code stays spent if marking fails. */
    method VerifyByRecovery(p: Principal, digest: Hash, fault: nat) returns (reply: Reply)
      requires Valid() && Who(Now(), p.session) == Some(p)
      modifies this
      ensures reply.Done? ==> Did(UseRecovery(p.session, digest, true))
      ensures !reply.Done? ==> Untouched() || Did(UseRecovery(p.session, digest, false))
      ensures fault == 0 ==> (reply.Done? <==> old(Enabled(Now(), UseRecovery(p.session, digest, true))))
    {
      hide After, Enabled, PrincipalOf, IsRun, Last, Extend, Unused, CodesOf, Mark;
      ghost var s := Now();
      RecoveryStep(s, p.session, p, digest, true);
      WhoIsLive(s, p.session, p);
      var complaint := SpendRecoveryCode(p.user, digest, fault);
      if complaint.Some? { return complaint.value; }
      var marked := MarkSession(p, fault == 2);
      RecoveryStep(s, p.session, p, digest, marked);
      Record(s, UseRecovery(p.session, digest, marked));
      reply := if marked then Done else Broken;
    }

    method VerifyMFAFactor(cookie: Option<string>, allowed: bool, factor: string, code: string, fault: nat)
        returns (reply: Reply)
      requires Valid()
      modifies this
      ensures reply.Done? ==> cookie.Some?
      ensures reply.Done? ==>
                match Recovery.TrimSpace(factor)
                case "totp" => Did(VerifyTotp(sha(cookie.value), Recovery.TrimSpace(code), true))
                case "recovery" => Did(UseRecovery(sha(cookie.value), sha(Recovery.Normalize(upper, code)), true))
                case _ => false
      ensures !reply.Done? ==>
                || Untouched()
                || (cookie.Some? && Recovery.TrimSpace(factor) == "recovery"
                    && Did(UseRecovery(sha(cookie.value), sha(Recovery.Normalize(upper, code)), false)))
      ensures fault == 0 && allowed && old(Caller(cookie)).Some? ==>
                (reply.Done? <==>
                   match Recovery.TrimSpace(factor)
                   case "totp" => old(Enabled(Now(), VerifyTotp(sha(cookie.value), Recovery.TrimSpace(code), true)))
                   case "recovery" =>
                     old(Enabled(Now(), UseRecovery(sha(cookie.value), sha(Recovery.Normalize(upper, code)), true)))
                   case _ => false)
    {
      hide After, Enabled, IsRun, Last, Extend, PrincipalOf, Recovery.TrimSpace, Recovery.Normalize;
      var p := Caller(cookie);
      if p.None? { return Unauthenticated; }
      if !allowed { return TooMany; }
      WhoIsLive(Now(), sha(cookie.value), p.value);
      match Recovery.TrimSpace(factor) {
        case "totp" => reply := VerifyByTotp(p.value, Recovery.TrimSpace(code), fault);
        case "recovery" => reply := VerifyByRecovery(p.value, sha(Recovery.Normalize(upper, code)), fault);
        case _ => reply := BadRequest;
      }
    }

    /** Whatever calls were made so far, the laws of runs hold of the present state and of the
        calls themselves. */
    lemma Guarantees(h: Hash, u: Id)
      requires Valid()
      ensures |Unused(Now(), u)| <= CODES
      ensures Verified(Now(), h) ==> exists k :: 0 <= k < |history.steps| && Earned(history, k, h, sessions[h].user)
      ensures Admitted(Now(), h).Some? && Required(policy, Admitted(Now(), h).value.user, None) ==>
                exists k :: 0 <= k < |history.steps| && Earned(history, k, h, Admitted(Now(), h).value.user)
      ensures (exists i :: 0 <= i < |history.states| && RevokedIn(history.states[i], h)) ==> Who(Now(), h).None?
      ensures forall i :: 0 <= i < |history.steps| && UsesCode(history, i, u) ==>
                exists k :: 0 <= k < i && IssuedAt(history, k, i, u)
      ensures forall i, c :: 0 <= i < |history.steps| && Takes(history.states[i], history.steps[i], c) ==>
                exists k :: 0 <= k < i && BegunAt(history, k, i, c)
    {
      hide StepAt, Initial, Earned, Admitted, Required, Unused, PrincipalOf, IssuedAt, BegunAt, RevokedIn, Acts, Takes;
      AtMostTenCodes(history, |history.steps|, u);
      EarnedNow(history, h);
      if i :| 0 <= i < |history.states| && RevokedIn(history.states[i], h) {
        RevokedNow(history, i, h);
      }
      forall i | 0 <= i < |history.steps| && UsesCode(history, i, u)
        ensures exists k :: 0 <= k < i && IssuedAt(history, k, i, u)
      {
        CodeWasIssued(history, i, u);
      }
      forall i, c | 0 <= i < |history.steps| && Takes(history.states[i], history.steps[i], c)
        ensures exists k :: 0 <= k < i && BegunAt(history, k, i, c)
      {
        CeremonyWasBegun(history, i, c);
      }
    }
  }

  // ----- the laws of runs, as the class passes them on -----

  ghost predicate RevokedIn(s: State, h: Hash) {
    h in s.sessions && s.sessions[h].revoked
  }

  /** In step `i` the user succeeds with a recovery code. */
  ghost predicate UsesCode(run: Run, i: nat, u: Id)
    requires i < |run.steps| < |run.states|
  {
    run.steps[i].UseRecovery? && Acts(run.states[i], run.steps[i], u)
  }

  /** The code used in step `i` was issued to the user in step `k`, and not cancelled since. */
  ghost predicate IssuedAt(run: Run, k: nat, i: nat, u: Id)
    requires i < |run.steps| && |run.states| == |run.steps| + 1 && run.steps[i].UseRecovery?
  {
    && k < i && Issues(run.states[k], run.steps[k], u, run.steps[i].digest)
    && forall m :: k < m < i ==> !Cancels(run.states[m], run.steps[m], u, run.steps[i].digest)
  }

  /** The ceremony taken in step `i` was begun in step `k`, less than five minutes before, and not
      touched since. */
  ghost predicate BegunAt(run: Run, k: nat, i: nat, c: Hash)
    requires i < |run.steps| && |run.states| == |run.steps| + 1
  {
    && k < i && run.steps[k].Begin? && run.steps[k].c == c && run.states[i].now < run.states[k].now + CEREMONY_TTL
    && forall m :: k < m < i ==> !Takes(run.states[m], run.steps[m], c) && !(run.steps[m].Begin? && run.steps[m].c == c)
  }

  lemma EarnedNow(run: Run, h: Hash)
    requires IsRun(run)
    ensures Verified(run.states[|run.steps|], h) ==>
              exists k :: 0 <= k < |run.steps| && Earned(run, k, h, run.states[|run.steps|].sessions[h].user)
    ensures
      var s := run.states[|run.steps|];
      Admitted(s, h).Some? && Required(s.policy, Admitted(s, h).value.user, None) ==>
        exists k :: 0 <= k < |run.steps| && Earned(run, k, h, Admitted(s, h).value.user)
  {
    hide Required, PrincipalOf, HasPrimary, StepAt, Initial, Proves, EnrolsFirst;
    var n := |run.steps|;
    var s := run.states[n];
    if Verified(s, h) {
      var k := AssuranceIsEarned(run, n, h);
      assert Earned(run, k, h, s.sessions[h].user);
    }
    if Admitted(s, h).Some? && Required(s.policy, Admitted(s, h).value.user, None) {
      var k := AdmissionIsEarned(run, n, h);
      assert Earned(run, k, h, Admitted(s, h).value.user);
    }
  }

  lemma RevokedNow(run: Run, i: nat, h: Hash)
    requires IsRun(run) && i < |run.states| && RevokedIn(run.states[i], h)
    ensures Who(run.states[|run.steps|], h).None?
  {
    RevokedForever(run, i, |run.steps|, h);
  }

  lemma CodeWasIssued(run: Run, i: nat, u: Id)
    requires IsRun(run) && i < |run.steps| && UsesCode(run, i, u)
    ensures exists k :: 0 <= k < i && IssuedAt(run, k, i, u)
  {
    var k := RecoveryCodesWorkOnce(run, i, u);
    assert IssuedAt(run, k, i, u);
  }

  lemma CeremonyWasBegun(run: Run, i: nat, c: Hash)
    requires IsRun(run) && i < |run.steps| && Takes(run.states[i], run.steps[i], c)
    ensures exists k :: 0 <= k < i && BegunAt(run, k, i, c)
  {
    assert StepAt(run, i);
    var u := Who(run.states[i], run.steps[i].h).value.user;
    var k := CeremonyServesItsOwner(run, i, c, u);
    assert BegunAt(run, k, i, c);
  }

  // ----- what a user can do with the codes shown -----

  /** Whatever step issued the code (an enrolment of either kind or a regeneration), it is
      accepted right afterwards from any live session of its user. */
  lemma IssuedCodeWorks(s: State, e: Step, u: Id, digest: Hash, other: Hash)
    requires Enabled(s, e) && Issues(s, e, u, digest)
    requires Who(After(s, e), other).Some? && Who(After(s, e), other).value.user == u
    ensures Enabled(After(s, e), UseRecovery(other, digest, true))
  {
    hide After, Enabled, PrincipalOf, CodesOf, UnusedIn, Issue;
    OwnCodesAfter(s, e, u);
    match e {
      case ConfirmTotp(_, _, issued, _) => UnusedAfterIssue(CodesOf(s, u), issued);
      case Regenerate(_, issued) => UnusedAfterIssue(map[], issued);
      case FinishRegistration(_, _, Added(_, _, Some(issued), _)) => UnusedAfterIssue(map[], issued);
    }
    UnusedWorks(After(s, e), other, digest);
  }

  lemma UnusedWorks(s: State, h: Hash, digest: Hash)
    requires Who(s, h).Some? && digest in Unused(s, Who(s, h).value.user)
    ensures Enabled(s, UseRecovery(h, digest, true))
  {
  }

  /** A code made from one of the draws, typed back in any of the accepted ways, is accepted
      after every step that issued those draws. */
  lemma ShownCodesWork(s: State, e: Step, u: Id, sha: string -> Hash, upper: char -> char, raws: seq<Bytes>,
                       i: nat, other: Hash, typed: string)
    requires TenDraws(raws) && i < CODES && Recovery.LawfulUpper(upper)
    requires Enabled(s, e) && Acts(s, e, u)
    requires
      var drawn := DigestsOf(Recovery.Stored(sha, upper, raws));
      match e
      case ConfirmTotp(_, _, issued, _) => issued == drawn
      case Regenerate(_, issued) => issued == drawn
      case FinishRegistration(_, _, Added(_, _, issued, _)) => issued == Some(drawn)
      case _ => false
    requires Who(After(s, e), other).Some? && Who(After(s, e), other).value.user == u
    requires Recovery.Normalize(upper, typed) == Encode32(raws[i])
    ensures Enabled(After(s, e), UseRecovery(other, sha(Recovery.Normalize(upper, typed)), true))
  {
    hide Encode32, Recovery.Normalize, PrincipalOf, HasPrimary, After, Enabled;
    Recovery.NormalizeReadsBack(upper, raws[i]);
    var digest := sha(Recovery.Normalize(upper, typed));
    assert Recovery.Stored(sha, upper, raws)[i] == digest;
    assert digest in DigestsOf(Recovery.Stored(sha, upper, raws));
    assert Issues(s, e, u, digest);
    IssuedCodeWorks(s, e, u, digest, other);
  }
}
