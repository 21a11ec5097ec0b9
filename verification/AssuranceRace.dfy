/**
  A run in which a session becomes verified without any proof although its user has a factor:
  the factor status was read before another session of the same user enrolled one. See
  Assurance.LateEnrolmentIff for when this happens.
 */
module AssuranceRace {
  import opened Accounts
  import opened Mfa
  import A = Assurance

  /** A user with two unverified sessions `a` and `b` and no factor. Through `a` a TOTP secret has
      been stored that `code` fits; through `b` the registration ceremony `c` has begun. The new
      credential gets the row `row`, the confirmation the codes `issued`. */
  datatype Scenario = Scenario(
    st: State, user: Id, a: Hash, b: Hash, code: string, c: Hash, row: Id, credential: Credential, issued: set<Hash>)

  ghost predicate Ripe(x: Scenario) {
    && Who(x.st, x.a).Some? && Who(x.st, x.a).value.user == x.user && !Verified(x.st, x.a)
    && Who(x.st, x.b).Some? && Who(x.st, x.b).value.user == x.user
    && !HasPrimary(x.st, x.user) && ValidCode(x.st, x.user, x.code)
    && Live(x.st, x.c) && x.st.ceremonies[x.c].user == x.user && !x.st.ceremonies[x.c].kind.SignIn?
    && A.MayLoad(x.st, x.user)
    && x.row !in x.st.credentials && x.credential.user == x.user
    && (forall r :: r in x.st.credentials ==> x.st.credentials[r].handle != x.credential.handle)
    && |x.issued| == (if Unused(x.st, x.user) == {} then CODES else 0) && x.issued !! CodesOf(x.st, x.user).Keys
  }

  ghost function First(x: Scenario, stage: A.Stage): A.Req
    requires Ripe(x)
  {
    A.Req(A.ConfirmJob(x.code), Who(x.st, x.a).value, stage)
  }

  ghost function Second(x: Scenario, stage: A.Stage): A.Req
    requires Ripe(x)
  {
    A.Req(A.RegisterJob(x.c), Who(x.st, x.b).value, stage)
  }

  ghost function Cer(x: Scenario): Ceremony
    requires Ripe(x)
  {
    x.st.ceremonies[x.c]
  }

  ghost function Taken(x: Scenario): State {
    x.st.(ceremonies := x.st.ceremonies - {x.c})
  }

  /** The other session's credential is stored. */
  ghost function Keyed(x: Scenario): State {
    Taken(x).(credentials := x.st.credentials[x.row := x.credential])
  }

  ghost function Confirmed(x: Scenario): State
    requires Ripe(x)
  {
    Keyed(x).(totp := x.st.totp[x.user := x.st.totp[x.user].(active := true)],
              codes := x.st.codes[x.user := Issue(CodesOf(x.st, x.user), x.issued)])
  }

  ghost function Marked(x: Scenario): State
    requires Ripe(x)
  {
    Confirmed(x).(sessions := Mark(x.st.sessions, x.a, true))
  }

  ghost function One(st: State, first: A.Req): A.Sys {
    A.Sys(st, map[0 := first], map[])
  }

  ghost function Two(st: State, first: A.Req, second: A.Req): A.Sys {
    A.Sys(st, map[0 := first][1 := second], map[])
  }

  ghost predicate Leads(s: A.Sys, l: A.Label, s': A.Sys) {
    A.Can(s, l) && A.Do(s, l) == s'
  }

  ghost function Start(x: Scenario): A.Sys {
    A.Sys(x.st, map[], map[])
  }

  lemma Step1(x: Scenario)
    requires Ripe(x)
    ensures Leads(Start(x), A.Arrive(0, x.a, A.ConfirmJob(x.code)), One(x.st, First(x, A.Arrived)))
  {
    hide PrincipalOf, HasPrimary, CodesOf, Unused, Live, ValidCode;
  }

  lemma Step2(x: Scenario)
    requires Ripe(x)
    ensures Leads(One(x.st, First(x, A.Arrived)), A.Guard(0), One(x.st, First(x, A.Guarded)))
  {
    hide PrincipalOf, HasPrimary, CodesOf, Unused, Live, ValidCode;
  }

  lemma Step3(x: Scenario)
    requires Ripe(x)
    ensures Leads(One(x.st, First(x, A.Guarded)), A.ReadTotp(0), One(x.st, First(x, A.Checked)))
  {
    hide PrincipalOf, HasPrimary, CodesOf, Unused, Live, ValidCode;
  }

  lemma Step4(x: Scenario)
    requires Ripe(x)
    ensures Leads(One(x.st, First(x, A.Checked)), A.Arrive(1, x.b, A.RegisterJob(x.c)),
                  Two(x.st, First(x, A.Checked), Second(x, A.Arrived)))
  {
    hide PrincipalOf, HasPrimary, CodesOf, Unused, Live, ValidCode;
  }

  lemma Step5(x: Scenario)
    requires Ripe(x)
    ensures Leads(Two(x.st, First(x, A.Checked), Second(x, A.Arrived)), A.Guard(1),
                  Two(x.st, First(x, A.Checked), Second(x, A.Guarded)))
  {
    hide PrincipalOf, HasPrimary, CodesOf, Unused, Live, ValidCode;
  }

  lemma Step6(x: Scenario)
    requires Ripe(x)
    ensures Leads(Two(x.st, First(x, A.Checked), Second(x, A.Guarded)), A.Take(1),
                  Two(Taken(x), First(x, A.Checked), Second(x, A.Taken(Cer(x)))))
  {
    hide PrincipalOf, HasPrimary, CodesOf, Unused, ValidCode;
  }

  lemma Step7(x: Scenario)
    requires Ripe(x)
    ensures Leads(Two(Taken(x), First(x, A.Checked), Second(x, A.Taken(Cer(x)))), A.Load(1),
                  Two(Taken(x), First(x, A.Checked), Second(x, A.Loaded(Cer(x)))))
  {
    hide PrincipalOf, HasPrimary, CodesOf, Unused, ValidCode;
  }

  lemma Step8(x: Scenario)
    requires Ripe(x)
    ensures Leads(Two(Taken(x), First(x, A.Checked), Second(x, A.Loaded(Cer(x)))), A.Insert(1, x.row, x.credential),
                  Two(Keyed(x), First(x, A.Checked), Second(x, A.KeyAdded)))
  {
    hide PrincipalOf, HasPrimary, CodesOf, Unused, ValidCode;
  }

  lemma Step9(x: Scenario)
    requires Ripe(x)
    ensures Leads(Two(Keyed(x), First(x, A.Checked), Second(x, A.KeyAdded)), A.Enrol(0, x.issued),
                  Two(Confirmed(x), First(x, A.Enrolled), Second(x, A.KeyAdded)))
  {
    hide PrincipalOf, HasPrimary, Unused, CodesOf, Live, Issue;
    SameCodes(x);
  }

  lemma SameCodes(x: Scenario)
    requires Ripe(x)
    ensures CodesOf(Keyed(x), x.user) == CodesOf(x.st, x.user) && Unused(Keyed(x), x.user) == Unused(x.st, x.user)
  {
  }

  lemma Step10(x: Scenario)
    requires Ripe(x)
    ensures Leads(Two(Confirmed(x), First(x, A.Enrolled), Second(x, A.KeyAdded)), A.SetMark(0),
                  A.Sys(Marked(x), map[1 := Second(x, A.KeyAdded)], map[]))
  {
    hide HasPrimary, CodesOf, Unused, Live, ValidCode, Issue;
    assert map[0 := First(x, A.Enrolled)][1 := Second(x, A.KeyAdded)] - {0} == map[1 := Second(x, A.KeyAdded)];
  }

  ghost function RaceLabels(x: Scenario): seq<A.Label> {
    [A.Arrive(0, x.a, A.ConfirmJob(x.code)), A.Guard(0), A.ReadTotp(0),
     A.Arrive(1, x.b, A.RegisterJob(x.c)), A.Guard(1), A.Take(1), A.Load(1), A.Insert(1, x.row, x.credential),
     A.Enrol(0, x.issued), A.SetMark(0)]
  }

  ghost function RaceStates(x: Scenario): seq<A.Sys>
    requires Ripe(x)
  {
    [Start(x), One(x.st, First(x, A.Arrived)), One(x.st, First(x, A.Guarded)), One(x.st, First(x, A.Checked)),
     Two(x.st, First(x, A.Checked), Second(x, A.Arrived)), Two(x.st, First(x, A.Checked), Second(x, A.Guarded)),
     Two(Taken(x), First(x, A.Checked), Second(x, A.Taken(Cer(x)))),
     Two(Taken(x), First(x, A.Checked), Second(x, A.Loaded(Cer(x)))),
     Two(Keyed(x), First(x, A.Checked), Second(x, A.KeyAdded)),
     Two(Confirmed(x), First(x, A.Enrolled), Second(x, A.KeyAdded)),
     A.Sys(Marked(x), map[1 := Second(x, A.KeyAdded)], map[])]
  }

  lemma RaceSteps(x: Scenario)
    requires Ripe(x)
    ensures A.Steps(A.History(RaceStates(x), RaceLabels(x)))
  {
    hide A.Can, A.Do, Start, One, Two, First, Second, Taken, Keyed, Confirmed, Marked, Cer, Ripe;
    Step1(x); Step2(x); Step3(x); Step4(x); Step5(x); Step6(x); Step7(x); Step8(x); Step9(x); Step10(x);
    var h := A.History(RaceStates(x), RaceLabels(x));
    forall i | 0 <= i < |h.labels| ensures A.NextAt(h, i) {
      assert Leads(h.states[i], h.labels[i], h.states[i + 1]);
    }
  }

  lemma RaceEnds(x: Scenario)
    requires Ripe(x)
    ensures HasPrimary(Keyed(x), x.user) && HasPrimary(Confirmed(x), x.user)
    ensures !Verified(Keyed(x), x.a) && !MayMutate(Keyed(x), x.a) && !Verified(Confirmed(x), x.a)
    ensures VerifiedFor(Marked(x), x.a, x.user)
  {
    hide CodesOf, Unused, Live, ValidCode, Issue, TotpOn;
    assert x.row in CredentialsOf(Keyed(x), x.user) && x.row in CredentialsOf(Confirmed(x), x.user);
  }

  /** From every such state with nothing in flight: the first session becomes verified by an
      enrolment (step 9) although the user has had a factor since step 8 and that session could
      no longer change factors by then. No step of the request proves anything. */
  lemma VerifiedWithoutProof(x: Scenario) returns (h: A.History)
    requires Ripe(x)
    ensures A.Steps(h) && h.states[0] == Start(x) && |h.labels| == 10
    ensures h.labels[1] == A.Guard(0) && h.labels[8] == A.Enrol(0, x.issued) && h.labels[9] == A.SetMark(0)
    ensures forall m :: 8 <= m < 10 ==> HasPrimary(h.states[m].state, x.user)
    ensures !MayMutate(h.states[8].state, x.a) && !Verified(h.states[9].state, x.a)
    ensures VerifiedFor(h.states[10].state, x.a, x.user)
    ensures forall m :: 0 <= m < 10 ==> !A.Proof(h.states[m], h.labels[m], 0)
  {
    hide A.Can, A.Do, A.Steps, A.Proof, Ripe, HasPrimary, MayMutate, Keyed, Confirmed, Marked, Taken, Start, One, Two;
    h := A.History(RaceStates(x), RaceLabels(x));
    RaceSteps(x);
    RaceEnds(x);
    EndStates(x);
    forall m | 0 <= m < 10 ensures !A.Proof(h.states[m], h.labels[m], 0) {
      ProvesNothing(x, m);
    }
  }

  lemma EndStates(x: Scenario)
    requires Ripe(x)
    ensures RaceStates(x)[8].state == Keyed(x) && RaceStates(x)[9].state == Confirmed(x)
    ensures RaceStates(x)[10].state == Marked(x)
  {
    hide Ripe, Keyed, Confirmed, Marked, Taken;
  }

  lemma ProvesNothing(x: Scenario, m: nat)
    requires Ripe(x) && m < 10
    ensures !A.Proof(RaceStates(x)[m], RaceLabels(x)[m], 0)
  {
    hide Ripe, Keyed, Confirmed, Marked, Taken, TotpOn, ValidCode, CredentialsOf, Unused;
  }

  // ----- Such a state is reached -----

  const ALICE := Uuid(0)
  const SESSION_A := Digest(0)
  const SESSION_B := Digest(1)
  const CEREMONY := Digest(2)

  function Blank(users: map<Id, User>, sessions: map<Hash, Session>, totp: map<Id, Totp>, enrolled: set<Id>,
                 ceremonies: map<Hash, Ceremony>): State {
    State((k, c, t) => true, 0, users, sessions, Policy(false, {}, {}, {}), totp, map[], enrolled, map[], ceremonies)
  }

  function Users(): map<Id, User> {
    map[ALICE := User(true, false)]
  }

  function OneOpen(): map<Hash, Session> {
    map[SESSION_A := Session(ALICE, 60 * MINUTE, false, false)]
  }

  function BothOpen(): map<Hash, Session> {
    OneOpen()[SESSION_B := Session(ALICE, 60 * MINUTE, false, false)]
  }

  function Pending(): map<Id, Totp> {
    map[ALICE := Totp(Secret(1), false)]
  }

  function Begun(): map<Hash, Ceremony> {
    map[CEREMONY := Ceremony(ALICE, Passkey, CEREMONY_TTL)]
  }

  function Alice(session: Hash): Principal {
    Principal(session, ALICE, false, false)
  }

  function StartsTotp(stage: A.Stage): A.Req {
    A.Req(A.StartTotpJob(Secret(1)), Alice(SESSION_A), stage)
  }

  function StartsKey(stage: A.Stage): A.Req {
    A.Req(A.StartKeyJob(CEREMONY, Passkey), Alice(SESSION_B), stage)
  }

  function Idle(st: State): A.Sys {
    A.Sys(st, map[], map[])
  }

  function Open(): State {
    Blank(Users(), BothOpen(), map[], {}, map[])
  }

  function WithTotp(): State {
    Blank(Users(), BothOpen(), Pending(), {}, map[])
  }

  function WithHandle(): State {
    Blank(Users(), BothOpen(), Pending(), {ALICE}, map[])
  }

  function Reached(): State {
    Blank(Users(), BothOpen(), Pending(), {ALICE}, Begun())
  }

  lemma Prefix1()
    ensures Leads(Idle(Blank(map[], map[], map[], {}, map[])), A.World(Administer(Users(), Policy(false, {}, {}, {}))),
                  Idle(Blank(Users(), map[], map[], {}, map[])))
  {
  }

  lemma Prefix2()
    ensures Leads(Idle(Blank(Users(), map[], map[], {}, map[])), A.World(Login(SESSION_A, ALICE, 60 * MINUTE)),
                  Idle(Blank(Users(), OneOpen(), map[], {}, map[])))
  {
  }

  lemma Prefix3()
    ensures Leads(Idle(Blank(Users(), OneOpen(), map[], {}, map[])), A.World(Login(SESSION_B, ALICE, 60 * MINUTE)),
                  Idle(Open()))
  {
  }

  lemma NoFactor(st: State)
    requires st.credentials == map[] && !TotpOn(st, ALICE)
    ensures !HasPrimary(st, ALICE) && CredentialsOf(st, ALICE) == {}
  {
  }

  lemma Prefix4()
    ensures Leads(Idle(Open()), A.Arrive(0, SESSION_A, A.StartTotpJob(Secret(1))), One(Open(), StartsTotp(A.Arrived)))
  {
  }

  lemma Prefix5()
    ensures Leads(One(Open(), StartsTotp(A.Arrived)), A.Guard(0), One(Open(), StartsTotp(A.Guarded)))
  {
    NoFactor(Open());
  }

  lemma Prefix6()
    ensures Leads(One(Open(), StartsTotp(A.Guarded)), A.ReadTotp(0), One(Open(), StartsTotp(A.Permitted)))
  {
  }

  lemma Prefix7()
    ensures Leads(One(Open(), StartsTotp(A.Permitted)), A.Store(0), Idle(WithTotp()))
  {
  }

  lemma Prefix8()
    ensures Leads(Idle(WithTotp()), A.Arrive(0, SESSION_B, A.StartKeyJob(CEREMONY, Passkey)),
                  One(WithTotp(), StartsKey(A.Arrived)))
  {
  }

  lemma Prefix9()
    ensures Leads(One(WithTotp(), StartsKey(A.Arrived)), A.Guard(0), One(WithTotp(), StartsKey(A.Guarded)))
  {
    NoFactor(WithTotp());
  }

  lemma Prefix10()
    ensures Leads(One(WithTotp(), StartsKey(A.Guarded)), A.Load(0), One(WithHandle(), StartsKey(A.Permitted)))
  {
  }

  lemma Prefix11()
    ensures Leads(One(WithHandle(), StartsKey(A.Permitted)), A.Store(0), Idle(Reached()))
  {
  }

  function Example(): Scenario {
    Scenario(Reached(), ALICE, SESSION_A, SESSION_B, "123456", CEREMONY, Uuid(9), Credential(ALICE, Handle(1), true),
             Digests(CODES))
  }

  lemma ExampleIsRipe()
    ensures Ripe(Example())
  {
    hide Digests;
    DigestCount(CODES);
    NoFactor(Reached());
    assert Unused(Reached(), ALICE) == {};
  }

  function PrefixLabels(): seq<A.Label> {
    [A.World(Administer(Users(), Policy(false, {}, {}, {}))), A.World(Login(SESSION_A, ALICE, 60 * MINUTE)),
     A.World(Login(SESSION_B, ALICE, 60 * MINUTE)),
     A.Arrive(0, SESSION_A, A.StartTotpJob(Secret(1))), A.Guard(0), A.ReadTotp(0), A.Store(0),
     A.Arrive(0, SESSION_B, A.StartKeyJob(CEREMONY, Passkey)), A.Guard(0), A.Load(0), A.Store(0)]
  }

  ghost function PrefixStates(): seq<A.Sys> {
    [Idle(Blank(map[], map[], map[], {}, map[])), Idle(Blank(Users(), map[], map[], {}, map[])),
     Idle(Blank(Users(), OneOpen(), map[], {}, map[])), Idle(Open()),
     One(Open(), StartsTotp(A.Arrived)), One(Open(), StartsTotp(A.Guarded)), One(Open(), StartsTotp(A.Permitted)),
     Idle(WithTotp()), One(WithTotp(), StartsKey(A.Arrived)), One(WithTotp(), StartsKey(A.Guarded)),
     One(WithHandle(), StartsKey(A.Permitted)), Idle(Reached())]
  }

  lemma PrefixSteps()
    ensures A.Steps(A.History(PrefixStates(), PrefixLabels()))
  {
    hide A.Can, A.Do, Idle, One, Blank, Users, OneOpen, Open, WithTotp, WithHandle, Reached, StartsTotp, StartsKey;
    Prefix1(); Prefix2(); Prefix3(); Prefix4(); Prefix5(); Prefix6();
    Prefix7(); Prefix8(); Prefix9(); Prefix10(); Prefix11();
    var h := A.History(PrefixStates(), PrefixLabels());
    forall i | 0 <= i < |h.labels| ensures A.NextAt(h, i) {
      assert Leads(h.states[i], h.labels[i], h.states[i + 1]);
    }
  }

  lemma Joined(h: A.History, g: A.History) returns (j: A.History)
    requires A.Steps(h) && A.Steps(g) && h.states[|h.labels|] == g.states[0]
    ensures A.Steps(j) && j.labels == h.labels + g.labels && j.states[0] == h.states[0]
    ensures forall i :: 0 <= i < |h.states| ==> j.states[i] == h.states[i]
    ensures forall i :: 0 <= i < |g.states| ==> j.states[|h.labels| + i] == g.states[i]
  {
    hide A.Can, A.Do;
    j := A.History(h.states + g.states[1..], h.labels + g.labels);
    forall i | 0 <= i < |j.labels| ensures A.NextAt(j, i) {
      if i < |h.labels| {
        assert A.NextAt(h, i);
      } else {
        assert A.NextAt(g, i - |h.labels|);
      }
    }
  }

  /** So it happens in a run from empty tables: two sign-ins, two enrolments begun, and the race. */
  lemma ItHappens() returns (h: A.History, n: nat)
    ensures A.IsHistory(h) && n + 1 < |h.states| && h.labels[n].SetMark?
    ensures forall m :: n - 1 <= m <= n ==> m >= 0 && HasPrimary(h.states[m].state, ALICE)
    ensures !Verified(h.states[n].state, SESSION_A) && VerifiedFor(h.states[n + 1].state, SESSION_A, ALICE)
    ensures forall m :: 0 <= m < |h.labels| ==> !A.Proof(h.states[m], h.labels[m], h.labels[n].t)
  {
    hide A.Can, A.Do, A.NextAt, A.Proof, Ripe, Initial, HasPrimary, Reached, Blank, Start, One;
    PrefixSteps();
    ExampleIsRipe();
    var race := VerifiedWithoutProof(Example());
    SameStart();
    var prefix := A.History(PrefixStates(), PrefixLabels());
    h := Joined(prefix, race);
    BlankIsInitial();
    n := 20;
    assert h.labels[20] == race.labels[9] && h.states[20] == race.states[9] && h.states[21] == race.states[10];
    assert h.states[19] == race.states[8];
    NothingProved(h, prefix, race);
  }

  lemma NothingProved(h: A.History, prefix: A.History, race: A.History)
    requires prefix == A.History(PrefixStates(), PrefixLabels()) && |race.labels| < |race.states|
    requires |h.labels| < |h.states| && h.labels == prefix.labels + race.labels
    requires forall i :: 0 <= i < 12 ==> h.states[i] == prefix.states[i]
    requires forall i :: 0 <= i < |race.labels| ==> 11 + i < |h.states| && h.states[11 + i] == race.states[i]
    requires forall m :: 0 <= m < |race.labels| ==> !A.Proof(race.states[m], race.labels[m], 0)
    ensures forall m :: 0 <= m < |h.labels| ==> !A.Proof(h.states[m], h.labels[m], 0)
  {
    hide A.Proof, Blank, Idle, One, Open, WithTotp, WithHandle, Reached, StartsTotp, StartsKey;
    forall m | 0 <= m < |h.labels| ensures !A.Proof(h.states[m], h.labels[m], 0) {
      if m >= 11 {
        assert h.states[11 + (m - 11)] == race.states[m - 11] && h.labels[m] == race.labels[m - 11];
      } else {
        NoProofYet(m);
      }
    }
  }

  lemma NoProofYet(m: nat)
    requires m < 11
    ensures !A.Proof(PrefixStates()[m], PrefixLabels()[m], 0)
  {
    hide Blank, Idle, Users, OneOpen, Open, WithTotp, WithHandle, Reached;
  }

  lemma SameStart()
    ensures Start(Example()) == Idle(Reached())
  {
  }

  lemma BlankIsInitial()
    ensures Initial(Blank(map[], map[], map[], {}, map[]))
  {
  }
}
