/**
  The SAML signing certificates (backend/internal/samlidp/certificates.go): like the signing
  keys, one active row at a time, but replaced once fewer than 30 days of validity are left.
 */
module Calendar {
  import opened Accounts

  const DAY: Time := 24 * 60 * MINUTE

  datatype Date = Date(year: nat, month: nat, day: nat)

  /** A date and the time of day, UTC. */
  datatype Instant = Instant(date: Date, clock: Time)

  predicate Leap(y: nat) {
    y % 4 == 0 && (y % 100 != 0 || y % 400 == 0)
  }

  function YearLength(y: nat): nat {
    if Leap(y) then 366 else 365
  }

  function MonthLength(y: nat, m: nat): nat {
    if m == 2 then (if Leap(y) then 29 else 28)
    else if m == 4 || m == 6 || m == 9 || m == 11 then 30
    else 31
  }

  function DaysBeforeYear(y: nat): nat {
    if y == 0 then 0 else DaysBeforeYear(y - 1) + YearLength(y - 1)
  }

  function DaysBeforeMonth(y: nat, m: nat): nat {
    if m <= 1 then 0 else DaysBeforeMonth(y, m - 1) + MonthLength(y, m - 1)
  }

  predicate IsDate(d: Date) {
    1 <= d.month <= 12 && 1 <= d.day <= MonthLength(d.year, d.month)
  }

  predicate IsInstant(i: Instant) {
    IsDate(i.date) && 0 <= i.clock < DAY
  }

  function DayNumber(d: Date): nat {
    DaysBeforeYear(d.year) + DaysBeforeMonth(d.year, d.month) + d.day
  }

  function Micros(i: Instant): Time {
    DayNumber(i.date) * DAY + i.clock
  }

  function TwoYearsOnDate(d: Date): Date {
    if d.month == 2 && d.day == 29 && !Leap(d.year + 2) then Date(d.year + 2, 3, 1)
    else Date(d.year + 2, d.month, d.day)
  }

  /** time.AddDate(2, 0, 0): 29 February becomes 1 March when the later year has none. */
  function TwoYearsOn(i: Instant): Instant {
    Instant(TwoYearsOnDate(i.date), i.clock)
  }

  lemma LeapsAreFourApart(y: nat)
    requires Leap(y)
    ensures !Leap(y + 1) && !Leap(y + 2)
  {
  }

  lemma {:induction false} MonthsShift(y: nat, z: nat, m: nat)
    ensures var shift := if m <= 2 then 0 else MonthLength(z, 2) - MonthLength(y, 2);
            DaysBeforeMonth(z, m) == DaysBeforeMonth(y, m) + shift
  {
    if m > 1 { MonthsShift(y, z, m - 1); }
  }

  lemma TwoYearsOfDays(d: Date)
    requires IsDate(d)
    ensures IsDate(TwoYearsOnDate(d))
    ensures 730 <= DayNumber(TwoYearsOnDate(d)) - DayNumber(d) <= 731
  {
    hide Leap, DaysBeforeMonth;
    var y := d.year;
    if Leap(y) { LeapsAreFourApart(y); }
    if Leap(y + 1) { LeapsAreFourApart(y + 1); }
    assert DaysBeforeYear(y + 2) == DaysBeforeYear(y) + YearLength(y) + YearLength(y + 1);
    MonthsShift(y, y + 2, d.month);
    MonthsShift(y, y + 2, 3);
    UntilMarch(y);
  }

  /** How many years before `y` are multiples of `n`, the year 0 among them. */
  function Multiples(y: nat, n: nat): nat
    requires n > 0
  {
    (y + n - 1) / n
  }

  lemma OneYearOn(y: nat)
    ensures Multiples(y + 1, 4) == Multiples(y, 4) + if y % 4 == 0 then 1 else 0
    ensures Multiples(y + 1, 100) == Multiples(y, 100) + if y % 100 == 0 then 1 else 0
    ensures Multiples(y + 1, 400) == Multiples(y, 400) + if y % 400 == 0 then 1 else 0
  {
  }

  lemma LengthOfYear(y: nat)
    ensures YearLength(y) == 365 + (if y % 4 == 0 then 1 else 0) - (if y % 100 == 0 then 1 else 0)
                                 + if y % 400 == 0 then 1 else 0
  {
    HundredsAreFours(y);
    FourHundreds(y);
  }

  lemma HundredsAreFours(y: nat)
    ensures y % 100 == 0 ==> y % 4 == 0
  {
    if y % 100 == 0 {
      FourTimes(y, 25 * (y / 100));
    }
  }

  lemma FourTimes(y: nat, k: int)
    requires y == 4 * k
    ensures y % 4 == 0
  {
  }

  lemma FourHundreds(y: nat)
    ensures y % 400 == 0 ==> y % 100 == 0
  {
    if y % 400 == 0 {
      HundredTimes(y, 4 * (y / 400));
    }
  }

  lemma HundredTimes(y: nat, k: int)
    requires y == 100 * k
    ensures y % 100 == 0
  {
  }

  lemma {:induction false} DaysCounted(y: nat)
    ensures DaysBeforeYear(y) == 365 * y + Multiples(y, 4) - Multiples(y, 100) + Multiples(y, 400)
  {
    hide YearLength, Multiples;
    if y == 0 {
      NoneBefore();
    } else {
      DaysCounted(y - 1);
      LengthOfYear(y - 1);
      OneYearOn(y - 1);
    }
  }

  lemma NoneBefore()
    ensures Multiples(0, 4) == Multiples(0, 100) == Multiples(0, 400) == 0
  {
  }

  /** The Gregorian calendar in closed form: a day more in every fourth year, but only in every
      fourth of the hundredth; and twelve months are a year. */
  lemma GregorianDays(y: nat)
    ensures DaysBeforeYear(y) == 365 * y + (y + 3) / 4 - (y + 99) / 100 + (y + 399) / 400
    ensures DaysBeforeMonth(y, 13) == YearLength(y)
  {
    hide DaysBeforeYear, YearLength, DaysBeforeMonth;
    MonthsAddUp(y);
    DaysCounted(y);
  }

  lemma MonthsAddUp(y: nat)
    ensures DaysBeforeMonth(y, 13) == YearLength(y)
  {
    hide Leap;
    UntilMarch(y);
    assert DaysBeforeMonth(y, 4) == DaysBeforeMonth(y, 3) + 31;
    assert DaysBeforeMonth(y, 5) == DaysBeforeMonth(y, 4) + 30;
    assert DaysBeforeMonth(y, 6) == DaysBeforeMonth(y, 5) + 31;
    assert DaysBeforeMonth(y, 7) == DaysBeforeMonth(y, 6) + 30;
    assert DaysBeforeMonth(y, 8) == DaysBeforeMonth(y, 7) + 31;
    assert DaysBeforeMonth(y, 9) == DaysBeforeMonth(y, 8) + 31;
    assert DaysBeforeMonth(y, 10) == DaysBeforeMonth(y, 9) + 30;
    assert DaysBeforeMonth(y, 11) == DaysBeforeMonth(y, 10) + 31;
    assert DaysBeforeMonth(y, 12) == DaysBeforeMonth(y, 11) + 30;
  }

  /** AddDate by two years keeps month and day; only 29 February, which no year two after a leap
      year has, becomes 1 March. */
  lemma TwoYearsOnIs(i: Instant)
    requires IsInstant(i)
    ensures TwoYearsOn(i).clock == i.clock
    ensures TwoYearsOn(i).date ==
              if i.date.month == 2 && i.date.day == 29 then Date(i.date.year + 2, 3, 1)
              else Date(i.date.year + 2, i.date.month, i.date.day)
  {
    if Leap(i.date.year) {
      LeapsAreFourApart(i.date.year);
    }
  }

  lemma UntilMarch(y: nat)
    ensures DaysBeforeMonth(y, 2) == 31 && DaysBeforeMonth(y, 3) == 31 + MonthLength(y, 2)
  {
    assert DaysBeforeMonth(y, 2) == DaysBeforeMonth(y, 1) + MonthLength(y, 1);
  }

  /** Two years on is a date again, 730 or 731 days later. */
  lemma TwoYearsLast(i: Instant)
    requires IsInstant(i)
    ensures IsInstant(TwoYearsOn(i))
    ensures 730 * DAY <= Micros(TwoYearsOn(i)) - Micros(i) <= 731 * DAY
  {
    hide DayNumber, TwoYearsOnDate;
    TwoYearsOfDays(i.date);
  }
}

module Certificates {
  import opened Accounts
  import opened Encoding
  import opened Rotation
  import opened Calendar
  import K = Keys

  datatype Certificate = Certificate(serial: nat, key: K.PublicKey, notBefore: Time, notAfter: Time)

  datatype CertificateAndKey = CertificateAndKey(certificate: Certificate, key: K.PrivateKey)

  type Rows = Table<Certificate>

  /** What rsa, rand and the database driver deliver for one rotation. */
  datatype Draw = Draw(key: K.PrivateKey, serial: nat, random: Bytes, nonce: Bytes)

  const MARGIN: Time := 30 * DAY

  /** The associated data of a sealed key. */
  function Label(kid: string): string {
    "saml:" + kid
  }

  ghost predicate Paired(c: CertificateAndKey) {
    c.certificate.key == K.Public(c.key)
  }

  /** The row opens under its label to the private half of its certificate. */
  predicate Sound(box: Box<K.PrivateKey>, kid: string, row: Row<Certificate>) {
    match Decrypt(box, Label(kid), row.sealed)
    case None => false
    case Some(k) => row.body.key == K.Public(k)
  }

  ghost predicate AllSound(box: Box<K.PrivateKey>, rows: Rows) {
    forall kid :: kid in rows ==> Sound(box, kid, rows[kid])
  }

  /** The certificate a rotation at `now` makes; not_before leaves five minutes for clock skew. */
  function Issued(d: Draw, now: Instant): Certificate {
    Certificate(d.serial, K.Public(d.key), Micros(now) - 5 * MINUTE, Micros(TwoYearsOn(now)))
  }

  function Inserted(box: Box<K.PrivateKey>, rows: Rows, d: Draw, now: Instant): Rows {
    var kid := Encode64(Url, d.random);
    Rotated(rows, kid, Encrypt(box, Label(kid), d.key, d.nonce), Issued(d, now))
  }

  lemma InsertedSound(box: Box<K.PrivateKey>, rows: Rows, d: Draw, now: Instant)
    requires Lawful(box) && AllSound(box, rows) && |d.nonce| == NONCE && Encode64(Url, d.random) !in rows
    ensures AllSound(box, Inserted(box, rows, d, now)) && Keeps(rows, Inserted(box, rows, d, now))
    ensures OneActive(Inserted(box, rows, d, now)) && IsActive(Inserted(box, rows, d, now), Encode64(Url, d.random))
  {
    var kid := Encode64(Url, d.random);
    var later := Inserted(box, rows, d, now);
    RotationKeeps(rows, kid, Encrypt(box, Label(kid), d.key, d.nonce), Issued(d, now));
    SealedKeyOpens(box, Label(kid), d.key, d.nonce);
    forall k | k in later ensures Sound(box, k, later[k]) {
      if k != kid { assert Sound(box, k, rows[k]); }
    }
  }

  class CertificateManager {
    const box: Box<K.PrivateKey>
    var rows: Rows

    ghost predicate Valid()
      reads this
    {
      Lawful(box) && OneActive(rows) && AllSound(box, rows)
    }

    constructor (box: Box<K.PrivateKey>)
      requires Lawful(box)
      ensures Valid() && rows == map[] && this.box == box
    {
      this.box, rows := box, map[];
    }

    method Rotate(d: Draw, now: Instant, fault: nat) returns (r: K.Result<CertificateAndKey>)
      requires Valid() && IsInstant(now) && |d.random| == 12 && |d.nonce| == NONCE
      modifies this
      ensures Valid()
      ensures r.Ok? <==> (fault == 0 || fault > 5) && Encode64(Url, d.random) !in old(rows)
      ensures r.Ok? ==> r.value == CertificateAndKey(Issued(d, now), d.key) && rows == Inserted(box, old(rows), d, now)
                        && Keeps(old(rows), rows) && r.value.certificate.notAfter - Micros(now) >= 730 * DAY
                        && IsActive(rows, Encode64(Url, d.random))
      ensures r.Ok? ==>
                var kid, made := Encode64(Url, d.random), r.value.certificate;
                && r.value.key == d.key && made.serial == d.serial && made.key == K.PublicKey(d.key.n, d.key.e)
                && made.notBefore == Micros(now) - 300_000_000 && made.notAfter == Micros(TwoYearsOn(now))
                && rows.Keys == old(rows).Keys + {kid} && rows[kid].active && rows[kid].body == made
                && rows[kid].sealed == d.nonce + box.seal(d.nonce, box.marshal(d.key), "saml:" + kid)
                && forall k :: k in old(rows) ==> rows[k] == old(rows)[k].(active := false)
      ensures r.Err? ==> rows == old(rows)
    {
      hide Encode64, Decrypt, Sound, Lawful, Micros, TwoYearsOn, IsInstant;
      if fault == 1 { return K.Err(K.Database); }
      var tx := rows;
      if fault == 2 { return K.Err(K.Database); }
      tx := Retired(tx);
      if fault == 3 { return K.Err(K.Database); }
      var certificate := Issued(d, now);
      var kid := Encode64(Url, d.random);
      if kid in tx || fault == 4 { return K.Err(K.Database); }
      tx := tx[kid := Row(true, Encrypt(box, Label(kid), d.key, d.nonce), certificate)];
      if fault == 5 { return K.Err(K.Database); }
      InsertedSound(box, rows, d, now);
      TwoYearsLast(now);
      rows := tx;
      r := K.Ok(CertificateAndKey(certificate, d.key));
    }

    /** `now` is read with the row and `later` when a rotation starts. Whatever is returned has at
        least 30 days left, belongs with its key, and is the one active certificate; it is the
        old one exactly when that has 30 days left. */
    method Active(d: Draw, now: Time, later: Instant, fault: nat) returns (r: K.Result<CertificateAndKey>)
      requires Valid() && IsInstant(later) && now <= Micros(later) && |d.random| == 12 && |d.nonce| == NONCE
      modifies this
      ensures Valid() && Keeps(old(rows), rows)
      ensures r.Ok? ==>
                && r.value.certificate.key == K.PublicKey(r.value.key.n, r.value.key.e)
                && r.value.certificate.notAfter - now >= 2_592_000_000_000
                && exists kid :: kid in rows && rows[kid].active && rows[kid].body == r.value.certificate
      ensures forall kid :: IsActive(old(rows), kid) && old(rows)[kid].body.notAfter - now >= 2_592_000_000_000 ==>
                rows == old(rows) && (fault == 0 ==> r.Ok? && r.value.certificate == rows[kid].body)
      ensures forall kid ::
                IsActive(old(rows), kid) && old(rows)[kid].body.notAfter - now < 2_592_000_000_000 && r.Ok? ==>
                  rows == Inserted(box, old(rows), d, later)
      ensures fault == 0 && Encode64(Url, d.random) !in old(rows) ==> r.Ok?
      ensures r.Err? ==> rows == old(rows)
    {
      hide Encode64, Encrypt, Decrypt, Lawful, Micros, TwoYearsOn, IsInstant;
      if fault == 1 { return K.Err(K.Database); }
      if exists kid :: kid in rows && IsActive(rows, kid) {
        var kid :| kid in rows && IsActive(rows, kid);
        var row := rows[kid];
        if row.body.notAfter - now < MARGIN {
          r := Rotate(d, later, if fault == 0 then 0 else fault - 1);
          return;
        }
        assert Sound(box, kid, row);
        match Decrypt(box, Label(kid), row.sealed)
        case Some(k) => return K.Ok(CertificateAndKey(row.body, k));
      }
      r := Rotate(d, later, if fault == 0 then 0 else fault - 1);
    }
  }

  // ----- Many callers at once -----

  /** A caller of Active: the row it read, or the rotation it has decided on. */
  datatype Task = Idle | Fetched(kid: string, sealed: Bytes, certificate: Certificate) | MustRotate

  /** What a caller was given, and when it was found good enough or made. */
  datatype Given = Given(kid: string, pair: CertificateAndKey, at: Time)

  datatype World = World(rows: Rows, tasks: map<nat, Task>, now: Instant, given: set<Given>)

  datatype Step =
    | Tick(to: Instant)
    | Read(t: nat, active: Option<string>)
    | Check(t: nat)
    | Commit(t: nat, d: Draw)
    | AdminRotate(d: Draw)
    | Abort(t: nat)

  function TaskOf(w: World, t: nat): Task {
    if t in w.tasks then w.tasks[t] else Idle
  }

  ghost predicate Fresh(w: World, d: Draw) {
    |d.random| == 12 && |d.nonce| == NONCE && Encode64(Url, d.random) !in w.rows
  }

  ghost predicate Allowed(w: World, s: Step) {
    match s
    case Tick(to) => IsInstant(to) && Micros(w.now) <= Micros(to)
    case Read(t, Some(kid)) => TaskOf(w, t).Idle? && IsActive(w.rows, kid)
    case Read(t, None) => TaskOf(w, t).Idle? && forall kid :: !IsActive(w.rows, kid)
    case Check(t) => TaskOf(w, t).Fetched?
    case Commit(t, d) => TaskOf(w, t).MustRotate? && Fresh(w, d)
    case AdminRotate(d) => Fresh(w, d)
    case Abort(t) => true
  }

  predicate Rotates(s: Step) {
    s.Commit? || s.AdminRotate?
  }

  function Made(w: World, d: Draw): Given {
    Given(Encode64(Url, d.random), CertificateAndKey(Issued(d, w.now), d.key), Micros(w.now))
  }

  /** The end of Active for a caller that has read a row. */
  function AfterCheck(box: Box<K.PrivateKey>, w: World, t: nat, task: Task): World
    requires task.Fetched?
  {
    if task.certificate.notAfter - Micros(w.now) < MARGIN then w.(tasks := w.tasks[t := MustRotate])
    else
      match Decrypt(box, Label(task.kid), task.sealed)
      case None => w.(tasks := w.tasks[t := Idle])
      case Some(k) =>
        w.(tasks := w.tasks[t := Idle],
           given := w.given + {Given(task.kid, CertificateAndKey(task.certificate, k), Micros(w.now))})
  }

  ghost function After(box: Box<K.PrivateKey>, w: World, s: Step): World
    requires Allowed(w, s)
  {
    match s
    case Tick(to) => w.(now := to)
    case Read(t, Some(kid)) => w.(tasks := w.tasks[t := Fetched(kid, w.rows[kid].sealed, w.rows[kid].body)])
    case Read(t, None) => w.(tasks := w.tasks[t := MustRotate])
    case Check(t) => AfterCheck(box, w, t, TaskOf(w, t))
    case Commit(t, d) =>
      World(Inserted(box, w.rows, d, w.now), w.tasks[t := Idle], w.now, w.given + {Made(w, d)})
    case AdminRotate(d) => w.(rows := Inserted(box, w.rows, d, w.now), given := w.given + {Made(w, d)})
    case Abort(t) => w.(tasks := w.tasks[t := Idle])
  }

  ghost predicate StepAt(box: Box<K.PrivateKey>, run: seq<World>, steps: seq<Step>, i: nat)
    requires i < |steps| < |run|
  {
    Allowed(run[i], steps[i]) && run[i + 1] == After(box, run[i], steps[i])
  }

  ghost predicate IsRun(box: Box<K.PrivateKey>, run: seq<World>, steps: seq<Step>) {
    && |run| == |steps| + 1
    && run[0].rows == map[] && run[0].tasks == map[] && run[0].given == {} && IsInstant(run[0].now)
    && (forall i :: 0 <= i < |steps| ==> StepAt(box, run, steps, i))
  }

  ghost predicate Stored(rows: Rows, kid: string, sealed: Bytes, certificate: Certificate) {
    kid in rows && rows[kid].sealed == sealed && rows[kid].body == certificate
  }

  ghost predicate Good(rows: Rows, g: Given) {
    && Paired(g.pair) && g.pair.certificate.notAfter - g.at >= MARGIN
    && g.kid in rows && rows[g.kid].body == g.pair.certificate
  }

  ghost predicate Inv(box: Box<K.PrivateKey>, w: World) {
    && OneActive(w.rows) && AllSound(box, w.rows) && IsInstant(w.now)
    && (forall t :: t in w.tasks && w.tasks[t].Fetched? ==>
          Stored(w.rows, w.tasks[t].kid, w.tasks[t].sealed, w.tasks[t].certificate))
    && (forall g :: g in w.given ==> Good(w.rows, g))
  }

  lemma RotationStep(box: Box<K.PrivateKey>, w: World, d: Draw)
    requires Lawful(box) && Inv(box, w) && Fresh(w, d)
    ensures
      var rows := Inserted(box, w.rows, d, w.now);
      && OneActive(rows) && AllSound(box, rows) && Keeps(w.rows, rows) && IsActive(rows, Encode64(Url, d.random))
      && Good(rows, Made(w, d))
  {
    hide Encode64, Lawful, Sound, Micros, TwoYearsOn, IsInstant, Encrypt, OneActive;
    InsertedSound(box, w.rows, d, w.now);
    TwoYearsLast(w.now);
  }

  lemma StepKeeps(box: Box<K.PrivateKey>, w: World, s: Step)
    requires Lawful(box) && Inv(box, w) && Allowed(w, s)
    ensures Inv(box, After(box, w, s)) && Keeps(w.rows, After(box, w, s).rows) && w.given <= After(box, w, s).given
  {
    hide Encode64, Lawful, Sound, Micros, IsInstant, Inserted, Made, Issued, OneActive, Decrypt;
    match s
    case Commit(_, d) => RotationStep(box, w, d);
    case AdminRotate(d) => RotationStep(box, w, d);
    case Check(t) => CheckKeeps(box, w, t);
    case _ =>
  }

  lemma CheckKeeps(box: Box<K.PrivateKey>, w: World, t: nat)
    requires Inv(box, w) && TaskOf(w, t).Fetched?
    ensures
      var v := AfterCheck(box, w, t, TaskOf(w, t));
      Inv(box, v) && v.rows == w.rows && v.now == w.now && w.given <= v.given
  {
    hide Micros, IsInstant, OneActive, Decrypt;
    assert Sound(box, TaskOf(w, t).kid, w.rows[TaskOf(w, t).kid]);
  }

  /** A caller that read a certificate is given it, with its key, exactly when 30 days are left;
      otherwise he goes on to rotate. */
  lemma CheckDecides(box: Box<K.PrivateKey>, w: World, t: nat)
    requires Inv(box, w) && TaskOf(w, t).Fetched?
    ensures
      var v, task := AfterCheck(box, w, t, TaskOf(w, t)), TaskOf(w, t);
      if task.certificate.notAfter - Micros(w.now) >= 2_592_000_000_000
      then
        && TaskOf(v, t) == Idle
        && exists g :: g in v.given && g.kid == task.kid && g.at == Micros(w.now)
             && g.pair.certificate == task.certificate
             && task.certificate.key == K.PublicKey(g.pair.key.n, g.pair.key.e)
      else TaskOf(v, t) == MustRotate && v.given == w.given
  {
    hide Micros, IsInstant, OneActive, Decrypt;
    var task := TaskOf(w, t);
    assert Sound(box, task.kid, w.rows[task.kid]);
    if task.certificate.notAfter - Micros(w.now) >= 2_592_000_000_000 {
      var key := Decrypt(box, Label(task.kid), task.sealed).value;
      var g := Given(task.kid, CertificateAndKey(task.certificate, key), Micros(w.now));
      assert g in AfterCheck(box, w, t, task).given;
    }
  }

  lemma {:induction false} RunKeeps(box: Box<K.PrivateKey>, run: seq<World>, steps: seq<Step>, i: nat)
    requires Lawful(box) && IsRun(box, run, steps) && i < |run|
    ensures Inv(box, run[i])
    decreases i
  {
    hide Allowed, After, Lawful, IsInstant;
    if i > 0 {
      RunKeeps(box, run, steps, i - 1);
      assert StepAt(box, run, steps, i - 1);
      StepKeeps(box, run[i - 1], steps[i - 1]);
    }
  }

  lemma {:induction false} GivenGrows(box: Box<K.PrivateKey>, run: seq<World>, steps: seq<Step>, i: nat, j: nat)
    requires Lawful(box) && IsRun(box, run, steps) && i <= j < |run|
    ensures run[i].given <= run[j].given && Keeps(run[i].rows, run[j].rows)
    decreases j
  {
    hide Allowed, After, Lawful, Inv;
    if i < j {
      GivenGrows(box, run, steps, i, j - 1);
      RunKeeps(box, run, steps, j - 1);
      assert StepAt(box, run, steps, j - 1);
      StepKeeps(box, run[j - 1], steps[j - 1]);
    }
  }

  /** However callers interleave: once a certificate exists exactly one is active, and everything
      given out up to any moment had 30 days left when it was checked or made, belongs with its
      key, and is kept in its row at every later moment. */
  lemma GivenCertificatesAreGood(box: Box<K.PrivateKey>, run: seq<World>, steps: seq<Step>, i: nat, j: nat)
    requires Lawful(box) && IsRun(box, run, steps) && i <= j < |run|
    ensures forall g :: g in run[i].given ==>
              && g.pair.certificate.key == K.PublicKey(g.pair.key.n, g.pair.key.e)
              && g.pair.certificate.notAfter - g.at >= 2_592_000_000_000
              && g.kid in run[j].rows && run[j].rows[g.kid].body == g.pair.certificate
    ensures run[i].rows != map[] ==> exists kid :: kid in run[j].rows && run[j].rows[kid].active
    ensures forall a, b :: a in run[j].rows && b in run[j].rows && run[j].rows[a].active && run[j].rows[b].active ==>
              a == b
  {
    hide Allowed, After, Lawful, AllSound;
    GivenGrows(box, run, steps, i, j);
    RunKeeps(box, run, steps, j);
    forall g | g in run[i].given ensures Good(run[j].rows, g) {
    }
    if run[i].rows != map[] {
      var kid :| kid in run[i].rows;
      assert kid in run[j].rows;
      var one :| IsActive(run[j].rows, one);
      assert one in run[j].rows && run[j].rows[one].active;
    }
    forall a, b | a in run[j].rows && b in run[j].rows && run[j].rows[a].active && run[j].rows[b].active
      ensures a == b
    {
      assert IsActive(run[j].rows, a) && IsActive(run[j].rows, b);
    }
  }

  /** A certificate that is active stays so exactly until the next rotation commits: of two
      callers that read the same old certificate and both rotate, the first is given one that
      the second retires. */
  lemma {:induction false} ActiveUntilRotation(
      box: Box<K.PrivateKey>, run: seq<World>, steps: seq<Step>, i: nat, j: nat, kid: string)
    requires Lawful(box) && IsRun(box, run, steps) && i <= j < |run| && IsActive(run[i].rows, kid)
    ensures IsActive(run[j].rows, kid) <==> forall k :: i <= k < j ==> !Rotates(steps[k])
    decreases j
  {
    hide Allowed, After, Lawful, Inv;
    if i < j {
      ActiveUntilRotation(box, run, steps, i, j - 1, kid);
      GivenGrows(box, run, steps, i, j - 1);
      RunKeeps(box, run, steps, j - 1);
      assert StepAt(box, run, steps, j - 1);
      ActiveStep(box, run[j - 1], steps[j - 1], kid);
    }
  }

  lemma ActiveStep(box: Box<K.PrivateKey>, w: World, s: Step, kid: string)
    requires Allowed(w, s) && kid in w.rows
    ensures IsActive(After(box, w, s).rows, kid) <==> IsActive(w.rows, kid) && !Rotates(s)
  {
    hide Encode64, Encrypt, Decrypt, Micros, IsInstant, Issued;
  }
}
