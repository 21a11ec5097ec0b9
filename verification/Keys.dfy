/**
  The two signing-key stores: a table in which one row at a time is active and retired rows
  stay (backend/internal/oidc/keys.go, backend/internal/samlidp/certificates.go). A rotation is
  one transaction under an advisory lock, so rotations are atomic steps; reading the active row
  is a step of its own and its result may be used after a later rotation.
 */
module Rotation {
  import opened Accounts
  import opened Encoding

  datatype Row<P> = Row(active: bool, sealed: Bytes, body: P)

  type Table<P> = map<string, Row<P>>

  /** An authenticated cipher under the master key, and the PKCS #8 form of a private key. */
  datatype Box<!K> = Box(
    seal: (Bytes, Bytes, string) -> Bytes,
    open: (Bytes, Bytes, string) -> Option<Bytes>,
    marshal: K -> Bytes,
    parse: Bytes -> Option<K>)

  const NONCE := 12

  ghost predicate Lawful<K(!new)>(box: Box<K>) {
    && (forall nonce: Bytes, m: Bytes, ad: string ::
          |box.seal(nonce, m, ad)| > 0 && box.open(nonce, box.seal(nonce, m, ad), ad) == Some(m))
    && (forall k: K :: box.parse(box.marshal(k)) == Some(k))
  }

  /** encryptPrivateKey: the nonce in front, the kid as associated data. */
  function Encrypt<K>(box: Box<K>, kid: string, key: K, nonce: Bytes): Bytes {
    nonce + box.seal(nonce, box.marshal(key), kid)
  }

  /** decryptPrivateKey. */
  function Decrypt<K>(box: Box<K>, kid: string, sealed: Bytes): Option<K> {
    if |sealed| <= NONCE then None
    else
      match box.open(sealed[..NONCE], sealed[NONCE..], kid)
      case None => None
      case Some(der) => box.parse(der)
  }

  lemma SealedKeyOpens<K(!new)>(box: Box<K>, kid: string, key: K, nonce: Bytes)
    requires Lawful(box) && |nonce| == NONCE
    ensures Decrypt(box, kid, Encrypt(box, kid, key, nonce)) == Some(key)
  {
    var sealed := Encrypt(box, kid, key, nonce);
    assert sealed[..NONCE] == nonce && sealed[NONCE..] == box.seal(nonce, box.marshal(key), kid);
  }

  /** The associated data counts: nothing sealed under one text opens under another. */
  ghost predicate Bound<K(!new)>(box: Box<K>) {
    forall nonce: Bytes, m: Bytes, ad: string, other: string ::
      other != ad ==> box.open(nonce, box.seal(nonce, m, ad), other) == None
  }

  /** A sealed key is tied to its kid: moved to another row, it does not open. */
  lemma SealedKeyStaysPut<K(!new)>(box: Box<K>, kid: string, other: string, key: K, nonce: Bytes)
    requires Lawful(box) && Bound(box) && |nonce| == 12 && other != kid
    ensures Decrypt(box, other, Encrypt(box, kid, key, nonce)) == None
  {
    var sealed := Encrypt(box, kid, key, nonce);
    assert sealed[..NONCE] == nonce && sealed[NONCE..] == box.seal(nonce, box.marshal(key), kid);
  }

  predicate IsActive<P>(rows: Table<P>, kid: string) {
    kid in rows && rows[kid].active
  }

  ghost predicate OneActive<P>(rows: Table<P>) {
    && (rows != map[] ==> exists kid :: IsActive(rows, kid))
    && (forall a, b :: IsActive(rows, a) && IsActive(rows, b) ==> a == b)
  }

  /** Only the very first rotation finds nothing to retire. */
  lemma NothingActive<P>(rows: Table<P>)
    requires OneActive(rows) && forall kid :: !IsActive(rows, kid)
    ensures rows == map[] && Retired(rows) == rows
  {
  }

  function Retired<P>(rows: Table<P>): Table<P> {
    map kid | kid in rows :: rows[kid].(active := false)
  }

  function Rotated<P>(rows: Table<P>, kid: string, sealed: Bytes, body: P): Table<P> {
    Retired(rows)[kid := Row(true, sealed, body)]
  }

  /** `later` has every row of `rows`, its contents untouched. */
  ghost predicate Keeps<P(!new)>(rows: Table<P>, later: Table<P>) {
    forall kid :: kid in rows ==>
      kid in later && later[kid].sealed == rows[kid].sealed && later[kid].body == rows[kid].body
  }

  lemma RotationKeeps<P(!new)>(rows: Table<P>, kid: string, sealed: Bytes, body: P)
    requires kid !in rows
    ensures Keeps(rows, Rotated(rows, kid, sealed, body))
    ensures OneActive(Rotated(rows, kid, sealed, body)) && IsActive(Rotated(rows, kid, sealed, body), kid)
  {
    var later := Rotated(rows, kid, sealed, body);
    assert IsActive(later, kid);
    assert forall a :: a in rows ==> !Retired(rows)[a].active;
  }
}

/** OIDC signing keys: backend/internal/oidc/keys.go. */
module Keys {
  import opened Accounts
  import opened Encoding
  import opened Rotation

  datatype PublicKey = PublicKey(n: nat, e: int)

  datatype PrivateKey = PrivateKey(n: nat, e: int, d: nat)

  datatype SigningKey = SigningKey(kid: string, key: PrivateKey)

  datatype Jwk = Jwk(kty: string, use: string, alg: string, kid: string, n: string, e: string)

  datatype Result<+T> = Ok(value: T) | Err(error: KeyError)

  datatype KeyError = Database | NoRows | BadCiphertext | BadType | BadEncoding | BadExponent

  const TWO63: int := 0x8000_0000_0000_0000
  const TWO64: int := 0x1_0000_0000_0000_0000

  function Public(k: PrivateKey): PublicKey {
    PublicKey(k.n, k.e)
  }

  /** What rsa.GenerateKey returns fits a Go int and is at least 3. */
  predicate Generated(k: PrivateKey) {
    3 <= k.e < TWO63
  }

  // ----- the JWK of a public key, and back -----

  function JwkOf(kid: string, key: PublicKey): Jwk
    requires 0 <= key.e < TWO63
  {
    Jwk("RSA", "sig", "RS256", kid, Encode64(Url, ToBytes(key.n)), Encode64(Url, ToBytes(key.e)))
  }

  /** The 64-bit two's-complement value congruent to x. */
  function Wrap(x: int): int {
    var r := x % TWO64;
    if r < TWO63 then r else r - TWO64
  }

  lemma WrapCarries(x: int, b: Byte)
    ensures Wrap(Wrap(x) * 256 + b) == Wrap(x * 256 + b)
  {
    var k := x / TWO64 + (if x % TWO64 < TWO63 then 0 else 1);
    assert Wrap(x) == x - k * TWO64;
    var y := x * 256 + b;
    assert Wrap(x) * 256 + b == y - k * 256 * TWO64;
    ShiftedRemainder(y, k * 256);
  }

  lemma ShiftedRemainder(y: int, k: int)
    ensures (y - k * TWO64) % TWO64 == y % TWO64
  {
    var q := y / TWO64;
    assert y - k * TWO64 == (q - k) * TWO64 + y % TWO64;
  }

  /** The loop of PublicKeyByKID: a left shift that may overflow silently. */
  method ReadExponent(bs: Bytes) returns (e: int)
    ensures e == Wrap(FromBytes(bs))
    ensures -0x8000_0000_0000_0000 <= e < 0x8000_0000_0000_0000
    ensures exists k: int :: FromBytes(bs) == e + 0x1_0000_0000_0000_0000 * k
  {
    e := 0;
    for i := 0 to |bs|
      invariant e == Wrap(FromBytes(bs[..i]))
    {
      assert bs[..i + 1][..i] == bs[..i];
      WrapCarries(FromBytes(bs[..i]), bs[i]);
      e := Wrap(e * 256 + bs[i]);
    }
    assert bs[..|bs|] == bs;
    WrapShifts(FromBytes(bs));
  }

  lemma WrapShifts(x: int)
    ensures -0x8000_0000_0000_0000 <= Wrap(x) < 0x8000_0000_0000_0000
    ensures exists k: int :: x == Wrap(x) + 0x1_0000_0000_0000_0000 * k
  {
    var k := x / TWO64 + (if x % TWO64 < TWO63 then 0 else 1);
    assert x == Wrap(x) + 0x1_0000_0000_0000_0000 * k;
  }

  function Resolve(jwk: Jwk): Result<PublicKey> {
    if jwk.kty != "RSA" then Err(BadType)
    else
      match (Decode64(Url, jwk.n), Decode64(Url, jwk.e))
      case (Some(n), Some(e)) =>
        if Wrap(FromBytes(e)) < 3 then Err(BadExponent) else Ok(PublicKey(FromBytes(n), Wrap(FromBytes(e))))
      case _ => Err(BadEncoding)
  }

  /** A public key survives its JWK exactly when its exponent is at least 3. */
  lemma JwkRoundTrip(kid: string, key: PublicKey)
    requires 0 <= key.e < TWO63
    ensures Resolve(JwkOf(kid, key)) == if key.e >= 3 then Ok(key) else Err(BadExponent)
  {
    hide Encode64, Decode64, ToBytes, FromBytes;
    Base64RoundTrip(Url, ToBytes(key.n));
    Base64RoundTrip(Url, ToBytes(key.e));
    BigEndianRoundTrip(key.n);
    BigEndianRoundTrip(key.e);
  }

  // ----- the table -----

  type Rows = Table<Jwk>

  /** The row holds the two halves of one generated key, under its own kid. */
  predicate Sound(box: Box<PrivateKey>, kid: string, row: Row<Jwk>) {
    match Decrypt(box, kid, row.sealed)
    case None => false
    case Some(k) => Generated(k) && row.body == JwkOf(kid, Public(k))
  }

  ghost predicate AllSound(box: Box<PrivateKey>, rows: Rows) {
    forall kid :: kid in rows ==> Sound(box, kid, rows[kid])
  }

  /** The kid finds this public key, in the table and in the published key set. */
  ghost predicate ResolvesTo(rows: Rows, kid: string, key: PublicKey) {
    && kid in rows && Resolve(rows[kid].body) == Ok(key)
    && (forall other :: other in rows && rows[other].body.kid == kid ==> rows[other].body == rows[kid].body)
    && rows[kid].body.kid == kid
  }

  ghost predicate UsedResolve(rows: Rows, used: set<SigningKey>) {
    forall s :: s in used ==> ResolvesTo(rows, s.kid, Public(s.key))
  }

  lemma SoundResolves(box: Box<PrivateKey>, rows: Rows, kid: string)
    requires AllSound(box, rows) && kid in rows
    ensures Decrypt(box, kid, rows[kid].sealed).Some?
    ensures ResolvesTo(rows, kid, Public(Decrypt(box, kid, rows[kid].sealed).value))
  {
    JwkRoundTrip(kid, Public(Decrypt(box, kid, rows[kid].sealed).value));
    forall other | other in rows && rows[other].body.kid == kid ensures rows[other].body == rows[kid].body {
      assert Sound(box, other, rows[other]);
    }
  }

  lemma StillResolves(box: Box<PrivateKey>, rows: Rows, later: Rows, kid: string, key: PublicKey)
    requires AllSound(box, later) && Keeps(rows, later) && ResolvesTo(rows, kid, key)
    ensures ResolvesTo(later, kid, key)
  {
    SoundResolves(box, later, kid);
  }

  function Inserted(box: Box<PrivateKey>, rows: Rows, s: SigningKey, nonce: Bytes): Rows
    requires Generated(s.key)
  {
    Rotated(rows, s.kid, Encrypt(box, s.kid, s.key, nonce), JwkOf(s.kid, Public(s.key)))
  }

  lemma InsertedSound(box: Box<PrivateKey>, rows: Rows, s: SigningKey, nonce: Bytes)
    requires Lawful(box) && AllSound(box, rows) && s.kid !in rows && Generated(s.key) && |nonce| == NONCE
    ensures AllSound(box, Inserted(box, rows, s, nonce))
    ensures Keeps(rows, Inserted(box, rows, s, nonce)) && OneActive(Inserted(box, rows, s, nonce))
    ensures ResolvesTo(Inserted(box, rows, s, nonce), s.kid, Public(s.key))
  {
    var later := Inserted(box, rows, s, nonce);
    RotationKeeps(rows, s.kid, Encrypt(box, s.kid, s.key, nonce), JwkOf(s.kid, Public(s.key)));
    SealedKeyOpens(box, s.kid, s.key, nonce);
    forall kid | kid in later ensures Sound(box, kid, later[kid]) {
      if kid != s.kid { assert Sound(box, kid, rows[kid]); }
    }
    SoundResolves(box, later, s.kid);
  }

  class KeyManager {
    const box: Box<PrivateKey>
    var rows: Rows
    /** Every key handed out for signing. */
    ghost var used: set<SigningKey>

    ghost predicate Valid()
      reads this
    {
      Lawful(box) && OneActive(rows) && AllSound(box, rows) && UsedResolve(rows, used)
    }

    constructor (box: Box<PrivateKey>)
      requires Lawful(box)
      ensures Valid() && rows == map[] && used == {} && this.box == box
    {
      this.box, rows, used := box, map[], {};
    }

    /** `key`, `random` and `nonce` are drawn afresh; `fault` is the database call that fails,
        0 for none. The kid is unique in the table, so drawing one again fails the insert. */
    method Rotate(key: PrivateKey, random: Bytes, nonce: Bytes, fault: nat) returns (r: Result<SigningKey>)
      requires Valid() && Generated(key) && |random| == 12 && |nonce| == NONCE
      modifies this
      ensures Valid()
      ensures r.Ok? <==>
          (fault == 0 || fault > 5 || (fault == 3 && old(rows) == map[])) && Encode64(Url, random) !in old(rows)
      ensures r.Ok? ==> r.value == SigningKey(Encode64(Url, random), key)
                        && rows == Inserted(box, old(rows), r.value, nonce) && used == old(used) + {r.value}
      ensures r.Ok? ==>
                var kid := r.value.kid;
                && rows.Keys == old(rows).Keys + {kid} && kid !in old(rows) && rows[kid].active
                && rows[kid].sealed == nonce + box.seal(nonce, box.marshal(key), kid)
                && rows[kid].body == Jwk("RSA", "sig", "RS256", kid,
                                         Encode64(Url, ToBytes(key.n)), Encode64(Url, ToBytes(key.e)))
                && forall k :: k in old(rows) ==> rows[k] == old(rows)[k].(active := false)
      ensures r.Err? ==> rows == old(rows) && used == old(used)
    {
      hide Encode64, Decrypt, Sound, Resolve, Lawful, ResolvesTo, Keeps, ToBytes;
      if fault == 1 { return Err(Database); }
      var tx := rows;
      if fault == 2 { return Err(Database); }
      if exists kid :: kid in tx && IsActive(tx, kid) {
        if fault == 3 { return Err(Database); }
        tx := Retired(tx);
      } else {
        NothingActive(tx);
      }
      var kid := Encode64(Url, random);
      if kid in tx || fault == 4 { return Err(Database); }
      tx := tx[kid := Row(true, Encrypt(box, kid, key, nonce), JwkOf(kid, Public(key)))];
      if fault == 5 { return Err(Database); }
      var s := SigningKey(kid, key);
      InsertedSound(box, rows, s, nonce);
      forall u | u in used ensures ResolvesTo(tx, u.kid, Public(u.key)) {
        StillResolves(box, rows, tx, u.kid, Public(u.key));
      }
      rows, used := tx, used + {s};
      r := Ok(s);
    }

    /** The active key; the first call ever creates one. */
    method Active(key: PrivateKey, random: Bytes, nonce: Bytes, fault: nat) returns (r: Result<SigningKey>)
      requires Valid() && Generated(key) && |random| == 12 && |nonce| == NONCE
      modifies this
      ensures Valid()
      ensures old(rows) != map[] ==> rows == old(rows)
      ensures r.Ok? ==> IsActive(rows, r.value.kid) && used == old(used) + {r.value}
                        && ResolvesTo(rows, r.value.kid, Public(r.value.key))
      ensures r.Err? ==> rows == old(rows) && used == old(used)
      ensures r.Ok? && old(rows) != map[] ==> Decrypt(box, r.value.kid, rows[r.value.kid].sealed) == Some(r.value.key)
      ensures r.Ok? && old(rows) == map[] ==>
                r.value == SigningKey(Encode64(Url, random), key) && rows == Inserted(box, map[], r.value, nonce)
      ensures fault == 0 ==> r.Ok?
    {
      hide Encode64, JwkOf, Encrypt, Decrypt, Sound, Resolve, Lawful, ResolvesTo;
      if fault == 1 { return Err(Database); }
      if exists kid :: kid in rows && IsActive(rows, kid) {
        var kid :| kid in rows && IsActive(rows, kid);
        SoundResolves(box, rows, kid);
        match Decrypt(box, kid, rows[kid].sealed)
        case Some(k) =>
          used := used + {SigningKey(kid, k)};
          r := Ok(SigningKey(kid, k));
      } else {
        NothingActive(rows);
        r := Rotate(key, random, nonce, if fault == 0 then 0 else fault - 1);
        if r.Ok? {
          assert r.value in used && IsActive(rows, r.value.kid);
        }
      }
    }

    method PublicKeyByKID(kid: string) returns (r: Result<PublicKey>)
      ensures r == if kid in rows then Resolve(rows[kid].body) else Err(NoRows)
      ensures r == Err(NoRows) <==> kid !in rows
      ensures r == Err(BadType) <==> kid in rows && rows[kid].body.kty != "RSA"
      ensures r == Err(BadEncoding) <==>
                && kid in rows && rows[kid].body.kty == "RSA"
                && (Decode64(Url, rows[kid].body.n).None? || Decode64(Url, rows[kid].body.e).None?)
      ensures r.Ok? ==>
                && var n, e := Decode64(Url, rows[kid].body.n), Decode64(Url, rows[kid].body.e);
                && n.Some? && e.Some? && r.value.n == FromBytes(n.value) && 3 <= r.value.e < 0x8000_0000_0000_0000
                && exists k: int :: FromBytes(e.value) == r.value.e + 0x1_0000_0000_0000_0000 * k
    {
      if kid !in rows { return Err(NoRows); }
      var jwk := rows[kid].body;
      if jwk.kty != "RSA" { return Err(BadType); }
      var n, e := Decode64(Url, jwk.n), Decode64(Url, jwk.e);
      if n.None? || e.None? { return Err(BadEncoding); }
      var exponent := ReadExponent(e.value);
      if exponent < 3 { return Err(BadExponent); }
      r := Ok(PublicKey(FromBytes(n.value), exponent));
    }
  }

  // ----- many callers at once -----

  /** A caller of Active: the row it read, or the rotation it has decided on. */
  datatype Task = Idle | Holding(kid: string, sealed: Bytes) | MustRotate

  datatype World = World(rows: Rows, tasks: map<nat, Task>, used: set<SigningKey>)

  datatype Step =
    | Read(t: nat, active: Option<string>)
    | Open(t: nat)
    | Commit(t: nat, key: PrivateKey, kid: string, nonce: Bytes)
    | Abort(t: nat)
    | AdminRotate(key: PrivateKey, kid: string, nonce: Bytes)

  function TaskOf(w: World, t: nat): Task {
    if t in w.tasks then w.tasks[t] else Idle
  }

  ghost predicate Allowed(w: World, s: Step) {
    match s
    case Read(t, Some(kid)) => TaskOf(w, t).Idle? && IsActive(w.rows, kid)
    case Read(t, None) => TaskOf(w, t).Idle? && forall kid :: !IsActive(w.rows, kid)
    case Open(t) => TaskOf(w, t).Holding?
    case Commit(t, key, kid, nonce) => TaskOf(w, t).MustRotate? && kid !in w.rows && Generated(key) && |nonce| == NONCE
    case Abort(t) => true
    case AdminRotate(key, kid, nonce) => kid !in w.rows && Generated(key) && |nonce| == NONCE
  }

  ghost function After(box: Box<PrivateKey>, w: World, s: Step): World
    requires Allowed(w, s)
  {
    match s
    case Read(t, Some(kid)) => w.(tasks := w.tasks[t := Holding(kid, w.rows[kid].sealed)])
    case Read(t, None) => w.(tasks := w.tasks[t := MustRotate])
    case Open(t) =>
      var task := TaskOf(w, t);
      var w1 := w.(tasks := w.tasks[t := Idle]);
      (match Decrypt(box, task.kid, task.sealed)
       case None => w1
       case Some(k) => w1.(used := w.used + {SigningKey(task.kid, k)}))
    case Commit(t, key, kid, nonce) =>
      World(Inserted(box, w.rows, SigningKey(kid, key), nonce), w.tasks[t := Idle], w.used + {SigningKey(kid, key)})
    case Abort(t) => w.(tasks := w.tasks[t := Idle])
    case AdminRotate(key, kid, nonce) =>
      w.(rows := Inserted(box, w.rows, SigningKey(kid, key), nonce), used := w.used + {SigningKey(kid, key)})
  }

  ghost predicate IsRun(box: Box<PrivateKey>, run: seq<World>, steps: seq<Step>) {
    && |run| == |steps| + 1
    && run[0] == World(map[], map[], {})
    && (forall i :: 0 <= i < |steps| ==> Allowed(run[i], steps[i]) && run[i + 1] == After(box, run[i], steps[i]))
  }

  ghost predicate Held(rows: Rows, task: Task) {
    task.Holding? ==> task.kid in rows && rows[task.kid].sealed == task.sealed
  }

  ghost predicate Inv(box: Box<PrivateKey>, w: World) {
    && OneActive(w.rows) && AllSound(box, w.rows) && UsedResolve(w.rows, w.used)
    && (forall t :: t in w.tasks ==> Held(w.rows, w.tasks[t]))
  }

  lemma StepKeeps(box: Box<PrivateKey>, w: World, s: Step)
    requires Lawful(box) && Inv(box, w) && Allowed(w, s)
    ensures Inv(box, After(box, w, s)) && Keeps(w.rows, After(box, w, s).rows) && w.used <= After(box, w, s).used
  {
    hide ResolvesTo, Sound, Inserted, Decrypt, OneActive, Lawful;
    match s
    case Read(_, _) =>
    case Abort(_) =>
    case Open(t) =>
      SoundResolves(box, w.rows, TaskOf(w, t).kid);
    case Commit(_, key, kid, nonce) =>
      RotationStep(box, w, SigningKey(kid, key), nonce);
    case AdminRotate(key, kid, nonce) =>
      RotationStep(box, w, SigningKey(kid, key), nonce);
  }

  lemma RotationStep(box: Box<PrivateKey>, w: World, s: SigningKey, nonce: Bytes)
    requires Lawful(box) && Inv(box, w) && s.kid !in w.rows && Generated(s.key) && |nonce| == NONCE
    ensures var rows := Inserted(box, w.rows, s, nonce);
            && OneActive(rows) && AllSound(box, rows) && UsedResolve(rows, w.used + {s}) && Keeps(w.rows, rows)
            && (forall t :: t in w.tasks ==> Held(rows, w.tasks[t]))
  {
    var rows := Inserted(box, w.rows, s, nonce);
    InsertedSound(box, w.rows, s, nonce);
    forall u | u in w.used ensures ResolvesTo(rows, u.kid, Public(u.key)) {
      StillResolves(box, w.rows, rows, u.kid, Public(u.key));
    }
  }

  lemma {:induction false} RunKeeps(box: Box<PrivateKey>, run: seq<World>, steps: seq<Step>, i: nat)
    requires Lawful(box) && IsRun(box, run, steps) && i < |run|
    ensures Inv(box, run[i])
  {
    if i > 0 {
      RunKeeps(box, run, steps, i - 1);
      StepKeeps(box, run[i - 1], steps[i - 1]);
    }
  }

  lemma {:induction false} UsedGrows(box: Box<PrivateKey>, run: seq<World>, steps: seq<Step>, i: nat, j: nat)
    requires Lawful(box) && IsRun(box, run, steps) && i <= j < |run|
    ensures run[i].used <= run[j].used && Keeps(run[i].rows, run[j].rows)
    decreases j
  {
    hide Inv, Allowed, After, Lawful;
    if i < j {
      UsedGrows(box, run, steps, i, j - 1);
      RunKeeps(box, run, steps, j - 1);
      StepKeeps(box, run[j - 1], steps[j - 1]);
    }
  }

  /** However the callers interleave: once a key exists exactly one is active, and every key
      handed out up to any moment is found under its kid, unchanged, at every later moment. */
  lemma HandedOutKeysResolveForever(box: Box<PrivateKey>, run: seq<World>, steps: seq<Step>, i: nat, j: nat)
    requires Lawful(box) && IsRun(box, run, steps) && i <= j < |run|
    ensures forall s :: s in run[i].used ==>
              && s.kid in run[j].rows && run[j].rows[s.kid].body.kid == s.kid
              && Resolve(run[j].rows[s.kid].body) == Ok(PublicKey(s.key.n, s.key.e))
              && forall other :: other in run[j].rows && run[j].rows[other].body.kid == s.kid ==>
                   run[j].rows[other].body == run[j].rows[s.kid].body
    ensures run[i].rows != map[] ==> exists kid :: kid in run[j].rows && run[j].rows[kid].active
    ensures forall a, b :: a in run[j].rows && b in run[j].rows && run[j].rows[a].active && run[j].rows[b].active ==>
              a == b
  {
    hide Resolve, After, Allowed;
    UsedGrows(box, run, steps, i, j);
    RunKeeps(box, run, steps, j);
    forall s | s in run[i].used ensures ResolvesTo(run[j].rows, s.kid, Public(s.key)) {
    }
    if run[i].rows != map[] {
      var kid :| kid in run[i].rows;
      assert kid in run[j].rows;
      var one :| IsActive(run[j].rows, one);
      assert one in run[j].rows && run[j].rows[one].active;
    }
    forall a, b | a in run[j].rows && b in run[j].rows && run[j].rows[a].active && run[j].rows[b].active
      ensures a == b
    {
      assert IsActive(run[j].rows, a) && IsActive(run[j].rows, b);
    }
  }
}
