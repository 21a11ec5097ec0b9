/**
  Password strings (backend/internal/security/security.go HashPassword, VerifyPassword): a
  printer and the hand-written parser that has to read its output back.
 */
module Passwords {
  import opened Accounts
  import opened Encoding

  /** Iterations, memory in KiB and lanes. */
  datatype Costs = Costs(m: nat, t: nat, p: nat)

  datatype Parsed = Parsed(costs: Costs, salt: Bytes, hash: Bytes)

  datatype Verdict = Accepted | Rejected | Panics

  /** argon2.IDKey on password, salt, iterations, memory, lanes and key length; None is a panic. */
  type Argon = (Bytes, Bytes, nat, nat, nat, nat) -> Option<Bytes>

  ghost predicate Lawful(argon: Argon) {
    forall password: Bytes, salt: Bytes, t: nat, m: nat, p: nat, length: nat ::
      match argon(password, salt, t, m, p, length)
      case None => t == 0 || p == 0 || length == 0
      case Some(key) => t >= 1 && p >= 1 && length >= 1 && |key| == length
  }

  const MEMORY := 64 * 1024
  const ITERATIONS := 3
  const PARALLELISM := 2
  const KEY_LENGTH := 32
  const TWO32: nat := 0x1_0000_0000

  // ----- splitting -----

  /** strings.Split by a one-character separator. */
  function SplitOn(s: string, c: char): (parts: seq<string>)
    ensures |parts| >= 1
  {
    if s == "" then [""]
    else if s[0] == c then [""] + SplitOn(s[1..], c)
    else
      var rest := SplitOn(s[1..], c);
      [[s[0]] + rest[0]] + rest[1..]
  }

  function JoinWith(parts: seq<string>, c: char): string
    requires |parts| >= 1
  {
    if |parts| == 1 then parts[0] else parts[0] + [c] + JoinWith(parts[1..], c)
  }

  lemma {:induction false} SplitOfPlain(s: string, c: char)
    requires c !in s
    ensures SplitOn(s, c) == [s]
  {
    if s != "" {
      SplitOfPlain(s[1..], c);
      assert [s[0]] + s[1..] == s;
    }
  }

  lemma {:induction false} SplitPeels(s: string, rest: string, c: char)
    requires c !in s
    ensures SplitOn(s + [c] + rest, c) == [s] + SplitOn(rest, c)
  {
    var whole := s + [c] + rest;
    if s == "" {
      assert whole[1..] == rest;
    } else {
      assert whole[1..] == s[1..] + [c] + rest;
      SplitPeels(s[1..], rest, c);
      assert [s[0]] + s[1..] == s;
    }
  }

  lemma {:induction false} SplitOfJoin(parts: seq<string>, c: char)
    requires |parts| >= 1 && forall i :: 0 <= i < |parts| ==> c !in parts[i]
    ensures SplitOn(JoinWith(parts, c), c) == parts
  {
    if |parts| == 1 {
      SplitOfPlain(parts[0], c);
    } else {
      SplitOfJoin(parts[1..], c);
      SplitPeels(parts[0], JoinWith(parts[1..], c), c);
      assert [parts[0]] + parts[1..] == parts;
    }
  }

  /** Where the first `c` is: strings.SplitN with n = 2 splits there. */
  function FirstIndex(s: string, c: char): (i: nat)
    ensures i <= |s| && c !in s[..i] && (i < |s| ==> s[i] == c)
  {
    if s == "" || s[0] == c then 0
    else
      assert forall j :: 0 <= j < FirstIndex(s[1..], c) ==> s[1..][j] in s[1..][..FirstIndex(s[1..], c)];
      1 + FirstIndex(s[1..], c)
  }

  // ----- decimal numbers -----

  predicate IsDigit(c: char) {
    '0' <= c <= '9'
  }

  /** fmt's %d. */
  function Decimal(n: nat): (s: string)
    ensures s != "" && forall i :: 0 <= i < |s| ==> IsDigit(s[i])
  {
    var last := '0' + (n % 10) as char;
    if n < 10 then [last] else Decimal(n / 10) + [last]
  }

  /** The number the digits spell; leading zeros are allowed, signs and underscores are not. */
  function DecimalValue(s: string): Option<nat>
    decreases |s|
  {
    if s == "" then None
    else
      var last := s[|s| - 1];
      if !IsDigit(last) then None
      else if |s| == 1 then Some((last - '0') as int)
      else
        match DecimalValue(s[..|s| - 1])
        case None => None
        case Some(high) => Some(high * 10 + (last - '0') as int)
  }

  /** strconv.ParseUint in base 10 with 32 bits. */
  function ParseUint32(s: string): Option<nat> {
    match DecimalValue(s)
    case Some(n) => if n < TWO32 then Some(n) else None
    case None => None
  }

  lemma {:induction false} DecimalReadsBack(n: nat)
    ensures DecimalValue(Decimal(n)) == Some(n)
    decreases n
  {
    var s := Decimal(n);
    if n >= 10 {
      DecimalReadsBack(n / 10);
      assert s[..|s| - 1] == Decimal(n / 10);
    }
  }

  // ----- the cost parameters -----

  /** One `name=number` item; the parser knows three names. */
  function Item(item: string): Option<(char, nat)> {
    var i := FirstIndex(item, '=');
    if i == |item| then None
    else
      match ParseUint32(item[i + 1..])
      case None => None
      case Some(n) => if item[..i] in ["m", "t", "p"] then Some((item[0], n)) else None
  }

  ghost predicate AllItems(items: seq<string>) {
    forall i :: 0 <= i < |items| ==> Item(items[i]).Some?
  }

  /** The last item of that name decides; without one the cost stays zero. */
  function Last(items: seq<string>, name: char): nat {
    if items == [] then 0
    else
      match Item(items[|items| - 1])
      case Some((key, n)) => if key == name then n else Last(items[..|items| - 1], name)
      case None => Last(items[..|items| - 1], name)
  }

  lemma OneMoreItem(items: seq<string>, k: nat, name: char)
    requires k < |items|
    ensures AllItems(items[..k + 1]) <==> AllItems(items[..k]) && Item(items[k]).Some?
    ensures Last(items[..k + 1], name)
              == match Item(items[k])
                 case Some((key, n)) => if key == name then n else Last(items[..k], name)
                 case None => Last(items[..k], name)
  {
    hide Item;
    var upTo := items[..k + 1];
    assert upTo[..k] == items[..k] && upTo[k] == items[k];
    assert forall i :: 0 <= i < k ==> upTo[i] == items[..k][i];
  }

  lemma BadItem(items: seq<string>, k: nat)
    requires k < |items| && Item(items[k]).None?
    ensures !AllItems(items)
  {
  }

  method ParseCosts(items: seq<string>) returns (r: Option<Costs>)
    ensures r.Some? <==> AllItems(items)
    ensures r.Some? ==> r.value == Costs(Last(items, 'm'), Last(items, 't'), Last(items, 'p'))
  {
    var m, t, p := 0, 0, 0;
    for k := 0 to |items|
      invariant AllItems(items[..k])
      invariant m == Last(items[..k], 'm') && t == Last(items[..k], 't') && p == Last(items[..k], 'p')
    {
      hide Last, AllItems, ParseUint32;
      var item := items[k];
      OneMoreItem(items, k, 'm');
      OneMoreItem(items, k, 't');
      OneMoreItem(items, k, 'p');
      var i := FirstIndex(item, '=');
      if i == |item| {
        BadItem(items, k);
        return None;
      }
      var n := ParseUint32(item[i + 1..]);
      if n.None? {
        BadItem(items, k);
        return None;
      }
      match item[..i] {
        case "m" => m := n.value;
        case "t" => t := n.value;
        case "p" => p := n.value;
        case _ =>
          BadItem(items, k);
          return None;
      }
    }
    assert items[..|items|] == items;
    r := Some(Costs(m, t, p));
  }

  // ----- the whole string -----

  function CostText(c: Costs): string {
    "m=" + Decimal(c.m) + ",t=" + Decimal(c.t) + ",p=" + Decimal(c.p)
  }

  function Print(c: Costs, salt: Bytes, hash: Bytes): string {
    "$argon2id$v=19$" + CostText(c) + "$" + Encode64(Std, salt) + "$" + Encode64(Std, hash)
  }

  /** What VerifyPassword reads from an encoded hash. */
  ghost function Parse(encoded: string): Option<Parsed> {
    var p := SplitOn(encoded, '$');
    if |p| != 6 || p[1] != "argon2id" || p[2] != "v=19" then None
    else
      var items := SplitOn(p[3], ',');
      if !AllItems(items) then None
      else
        match (Decode64(Std, p[4]), Decode64(Std, p[5]))
        case (Some(salt), Some(hash)) =>
          Some(Parsed(Costs(Last(items, 'm'), Last(items, 't'), Last(items, 'p')), salt, hash))
        case _ => None
  }

  ghost function Verdicts(argon: Argon, parsed: Option<Parsed>, password: Bytes): Verdict {
    match parsed
    case None => Rejected
    case Some(h) =>
      match argon(password, h.salt, h.costs.t, h.costs.m, h.costs.p % 256, |h.hash|)
      case None => Panics
      case Some(actual) => if h.hash == actual then Accepted else Rejected
  }

  method VerifyPassword(argon: Argon, encoded: string, password: Bytes) returns (v: Verdict)
    ensures v == Verdicts(argon, Parse(encoded), password)
  {
    var p := SplitOn(encoded, '$');
    if |p| != 6 || p[1] != "argon2id" || p[2] != "v=19" {
      return Rejected;
    }
    var costs := ParseCosts(SplitOn(p[3], ','));
    if costs.None? {
      return Rejected;
    }
    var salt := Decode64(Std, p[4]);
    if salt.None? {
      return Rejected;
    }
    var expected := Decode64(Std, p[5]);
    if expected.None? {
      return Rejected;
    }
    var c := costs.value;
    var actual := argon(password, salt.value, c.t, c.m, c.p % 256, |expected.value|);
    if actual.None? {
      return Panics;
    }
    v := if expected.value == actual.value then Accepted else Rejected;
  }

  method HashPassword(argon: Argon, password: Bytes, salt: Bytes) returns (r: Option<string>)
    requires Lawful(argon) && |salt| == 16
    ensures r.Some? <==> |password| >= 12
    ensures r.Some? ==>
              var hash := argon(password, salt, 3, 65_536, 2, 32);
              hash.Some? && |hash.value| == 32 && r.value == Print(Costs(65_536, 3, 2), salt, hash.value)
    ensures r.Some? ==> forall other: Bytes ::
              Verdicts(argon, Parse(r.value), other) ==
                if argon(other, salt, ITERATIONS, MEMORY, PARALLELISM, KEY_LENGTH)
                   == argon(password, salt, ITERATIONS, MEMORY, PARALLELISM, KEY_LENGTH) then Accepted else Rejected
  {
    hide Parse, Print;
    if |password| < 12 {
      return None;
    }
    var hash := argon(password, salt, ITERATIONS, MEMORY, PARALLELISM, KEY_LENGTH);
    ParseOfPrint(Costs(MEMORY, ITERATIONS, PARALLELISM), salt, hash.value);
    r := Some(Print(Costs(MEMORY, ITERATIONS, PARALLELISM), salt, hash.value));
  }

  lemma ItemReadsBack(name: char, n: nat)
    requires name in "mtp"
    ensures var item := [name, '='] + Decimal(n);
            Item(item) == (if n < TWO32 then Some((name, n)) else None) && ',' !in item && '$' !in item
  {
    DecimalReadsBack(n);
    var item := [name, '='] + Decimal(n);
    assert item[0] != '=' && item[1..][0] == '=';
    assert FirstIndex(item, '=') == 1 + FirstIndex(item[1..], '=') == 1;
    assert item[2..] == Decimal(n) && item[..1] == [name];
    assert forall k :: 2 <= k < |item| ==> IsDigit(item[k]);
  }

  lemma JoinOfThree(a: string, b: string, c: string, sep: char)
    ensures JoinWith([a, b, c], sep) == a + [sep] + (b + [sep] + c)
  {
    var parts := [a, b, c];
    assert parts[1..] == [b, c] && [b, c][1..] == [c];
    assert JoinWith([b, c], sep) == b + [sep] + c;
  }

  lemma CostTextIsJoin(m: string, t: string, p: string)
    ensures "m=" + m + ",t=" + t + ",p=" + p == ("m=" + m) + [','] + (("t=" + t) + [','] + ("p=" + p))
  {
    assert ",t=" == [','] + "t=" && ",p=" == [','] + "p=";
  }

  lemma CostsReadBack(c: Costs)
    ensures '$' !in CostText(c)
    ensures var items := SplitOn(CostText(c), ',');
            && (AllItems(items) <==> c.m < TWO32 && c.t < TWO32 && c.p < TWO32)
            && (AllItems(items) ==> c == Costs(Last(items, 'm'), Last(items, 't'), Last(items, 'p')))
  {
    hide Item, Decimal, SplitOn, JoinWith;
    var m, t, p := "m=" + Decimal(c.m), "t=" + Decimal(c.t), "p=" + Decimal(c.p);
    assert m == ['m', '='] + Decimal(c.m) && t == ['t', '='] + Decimal(c.t) && p == ['p', '='] + Decimal(c.p);
    ItemReadsBack('m', c.m);
    ItemReadsBack('t', c.t);
    ItemReadsBack('p', c.p);
    var items := [m, t, p];
    SplitOfJoin(items, ',');
    JoinOfThree(m, t, p, ',');
    CostTextIsJoin(Decimal(c.m), Decimal(c.t), Decimal(c.p));
    LastOfThree(m, t, p);
  }

  lemma LastOfThree(m: string, t: string, p: string)
    ensures AllItems([m, t, p]) <==> Item(m).Some? && Item(t).Some? && Item(p).Some?
    ensures Item(m).Some? && Item(t).Some? && Item(p).Some?
            && Item(m).value.0 == 'm' && Item(t).value.0 == 't' && Item(p).value.0 == 'p' ==>
              && Last([m, t, p], 'm') == Item(m).value.1
              && Last([m, t, p], 't') == Item(t).value.1
              && Last([m, t, p], 'p') == Item(p).value.1
  {
    hide Item;
    var items := [m, t, p];
    assert items[0] == m && items[1] == t && items[2] == p;
    if Item(m).Some? && Item(t).Some? && Item(p).Some? {
      LastStep(items, 'm');
      LastStep(items, 't');
      LastStep(items, 'p');
    }
  }

  lemma LastStep(items: seq<string>, name: char)
    requires |items| == 3 && Item(items[0]).Some? && Item(items[1]).Some? && Item(items[2]).Some?
    ensures Last(items, name)
              == if Item(items[2]).value.0 == name then Item(items[2]).value.1
                 else if Item(items[1]).value.0 == name then Item(items[1]).value.1
                 else if Item(items[0]).value.0 == name then Item(items[0]).value.1
                 else 0
  {
    hide Item;
    var one, two := [items[0]], [items[0], items[1]];
    assert items[..2] == two && two[..1] == one && one[..0] == [];
    assert Last(one, name) == if Item(items[0]).value.0 == name then Item(items[0]).value.1 else 0;
    assert Last(two, name) == if Item(items[1]).value.0 == name then Item(items[1]).value.1 else Last(one, name);
  }

  lemma PrintIsJoin(costs: string, s: string, h: string)
    ensures JoinWith(["", "argon2id", "v=19"] + [costs, s, h], '$') == "$argon2id$v=19$" + costs + "$" + s + "$" + h
  {
    hide JoinWith;
    JoinOfThree(costs, s, h, '$');
    var tail := JoinWith([costs, s, h], '$');
    Prepend("v=19", [costs, s, h], '$');
    Prepend("argon2id", ["v=19"] + [costs, s, h], '$');
    Prepend("", ["argon2id"] + (["v=19"] + [costs, s, h]), '$');
    assert ["", "argon2id", "v=19"] + [costs, s, h] == [""] + (["argon2id"] + (["v=19"] + [costs, s, h]));
    assert "$argon2id$v=19$" == "" + "$" + ("argon2id" + "$" + ("v=19" + "$"));
    assert tail == costs + "$" + s + "$" + h;
  }

  lemma Prepend(part: string, parts: seq<string>, c: char)
    requires |parts| >= 1
    ensures JoinWith([part] + parts, c) == part + [c] + JoinWith(parts, c)
  {
    assert ([part] + parts)[1..] == parts;
  }

  /** The parser recovers exactly what the printer wrote, provided every cost fits 32 bits. */
  lemma ParseOfPrint(c: Costs, salt: Bytes, hash: Bytes)
    ensures Parse(Print(c, salt, hash)) ==
              if c.m < TWO32 && c.t < TWO32 && c.p < TWO32 then Some(Parsed(c, salt, hash)) else None
  {
    hide CostText, Encode64, Decode64, SplitOn, JoinWith, AllItems, Last;
    Base64RoundTrip(Std, salt);
    Base64RoundTrip(Std, hash);
    CostsReadBack(c);
    var s, h := Encode64(Std, salt), Encode64(Std, hash);
    var parts := ["", "argon2id", "v=19"] + [CostText(c), s, h];
    SplitOfJoin(parts, '$');
    PrintIsJoin(CostText(c), s, h);
  }

  /** What verifying any printed string comes to: a cost beyond 32 bits is refused, and the lanes
      reach Argon2 through a conversion to eight bits, which it does not survive as zero; nor
      does it make a hash of no bytes. */
  lemma PrintedHashVerifies(argon: Argon, c: Costs, salt: Bytes, hash: Bytes, password: Bytes)
    requires Lawful(argon)
    ensures Verdicts(argon, Parse(Print(c, salt, hash)), password)
              == if c.m >= TWO32 || c.t >= TWO32 || c.p >= TWO32 then Rejected
                 else if c.t == 0 || c.p % 256 == 0 || hash == [] then Panics
                 else if argon(password, salt, c.t, c.m, c.p % 256, |hash|) == Some(hash) then Accepted
                 else Rejected
  {
    hide Parse, Print;
    ParseOfPrint(c, salt, hash);
    var lanes := c.p % 256;
    var actual := argon(password, salt, c.t, c.m, lanes, |hash|);
    assert actual.None? <==> c.t == 0 || lanes == 0 || |hash| == 0;
    assert Verdicts(argon, Some(Parsed(c, salt, hash)), password)
      == if actual.None? then Panics else if actual == Some(hash) then Accepted else Rejected;
  }
}
