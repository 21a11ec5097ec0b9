/**
  Recovery codes as text (backend/internal/mfa/service.go generateRecoveryCodesTx,
  normalizeRecoveryCode): ten random bytes in base32, shown in groups of four, typed back by
  hand and stored as a digest.
 */
module Recovery {
  import opened Accounts
  import opened Scopes
  import opened Encoding

  const RAW := 10

  /** unicode.ToUpper; only its effect on ASCII matters here. */
  ghost predicate LawfulUpper(upper: char -> char) {
    && (forall c: char :: c < '\U{80}' && !('a' <= c <= 'z') ==> upper(c) == c)
    && (forall c: char :: 'a' <= c <= 'z' ==> upper(c) == c - 'a' + 'A')
  }

  /** strings.TrimSpace. */
  function TrimSpace(s: string): string
    decreases |s|
  {
    if s == "" then ""
    else if IsSpace(s[0]) then TrimSpace(s[1..])
    else if IsSpace(s[|s| - 1]) then TrimSpace(s[..|s| - 1])
    else s
  }

  /** strings.ReplaceAll with nothing in place of every `c`. */
  function Without(s: string, c: char): string {
    if s == "" then ""
    else if s[0] == c then Without(s[1..], c)
    else [s[0]] + Without(s[1..], c)
  }

  function Uppercase(upper: char -> char, s: string): string {
    seq(|s|, i requires 0 <= i < |s| => upper(s[i]))
  }

  function Normalize(upper: char -> char, code: string): string {
    Uppercase(upper, Without(TrimSpace(code), '-'))
  }

  function Grouped(compact: string): string
    requires |compact| == 16
  {
    compact[..4] + "-" + compact[4..8] + "-" + compact[8..12] + "-" + compact[12..]
  }

  function Format(raw: Bytes): string
    requires |raw| == RAW
  {
    QuintetCount(raw);
    Grouped(Encode32(raw))
  }

  lemma {:induction false} WithoutConcat(s: string, t: string, c: char)
    ensures Without(s + t, c) == Without(s, c) + Without(t, c)
  {
    if s == "" {
      assert s + t == t;
    } else {
      assert (s + t)[0] == s[0] && (s + t)[1..] == s[1..] + t;
      WithoutConcat(s[1..], t, c);
    }
  }

  lemma {:induction false} WithoutAbsent(s: string, c: char)
    requires c !in s
    ensures Without(s, c) == s
  {
    if s != "" {
      WithoutAbsent(s[1..], c);
      assert [s[0]] + s[1..] == s;
    }
  }

  lemma UngroupGrouped(compact: string)
    requires |compact| == 16 && '-' !in compact
    ensures Without(Grouped(compact), '-') == compact
  {
    var a, b, c, d := compact[..4], compact[4..8], compact[8..12], compact[12..];
    WithoutConcat(a + "-" + b + "-" + c + "-", d, '-');
    WithoutConcat(a + "-" + b + "-" + c, "-", '-');
    WithoutConcat(a + "-" + b + "-", c, '-');
    WithoutConcat(a + "-" + b, "-", '-');
    WithoutConcat(a + "-", b, '-');
    WithoutConcat(a, "-", '-');
    WithoutAbsent(a, '-');
    WithoutAbsent(b, '-');
    WithoutAbsent(c, '-');
    WithoutAbsent(d, '-');
    assert Without("-", '-') == "";
    assert a + b + c + d == compact;
  }

  predicate CodeChar(c: char) {
    'A' <= c <= 'Z' || '2' <= c <= '7'
  }

  lemma EncodedChars(raw: Bytes)
    requires |raw| == RAW
    ensures |Encode32(raw)| == 16 && forall i :: 0 <= i < 16 ==> CodeChar(Encode32(raw)[i])
  {
    QuintetCount(raw);
  }

  lemma NothingToTrim(s: string)
    requires |s| > 0 && !IsSpace(s[0]) && !IsSpace(s[|s| - 1])
    ensures TrimSpace(s) == s
  {
  }

  /** Normalising a code as it was shown recovers the base32 text behind it. */
  lemma NormalizeReadsBack(upper: char -> char, raw: Bytes)
    requires LawfulUpper(upper) && |raw| == RAW
    ensures Normalize(upper, Format(raw)) == Encode32(raw)
  {
    hide Encode32;
    EncodedChars(raw);
    var compact := Encode32(raw);
    var code := Format(raw);
    assert code[0] == compact[0] && code[|code| - 1] == compact[15];
    NothingToTrim(code);
    UngroupGrouped(compact);
    assert Uppercase(upper, compact) == compact;
  }

  ghost predicate AllSpace(s: string) {
    forall i :: 0 <= i < |s| ==> IsSpace(s[i])
  }

  lemma {:induction false} TrimSurrounded(pre: string, s: string, post: string)
    requires AllSpace(pre) && AllSpace(post) && |s| > 0 && !IsSpace(s[0]) && !IsSpace(s[|s| - 1])
    ensures TrimSpace(pre + s + post) == s
    decreases |pre| + |post|
  {
    var whole := pre + s + post;
    if pre != "" {
      assert whole[0] == pre[0] && whole[1..] == pre[1..] + s + post;
      TrimSurrounded(pre[1..], s, post);
    } else if post != "" {
      assert whole[0] == s[0] && whole[|whole| - 1] == post[|post| - 1];
      assert whole[..|whole| - 1] == pre + s + post[..|post| - 1];
      TrimSurrounded(pre, s, post[..|post| - 1]);
    } else {
      assert whole == s;
    }
  }

  /** The same characters but for capital letters typed as small ones. */
  predicate SameLetter(typed: char, c: char) {
    typed == c || ('A' <= c <= 'Z' && typed == c - 'A' + 'a')
  }

  ghost predicate SameLetters(typed: string, code: string) {
    |typed| == |code| && forall i :: 0 <= i < |code| ==> SameLetter(typed[i], code[i])
  }

  lemma UpperLetter(upper: char -> char, typed: char, c: char)
    requires LawfulUpper(upper) && CodeChar(c) && SameLetter(typed, c)
    ensures upper(typed) == c
  {
  }

  /** However it is typed back, in either case, with dashes anywhere inside and white space
      around it, a code normalises to the base32 text it was made from. */
  lemma TypedBack(upper: char -> char, raw: Bytes, pre: string, typed: string, post: string)
    requires LawfulUpper(upper) && |raw| == RAW && AllSpace(pre) && AllSpace(post)
    requires |typed| > 0 && !IsSpace(typed[0]) && !IsSpace(typed[|typed| - 1])
    requires SameLetters(Without(typed, '-'), Encode32(raw))
    ensures Normalize(upper, pre + typed + post) == Encode32(raw)
  {
    hide Encode32, LawfulUpper, SameLetter, TrimSpace, Without;
    EncodedChars(raw);
    TrimSurrounded(pre, typed, post);
    var plain, code := Without(typed, '-'), Encode32(raw);
    forall i | 0 <= i < 16 ensures upper(plain[i]) == code[i] {
      UpperLetter(upper, plain[i], code[i]);
    }
    assert Uppercase(upper, plain) == code;
  }

  /** So different random bytes are never the same code. */
  lemma DistinctBytesDistinctCodes(upper: char -> char, x: Bytes, y: Bytes)
    requires LawfulUpper(upper) && |x| == RAW && |y| == RAW && x != y
    ensures Normalize(upper, Format(x)) != Normalize(upper, Format(y)) && Format(x) != Format(y)
  {
    NormalizeReadsBack(upper, x);
    NormalizeReadsBack(upper, y);
    if Encode32(x) == Encode32(y) {
      Base32Injective(x, y);
    }
  }

  /** Digests of the codes made from these draws. */
  function Stored(sha: string -> Hash, upper: char -> char, raws: seq<Bytes>): seq<Hash>
    requires forall i :: 0 <= i < |raws| ==> |raws[i]| == RAW
  {
    seq(|raws|, i requires 0 <= i < |raws| => sha(Normalize(upper, Format(raws[i]))))
  }

  /** These are the codes made from these draws. */
  ghost predicate Shows(codes: seq<string>, raws: seq<Bytes>)
    requires forall i :: 0 <= i < |raws| ==> |raws[i]| == RAW
  {
    |codes| == |raws| && forall i :: 0 <= i < |raws| ==> codes[i] == Format(raws[i])
  }

  /** The rows with these digests added, not yet used. */
  function Added(taken: map<Hash, bool>, hs: seq<Hash>): map<Hash, bool> {
    taken + map h | h in hs :: false
  }

  /** The first `n` digests are new, and different from each other. */
  ghost predicate Insertable(taken: map<Hash, bool>, hs: seq<Hash>, n: nat)
    requires n <= |hs|
  {
    && (forall i, j :: 0 <= i < j < n ==> hs[i] != hs[j])
    && (forall i :: 0 <= i < n ==> hs[i] !in taken)
  }

  lemma OneMoreRow(taken: map<Hash, bool>, hs: seq<Hash>, i: nat)
    requires i < |hs|
    ensures Added(taken, hs[..i + 1]) == Added(taken, hs[..i])[hs[i] := false]
  {
    assert hs[..i + 1] == hs[..i] + [hs[i]];
  }

  lemma OneMoreFits(taken: map<Hash, bool>, hs: seq<Hash>, i: nat)
    requires i < |hs| && Insertable(taken, hs, i)
    ensures Insertable(taken, hs, i + 1) <==> hs[i] !in Added(taken, hs[..i])
  {
    var before := hs[..i];
    assert forall k :: 0 <= k < i ==> hs[k] in before;
    if hs[i] in before {
      var k :| 0 <= k < i && before[k] == hs[i];
      assert hs[k] == hs[i];
    }
  }

  /** generateRecoveryCodesTx: a digest already in the table breaks its unique constraint and
      with it the transaction. `taken` holds the user's rows: is the code used? */
  method Generate(sha: string -> Hash, upper: char -> char, raws: seq<Bytes>, taken: map<Hash, bool>)
      returns (r: Option<(seq<string>, map<Hash, bool>)>)
    requires forall i :: 0 <= i < |raws| ==> |raws[i]| == RAW
    ensures r.Some? <==> Insertable(taken, Stored(sha, upper, raws), |raws|)
    ensures
      var hs := Stored(sha, upper, raws);
      r.Some? <==> && (forall i, j :: 0 <= i < j < |hs| ==> hs[i] != hs[j])
                   && forall i :: 0 <= i < |hs| ==> hs[i] !in taken
    ensures r.Some? ==> Shows(r.value.0, raws)
    ensures r.Some? ==> r.value.1 == Added(taken, Stored(sha, upper, raws))
  {
    hide Format, Normalize, Added;
    var codes, rows := [], taken;
    ghost var hs := Stored(sha, upper, raws);
    assert Added(taken, hs[..0]) == taken by { NoneAdded(taken); }
    for i := 0 to |raws|
      invariant |codes| == i && forall k :: 0 <= k < i ==> codes[k] == Format(raws[k])
      invariant Insertable(taken, hs, i) && rows == Added(taken, hs[..i])
    {
      var code := Format(raws[i]);
      var h := sha(Normalize(upper, code));
      assert h == hs[i];
      OneMoreRow(taken, hs, i);
      OneMoreFits(taken, hs, i);
      if h in rows {
        return None;
      }
      rows := rows[h := false];
      codes := codes + [code];
    }
    assert hs[..|raws|] == hs;
    r := Some((codes, rows));
  }

  lemma NoneAdded(taken: map<Hash, bool>)
    ensures Added(taken, []) == taken
  {
  }

  /** With a collision-free digest, a set of codes is refused only for a repeated draw. */
  lemma OnlyRepeatedDrawsCollide(sha: string -> Hash, upper: char -> char, raws: seq<Bytes>)
    requires LawfulUpper(upper) && (forall a, b :: sha(a) == sha(b) ==> a == b)
    requires forall i :: 0 <= i < |raws| ==> |raws[i]| == RAW
    ensures Insertable(map[], Stored(sha, upper, raws), |raws|) <==>
        forall i, j :: 0 <= i < j < |raws| ==> raws[i] != raws[j]
  {
    var hs := Stored(sha, upper, raws);
    forall i, j | 0 <= i < j < |raws| ensures hs[i] == hs[j] <==> raws[i] == raws[j] {
      if raws[i] != raws[j] {
        DistinctBytesDistinctCodes(upper, raws[i], raws[j]);
      }
    }
  }
}
