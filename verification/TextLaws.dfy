/**
  The text formats said outright, down to single characters: scope lists, the encodings of
  RFC 4648, password strings and recovery codes. Together with the round trips these laws
  leave no choice to the functions they speak of.
 */
module ScopeLaws {
  import opened Scopes

  /** White space is the White_Space property of Unicode: these 25 code points. */
  lemma WhiteSpaceIs(c: char)
    ensures IsSpace(c) <==>
              c in {'\t', '\n', '\U{0B}', '\U{0C}', '\r', ' ', '\U{85}', '\U{A0}', '\U{1680}', '\U{2000}', '\U{2001}',
                    '\U{2002}', '\U{2003}', '\U{2004}', '\U{2005}', '\U{2006}', '\U{2007}', '\U{2008}', '\U{2009}',
                    '\U{200A}', '\U{2028}', '\U{2029}', '\U{202F}', '\U{205F}', '\U{3000}'}
  {
  }

  /** Where text is cut: at any white space, leading, trailing or repeated, and nowhere else. */
  lemma CutsAtWhiteSpace(a: string, w: char, b: string)
    requires IsSpace(w)
    ensures Fields("") == []
    ensures a != "" && NoSpace(a) ==> Fields(a) == [a]
    ensures Fields(a + [w] + b) == Fields(a) + Fields(b)
  {
    if a != "" && NoSpace(a) {
      FieldsReadsPiece(a, "", "");
      assert a + "" == a && "" + a == a;
    }
    CutFrom(a, w, b, "");
  }

  lemma {:induction false} CutFrom(a: string, w: char, b: string, piece: string)
    requires IsSpace(w)
    ensures FieldsFrom(a + [w] + b, piece) == FieldsFrom(a, piece) + Fields(b)
    decreases |a|
  {
    var whole := a + [w] + b;
    if a == "" {
      assert whole[0] == w && whole[1..] == b;
    } else {
      assert whole[0] == a[0] && whole[1..] == a[1..] + [w] + b;
      CutFrom(a[1..], w, b, if IsSpace(a[0]) then "" else piece + [a[0]]);
    }
  }

  /** A scope text is accepted exactly when it holds something besides white space, and all of
      that is permitted: no control character or DEL, no quotation mark, no backslash. */
  lemma CharactersDecide(raw: string)
    ensures Split(raw).Ok? <==>
              && (exists i :: 0 <= i < |raw| && !IsSpace(raw[i]))
              && forall i :: 0 <= i < |raw| && !IsSpace(raw[i]) ==>
                   raw[i] > ' ' && raw[i] != '\U{7F}' && raw[i] != '"' && raw[i] != '\\'
  {
    PiecesHoldCharacters(raw, "");
  }

  lemma {:induction false} PiecesHoldCharacters(s: string, piece: string)
    ensures FieldsFrom(s, piece) == [] <==> piece == "" && forall i :: 0 <= i < |s| ==> IsSpace(s[i])
    ensures AllPiecesValid(FieldsFrom(s, piece)) <==>
              AllScopeChars(piece) && forall i :: 0 <= i < |s| && !IsSpace(s[i]) ==> ScopeChar(s[i])
    decreases |s|
  {
    hide IsSpace, ScopeChar;
    if s == "" {
      if piece != "" {
        assert FieldsFrom(s, piece)[0] == piece;
      }
    } else {
      var next := if !IsSpace(s[0]) then piece + [s[0]] else "";
      PiecesHoldCharacters(s[1..], next);
      assert forall i :: 1 <= i < |s| ==> s[i] == s[1..][i - 1];
      if !IsSpace(s[0]) {
        assert next[..|piece|] == piece && next[|piece|] == s[0];
        assert AllScopeChars(next) <==> AllScopeChars(piece) && ScopeChar(s[0]);
      } else if piece != "" {
        var rest := FieldsFrom(s[1..], "");
        assert FieldsFrom(s, piece) == [piece] + rest;
        FirstAndRest(piece, rest);
      }
    }
  }

  lemma FirstAndRest(piece: string, rest: seq<string>)
    ensures AllPiecesValid([piece] + rest) <==> AllScopeChars(piece) && AllPiecesValid(rest)
  {
    var all := [piece] + rest;
    assert all[0] == piece && forall i :: 0 <= i < |rest| ==> all[i + 1] == rest[i];
  }

  /** Stored lists are separated by single spaces (section 3.3 of RFC 6749). */
  lemma {:induction false} JoinedBySpaces(pieces: seq<string>, last: string)
    ensures Join([last]) == last && Join([]) == ""
    ensures pieces != [] ==> Join(pieces + [last]) == Join(pieces) + " " + last
  {
    if |pieces| == 1 {
      assert (pieces + [last])[1..] == [last];
    } else if pieces != [] {
      assert (pieces + [last])[1..] == pieces[1..] + [last];
      JoinedBySpaces(pieces[1..], last);
    }
  }
}

module EncodingLaws {
  import opened Accounts
  import opened Encoding

  /** The tables of sections 4, 5 and 6 of RFC 4648, by their ends and their runs. */
  lemma Alphabets(a: Alphabet, v: Sextet, q: Quintet)
    ensures CharOf(a, 0) == 'A' && CharOf(a, 26) == 'a' && CharOf(a, 52) == '0'
    ensures CharOf(Std, 62) == '+' && CharOf(Std, 63) == '/' && CharOf(Url, 62) == '-' && CharOf(Url, 63) == '_'
    ensures v < 61 && v != 25 && v != 51 ==> CharOf(a, v + 1) as int == CharOf(a, v) as int + 1
    ensures Char32(0) == 'A' && Char32(26) == '2'
    ensures q < 31 && q != 25 ==> Char32(q + 1) as int == Char32(q) as int + 1
  {
  }

  /** Three bytes are a 24-bit number, written as four base-64 digits; one or two left over are
      filled up with zero bits, and only the digits that hold any of them are written. */
  lemma Base64Groups(a: Alphabet, bs: Bytes) returns (d: seq<Sextet>)
    ensures Encode64(a, []) == ""
    ensures |d| == 4
    ensures ((d[0] as int * 64 + d[1]) * 64 + d[2]) * 64 + d[3] ==
              ((if |bs| > 0 then bs[0] as int else 0) * 256 + (if |bs| > 1 then bs[1] as int else 0)) * 256
              + if |bs| > 2 then bs[2] as int else 0
    ensures |bs| == 1 ==> Encode64(a, bs) == [CharOf(a, d[0]), CharOf(a, d[1])]
    ensures |bs| == 2 ==> Encode64(a, bs) == [CharOf(a, d[0]), CharOf(a, d[1]), CharOf(a, d[2])]
    ensures |bs| >= 3 ==>
              Encode64(a, bs) == [CharOf(a, d[0]), CharOf(a, d[1]), CharOf(a, d[2]), CharOf(a, d[3])]
                                 + Encode64(a, bs[3..])
  {
    var x: Byte, y: Byte, z: Byte := if |bs| > 0 then bs[0] else 0, if |bs| > 1 then bs[1] else 0,
                                     if |bs| > 2 then bs[2] else 0;
    d := [S0(x), S1(x, y), S2(y, z), S3(z)];
    GroupSum(x, y, z);
    GroupText(a, bs, x, y, z);
  }

  lemma GroupSum(x: Byte, y: Byte, z: Byte)
    ensures ((S0(x) as int * 64 + S1(x, y)) * 64 + S2(y, z)) * 64 + S3(z) == (x as int * 256 + y) * 256 + z
  {
  }

  lemma GroupText(a: Alphabet, bs: Bytes, x: Byte, y: Byte, z: Byte)
    requires x == (if |bs| > 0 then bs[0] else 0) && y == (if |bs| > 1 then bs[1] else 0)
    requires z == if |bs| > 2 then bs[2] else 0
    ensures |bs| == 1 ==> Encode64(a, bs) == [CharOf(a, S0(x)), CharOf(a, S1(x, y))]
    ensures |bs| == 2 ==> Encode64(a, bs) == [CharOf(a, S0(x)), CharOf(a, S1(x, y)), CharOf(a, S2(y, z))]
    ensures |bs| >= 3 ==>
              Encode64(a, bs) == [CharOf(a, S0(x)), CharOf(a, S1(x, y)), CharOf(a, S2(y, z)), CharOf(a, S3(z))]
                                 + Encode64(a, bs[3..])
  {
    hide S0, S1, S2, S3, CharOf;
    var group := if |bs| == 0 then []
                 else if |bs| == 1 then [S0(x), S1(x, y)]
                 else if |bs| == 2 then [S0(x), S1(x, y), S2(y, z)]
                 else [S0(x), S1(x, y), S2(y, z), S3(z)];
    var rest := if |bs| < 3 then [] else Sextets(bs[3..]);
    assert Sextets(bs) == group + rest;
    TextConcat(a, group, rest);
    GroupLetters(a, group);
  }

  lemma {:induction false} TextConcat(a: Alphabet, vs: seq<Sextet>, ws: seq<Sextet>)
    ensures Text(a, vs + ws) == Text(a, vs) + Text(a, ws)
  {
    if vs == [] {
      assert vs + ws == ws;
    } else {
      assert (vs + ws)[1..] == vs[1..] + ws;
      TextConcat(a, vs[1..], ws);
    }
  }

  lemma {:induction false} GroupLetters(a: Alphabet, vs: seq<Sextet>)
    ensures |Text(a, vs)| == |vs| && forall i :: 0 <= i < |vs| ==> Text(a, vs)[i] == CharOf(a, vs[i])
  {
    if vs != [] {
      GroupLetters(a, vs[1..]);
    }
  }

  /** Go's decoder: line breaks count for nothing, wherever they are. */
  lemma LineBreaksIgnored(a: Alphabet, s: string, t: string)
    ensures Decode64(a, s + "\n" + t) == Decode64(a, s + t) == Decode64(a, s + "\r" + t)
  {
    SkipBreak(a, s, '\n', t);
    SkipBreak(a, s, '\r', t);
  }

  lemma {:induction false} SkipBreak(a: Alphabet, s: string, c: char, t: string)
    requires c == '\n' || c == '\r'
    ensures Values(a, s + [c] + t) == Values(a, s + t)
  {
    if s == "" {
      assert (s + [c] + t)[1..] == t && s + t == t;
    } else {
      assert (s + [c] + t)[0] == s[0] && (s + [c] + t)[1..] == s[1..] + [c] + t;
      assert (s + t)[0] == s[0] && (s + t)[1..] == s[1..] + t;
      SkipBreak(a, s[1..], c, t);
    }
  }

  /** Five bytes are a 40-bit number, written as eight base-32 digits. */
  lemma Base32Groups(bs: Bytes) returns (d: seq<Quintet>)
    requires |bs| % 5 == 0 && bs != []
    ensures |d| == 8
    ensures ((((((d[0] as int * 32 + d[1]) * 32 + d[2]) * 32 + d[3]) * 32 + d[4]) * 32 + d[5]) * 32 + d[6]) * 32 + d[7]
         == (((bs[0] as int * 256 + bs[1]) * 256 + bs[2]) * 256 + bs[3]) * 256 + bs[4]
    ensures Encode32(bs) == [Char32(d[0]), Char32(d[1]), Char32(d[2]), Char32(d[3]),
                             Char32(d[4]), Char32(d[5]), Char32(d[6]), Char32(d[7])] + Encode32(bs[5..])
  {
    hide Q0, Q1, Q2, Q3, Q4, Q5, Q6, Q7, Char32;
    var x, y, z, v, w := bs[0], bs[1], bs[2], bs[3], bs[4];
    d := [Q0(x), Q1(x, y), Q2(y), Q3(y, z), Q4(z, v), Q5(v), Q6(v, w), Q7(w)];
    FiveBytes(x, y, z, v, w);
    assert Quintets(bs) == d + Quintets(bs[5..]);
    Text32Concat(d, Quintets(bs[5..]));
    EightLetters(d);
  }

  lemma Text32Concat(vs: seq<Quintet>, ws: seq<Quintet>)
    ensures Text32(vs + ws) == Text32(vs) + Text32(ws)
  {
  }

  lemma EightLetters(d: seq<Quintet>)
    requires |d| == 8
    ensures Text32(d) == [Char32(d[0]), Char32(d[1]), Char32(d[2]), Char32(d[3]),
                          Char32(d[4]), Char32(d[5]), Char32(d[6]), Char32(d[7])]
  {
    hide Char32;
  }

  lemma FiveBytes(x: Byte, y: Byte, z: Byte, v: Byte, w: Byte)
    ensures ((((((Q0(x) as int * 32 + Q1(x, y)) * 32 + Q2(y)) * 32 + Q3(y, z)) * 32 + Q4(z, v)) * 32 + Q5(v)) * 32
             + Q6(v, w)) * 32 + Q7(w)
         == (((x as int * 256 + y) * 256 + z) * 256 + v) * 256 + w
  {
    SplitSecond(y);
    SplitFourth(v);
  }

  /** Big-endian: every further byte multiplies by 256. */
  lemma BigEndianDigits(bs: Bytes, b: Byte)
    ensures FromBytes([]) == 0 && FromBytes(bs + [b]) == FromBytes(bs) * 256 + b
  {
    assert (bs + [b])[..|bs|] == bs;
  }
}

module PasswordLaws {
  import opened Accounts
  import opened Encoding
  import opened Passwords

  /** Cutting loses nothing, and no piece holds the separator: that and SplitOfJoin say which
      pieces there are. */
  lemma {:induction false} JoinOfSplit(s: string, c: char)
    ensures JoinWith(SplitOn(s, c), c) == s
    ensures forall i :: 0 <= i < |SplitOn(s, c)| ==> c !in SplitOn(s, c)[i]
  {
    if s != "" {
      JoinOfSplit(s[1..], c);
      var rest := SplitOn(s[1..], c);
      if s[0] == c {
        assert ([""] + rest)[1..] == rest;
      } else {
        var parts := [[s[0]] + rest[0]] + rest[1..];
        assert parts[1..] == rest[1..];
      }
    }
  }

  lemma {:induction false} DigitsOnly(s: string)
    ensures DecimalValue(s).Some? <==> s != "" && forall i :: 0 <= i < |s| ==> '0' <= s[i] <= '9'
    decreases |s|
  {
    if |s| > 1 {
      DigitsOnly(s[..|s| - 1]);
    }
  }

  /** A cost item is `m=`, `t=` or `p=` and decimal digits for a number of 32 bits. */
  lemma ItemIs(item: string)
    ensures Item(item).Some? <==>
              && |item| > 2 && (item[0] == 'm' || item[0] == 't' || item[0] == 'p') && item[1] == '='
              && (forall i :: 2 <= i < |item| ==> '0' <= item[i] <= '9')
              && DecimalValue(item[2..]).Some? && DecimalValue(item[2..]).value < 4_294_967_296
    ensures Item(item).Some? ==>
              && |item| > 2 && DecimalValue(item[2..]).Some?
              && Item(item).value == (item[0], DecimalValue(item[2..]).value)
  {
    var i := FirstIndex(item, '=');
    if |item| > 1 && (item[0] == 'm' || item[0] == 't' || item[0] == 'p') && item[1] == '=' {
      assert item[1..][0] == '=';
      assert i == 1 && item[..1] == [item[0]];
      DigitsOnly(item[2..]);
      assert forall k :: 2 <= k < |item| ==> item[k] == item[2..][k - 2];
    }
  }

  /** The last item of a name decides, and a name that is missing counts as zero. */
  lemma LastDecides(items: seq<string>, item: string, name: char)
    requires |item| > 2 && Item(item).Some? && DecimalValue(item[2..]).Some?
    ensures Last([], name) == 0
    ensures Last(items + [item], name) == if item[0] == name then DecimalValue(item[2..]).value else Last(items, name)
  {
    hide Item;
    ItemIs(item);
    assert (items + [item])[..|items|] == items;
  }

  /** Decimal: every further digit multiplies by ten. */
  lemma DecimalDigits(s: string, d: char)
    requires '0' <= d <= '9' && DecimalValue(s).Some?
    ensures DecimalValue(s + [d]) == Some(DecimalValue(s).value * 10 + (d as int - 48))
    ensures DecimalValue([d]) == Some(d as int - 48)
  {
    assert (s + [d])[..|s|] == s;
  }

  /** What VerifyPassword accepts as a password string: six parts around five dollar signs, the
      second and third fixed; the first may be anything. */
  lemma ParsedStrings(encoded: string) returns (first: string, costs: string, salt: string, hash: string)
    ensures Parse(encoded).Some? ==>
              && encoded == first + "$argon2id$v=19$" + costs + "$" + salt + "$" + hash
              && '$' !in first && '$' !in costs && '$' !in salt && '$' !in hash
              && Decode64(Std, salt) == Some(Parse(encoded).value.salt)
              && Decode64(Std, hash) == Some(Parse(encoded).value.hash)
              && (forall i :: 0 <= i < |SplitOn(costs, ',')| ==> Item(SplitOn(costs, ',')[i]).Some?)
  {
    hide JoinWith, Item, Last, Decode64;
    first, costs, salt, hash := "", "", "", "";
    if Parse(encoded).Some? {
      var p := SplitOn(encoded, '$');
      first, costs, salt, hash := p[0], p[3], p[4], p[5];
      JoinOfSplit(encoded, '$');
      assert p == [first, "argon2id", "v=19", costs, salt, hash];
      SixParts(first, costs, salt, hash);
    }
  }

  /** And every string of that form is read: what decides are its cost items and the decoding of
      its last two parts, whatever the first is. */
  lemma ReadStrings(first: string, costs: string, salt: string, hash: string)
    requires '$' !in first && '$' !in costs && '$' !in salt && '$' !in hash
    ensures
      var items := SplitOn(costs, ',');
      Parse(first + "$argon2id$v=19$" + costs + "$" + salt + "$" + hash) ==
        if (exists i :: 0 <= i < |items| && Item(items[i]).None?)
           || Decode64(Std, salt).None? || Decode64(Std, hash).None? then None
        else Some(Parsed(Costs(Last(items, 'm'), Last(items, 't'), Last(items, 'p')),
                         Decode64(Std, salt).value, Decode64(Std, hash).value))
  {
    hide JoinWith, Item, Last, Decode64;
    var parts := [first, "argon2id", "v=19", costs, salt, hash];
    SixParts(first, costs, salt, hash);
    SplitOfJoin(parts, '$');
  }

  lemma SixParts(first: string, costs: string, salt: string, hash: string)
    ensures JoinWith([first, "argon2id", "v=19", costs, salt, hash], '$')
         == first + "$argon2id$v=19$" + costs + "$" + salt + "$" + hash
  {
    hide JoinWith;
    var rest := ["argon2id", "v=19", costs, salt, hash];
    assert [first, "argon2id", "v=19", costs, salt, hash] == [first] + rest;
    Prepend(first, rest, '$');
    assert rest == ["argon2id"] + ["v=19", costs, salt, hash];
    Prepend("argon2id", ["v=19", costs, salt, hash], '$');
    assert ["v=19", costs, salt, hash] == ["v=19"] + [costs, salt, hash];
    Prepend("v=19", [costs, salt, hash], '$');
    JoinOfThree(costs, salt, hash, '$');
    Assemble(first, costs, salt, hash);
  }

  lemma Assemble(first: string, costs: string, salt: string, hash: string)
    ensures first + ['$'] + ("argon2id" + ['$'] + ("v=19" + ['$'] + (costs + ['$'] + (salt + ['$'] + hash))))
         == first + "$argon2id$v=19$" + costs + "$" + salt + "$" + hash
  {
    var a, b := "argon2id" + ['$'] + ("v=19" + ['$']), costs + ['$'] + (salt + ['$'] + hash);
    assert "argon2id" + ['$'] + ("v=19" + ['$'] + b) == a + b;
    assert ['$'] + a == "$argon2id$v=19$";
    assert b == costs + "$" + salt + "$" + hash;
    assert first + ['$'] + (a + b) == first + (['$'] + a) + b;
  }

  /** HashPassword writes 64 MiB, three passes and two lanes. */
  lemma PrintedText(salt: Bytes, hash: Bytes)
    ensures Print(Costs(65_536, 3, 2), salt, hash) ==
              "$argon2id$v=19$m=65536,t=3,p=2$" + Encode64(Std, salt) + "$" + Encode64(Std, hash)
  {
    hide Encode64, Decimal;
    Numerals();
    assert "m=" + "65536" + ",t=" + "3" + ",p=" + "2" == "m=65536,t=3,p=2";
    assert "$argon2id$v=19$" + "m=65536,t=3,p=2" + "$" == "$argon2id$v=19$m=65536,t=3,p=2$";
  }

  lemma Numerals()
    ensures Decimal(65_536) == "65536" && Decimal(3) == "3" && Decimal(2) == "2"
  {
    Appended(0, 6, "");
    Appended(6, 5, "6");
    Appended(65, 5, "65");
    Appended(655, 3, "655");
    Appended(6_553, 6, "6553");
  }

  lemma Appended(n: nat, d: nat, s: string)
    requires d < 10 && (if n == 0 then s == "" else Decimal(n) == s)
    ensures Decimal(n * 10 + d) == s + ['0' + d as char]
  {
    assert (n * 10 + d) / 10 == n && (n * 10 + d) % 10 == d;
  }
}

module RecoveryLaws {
  import opened Scopes
  import opened Encoding
  import opened Recovery

  /** A code as it is shown: sixteen characters of base32 in four groups of four. */
  lemma ShownAs(raw: Bytes)
    requires |raw| == 10
    ensures var code, e := Format(raw), Encode32(raw);
            && |e| == 16 && |code| == 19
            && (forall i :: 0 <= i < 16 ==> code[i + i / 4] == e[i])
            && code[4] == '-' && code[9] == '-' && code[14] == '-'
  {
    hide Encode32;
    EncodedChars(raw);
  }

  /** Trimming takes white space off both ends and nothing else. */
  lemma {:induction false} Trimmed(s: string) returns (i: nat, j: nat)
    ensures i <= j <= |s| && TrimSpace(s) == s[i..j]
    ensures forall k :: 0 <= k < i || j <= k < |s| ==> IsSpace(s[k])
    ensures i < j ==> !IsSpace(s[i]) && !IsSpace(s[j - 1])
    ensures i == j ==> forall k :: 0 <= k < |s| ==> IsSpace(s[k])
    decreases |s|
  {
    hide IsSpace;
    i, j := 0, |s|;
    if s != "" && IsSpace(s[0]) {
      i, j := Trimmed(s[1..]);
      assert forall k :: 1 <= k < |s| ==> s[k] == s[1..][k - 1];
      i, j := i + 1, j + 1;
    } else if s != "" && IsSpace(s[|s| - 1]) {
      i, j := Trimmed(s[..|s| - 1]);
      assert forall k :: 0 <= k < |s| - 1 ==> s[k] == s[..|s| - 1][k];
    }
  }

  /** Dashes go, everything else stays in its order. */
  lemma {:induction false} DashesGo(s: string, t: string, c: char)
    ensures '-' !in Without(s, '-') && Without("-", '-') == "" && (c != '-' ==> Without([c], '-') == [c])
    ensures Without(s + t, '-') == Without(s, '-') + Without(t, '-')
  {
    WithoutConcat(s, t, '-');
    if s != "" {
      DashesGo(s[1..], t, c);
    }
    assert c != '-' ==> [c] + Without("", '-') == [c];
  }
}
