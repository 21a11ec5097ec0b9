/**
  Scope lists as the authorization server reads, writes and merges them
  (backend/internal/httpapi/oauth.go, splitScope .. mergeScopes).

  A scope parameter is text. It is cut at white space, every piece is checked
  character by character, and repeated pieces are dropped. What is stored in the
  database is the surviving pieces joined by single spaces, and that text is cut
  again every time a row is used.
 */
module Scopes {

  datatype Result<+T> = Ok(value: T) | Err

  // ----- Cutting text at white space -----

  /** The code points Go's unicode.IsSpace accepts. */
  predicate IsSpace(c: char) {
    || '\t' <= c <= '\r' || c == ' ' || c == '\U{85}' || c == '\U{A0}' || c == '\U{1680}'
    || '\U{2000}' <= c <= '\U{200A}' || c == '\U{2028}' || c == '\U{2029}'
    || c == '\U{202F}' || c == '\U{205F}' || c == '\U{3000}'
  }

  /** The characters splitScope lets through. */
  predicate ScopeChar(c: char) {
    !(c <= ' ' || c == '\U{7F}' || c == '"' || c == '\\')
  }

  /** A scope-token character in the sense of section 3.3 of RFC 6749. */
  predicate Rfc6749Char(c: char) {
    c == '!' || '#' <= c <= '[' || ']' <= c <= '~'
  }

  predicate NoSpace(s: string) {
    forall i :: 0 <= i < |s| ==> !IsSpace(s[i])
  }

  predicate AllScopeChars(s: string) {
    forall i :: 0 <= i < |s| ==> ScopeChar(s[i])
  }

  predicate Rfc6749Token(s: string) {
    s != "" && forall i :: 0 <= i < |s| ==> Rfc6749Char(s[i])
  }

  /** strings.Fields, with the piece read so far in `piece`. */
  function FieldsFrom(s: string, piece: string): seq<string>
    decreases |s|
  {
    if s == "" then (if piece == "" then [] else [piece])
    else if !IsSpace(s[0]) then FieldsFrom(s[1..], piece + [s[0]])
    else if piece == "" then FieldsFrom(s[1..], "")
    else [piece] + FieldsFrom(s[1..], "")
  }

  function Fields(s: string): seq<string> {
    FieldsFrom(s, "")
  }

  function Join(pieces: seq<string>): string {
    if pieces == [] then ""
    else if |pieces| == 1 then pieces[0]
    else pieces[0] + " " + Join(pieces[1..])
  }

  predicate CleanPiece(p: string) {
    p != "" && NoSpace(p)
  }

  predicate CleanPieces(ps: seq<string>) {
    forall i :: 0 <= i < |ps| ==> CleanPiece(ps[i])
  }

  /** Every piece that comes out of the cut is non-empty and free of white space. */
  lemma {:induction false} FieldsFromClean(s: string, piece: string)
    requires NoSpace(piece)
    ensures CleanPieces(FieldsFrom(s, piece))
    decreases |s|
  {
    if s == "" {
    } else if !IsSpace(s[0]) {
      FieldsFromClean(s[1..], piece + [s[0]]);
    } else {
      FieldsFromClean(s[1..], "");
    }
  }

  /** A piece without white space is read whole, whatever follows it. */
  lemma {:induction false} FieldsReadsPiece(p: string, rest: string, piece: string)
    requires NoSpace(p)
    ensures FieldsFrom(p + rest, piece) == FieldsFrom(rest, piece + p)
    decreases |p|
  {
    if p == "" {
      assert p + rest == rest && piece + p == piece;
    } else {
      assert (p + rest)[0] == p[0] && (p + rest)[1..] == p[1..] + rest;
      FieldsReadsPiece(p[1..], rest, piece + [p[0]]);
      assert (piece + [p[0]]) + p[1..] == piece + p;
    }
  }

  /** Joining clean pieces and cutting the text again gives the pieces back. */
  lemma {:induction false} FieldsOfJoin(ps: seq<string>)
    requires CleanPieces(ps)
    ensures Fields(Join(ps)) == ps
  {
    if ps == [] {
    } else if |ps| == 1 {
      FieldsReadsPiece(ps[0], "", "");
      assert ps[0] + "" == ps[0] && "" + ps[0] == ps[0];
    } else {
      var tail := Join(ps[1..]);
      assert CleanPieces(ps[1..]) by {
        forall i | 0 <= i < |ps| - 1 ensures CleanPiece(ps[1..][i]) { assert ps[1..][i] == ps[i + 1]; }
      }
      FieldsOfJoin(ps[1..]);
      FieldsReadsPiece(ps[0], " " + tail, "");
      assert ps[0] + " " + tail == ps[0] + (" " + tail);
      assert "" + ps[0] == ps[0];
      assert (" " + tail)[0] == ' ' && (" " + tail)[1..] == tail;
      assert [ps[0]] + ps[1..] == ps;
    }
  }

  // ----- Merging without repetition -----

  predicate Distinct<T(==)>(xs: seq<T>) {
    forall i, j :: 0 <= i < j < |xs| ==> xs[i] != xs[j]
  }

  function Elements<T>(xs: seq<T>): set<T> {
    set x | x in xs
  }

  /** `a` followed by the members of `b` not seen before, in the order of `b`. */
  function Merge(a: seq<string>, b: seq<string>): seq<string>
    decreases |b|
  {
    if b == [] then a
    else
      var sofar := Merge(a, b[..|b| - 1]);
      if b[|b| - 1] in sofar then sofar else sofar + [b[|b| - 1]]
  }

  /** What merging promises: the old list is a prefix, the set is the union, and
      what was appended repeats nothing. */
  lemma {:induction false} MergeProperties(a: seq<string>, b: seq<string>)
    ensures a <= Merge(a, b)
    ensures forall x :: x in Merge(a, b) <==> x in a || x in b
    ensures Distinct(Merge(a, b)[|a|..])
    ensures forall i :: |a| <= i < |Merge(a, b)| ==> Merge(a, b)[i] !in a
    decreases |b|
  {
    if b != [] {
      var init, last := b[..|b| - 1], b[|b| - 1];
      MergeProperties(a, init);
      assert b == init + [last];
      var sofar := Merge(a, init);
      if last !in sofar {
        var m := sofar + [last];
        assert m[..|a|] == sofar[..|a|];
        assert m[|a|..] == sofar[|a|..] + [last];
        forall i | 0 <= i < |sofar| - |a| ensures sofar[|a|..][i] != last {
          assert sofar[|a|..][i] == sofar[|a| + i];
        }
      }
    }
  }

  /** The position where `x` first occurs. */
  function FirstIndex(xs: seq<string>, x: string): (i: nat)
    requires x in xs
    ensures i < |xs| && xs[i] == x && x !in xs[..i]
    decreases |xs|
  {
    if x in xs[..|xs| - 1] then
      var i := FirstIndex(xs[..|xs| - 1], x);
      assert xs[..|xs| - 1][..i] == xs[..i];
      i
    else
      assert forall k :: 0 <= k < |xs| - 1 ==> xs[k] == xs[..|xs| - 1][k];
      |xs| - 1
  }

  /** Members keep the order of their first occurrence. */
  predicate FirstOccurrenceOrder(out: seq<string>, xs: seq<string>) {
    && (forall i :: 0 <= i < |out| ==> out[i] in xs)
    && (forall i, j :: 0 <= i < j < |out| ==> FirstIndex(xs, out[i]) < FirstIndex(xs, out[j]))
  }

  lemma FirstIndexOfPrefix(xs: seq<string>, last: string, x: string)
    requires x in xs
    ensures x in xs + [last] && FirstIndex(xs + [last], x) == FirstIndex(xs, x)
  {
    assert (xs + [last])[..|xs|] == xs;
  }

  /** Dropping repetitions (merging into the empty list) keeps exactly the distinct
      members, ordered by first occurrence. */
  lemma {:induction false} DedupOrder(xs: seq<string>)
    ensures Distinct(Merge([], xs))
    ensures Elements(Merge([], xs)) == Elements(xs)
    ensures FirstOccurrenceOrder(Merge([], xs), xs)
    decreases |xs|
  {
    MergeProperties([], xs);
    assert Merge([], xs)[0..] == Merge([], xs);
    if xs != [] {
      var init, last := xs[..|xs| - 1], xs[|xs| - 1];
      assert xs == init + [last];
      DedupOrder(init);
      MergeProperties([], init);
      var out, before := Merge([], xs), Merge([], init);
      forall i | 0 <= i < |before| ensures FirstIndex(xs, before[i]) == FirstIndex(init, before[i]) {
        FirstIndexOfPrefix(init, last, before[i]);
      }
      if last !in before {
        assert last !in init;
        assert FirstIndex(xs, last) == |init|;
      }
    }
  }

  /** A list without repetitions is left alone. */
  lemma {:induction false} DedupOfDistinct(xs: seq<string>)
    requires Distinct(xs)
    ensures Merge([], xs) == xs
    decreases |xs|
  {
    if xs != [] {
      var init := xs[..|xs| - 1];
      DedupOfDistinct(init);
      assert xs == init + [xs[|xs| - 1]];
    }
  }

  // ----- splitScope -----

  predicate AllPiecesValid(ps: seq<string>) {
    forall i :: 0 <= i < |ps| ==> AllScopeChars(ps[i])
  }

  lemma FieldsClean(raw: string)
    ensures CleanPieces(Fields(raw))
  {
    FieldsFromClean(raw, "");
  }

  /** What splitScope answers. */
  function Split(raw: string): Result<seq<string>> {
    var fields := Fields(raw);
    if !AllPiecesValid(fields) || fields == [] then Err else Ok(Merge([], fields))
  }

  /** The inner loop of splitScope. */
  method CheckCharacters(scope: string) returns (ok: bool)
    ensures ok <==> AllScopeChars(scope)
  {
    for c := 0 to |scope|
      invariant forall i :: 0 <= i < c ==> ScopeChar(scope[i])
    {
      if scope[c] <= ' ' || scope[c] == '\U{7F}' || scope[c] == '"' || scope[c] == '\\' {
        return false;
      }
    }
    ok := true;
  }

  /** The loop of splitScope. */
  method SplitScope(raw: string) returns (r: Result<seq<string>>)
    ensures r == Split(raw)
  {
    hide AllScopeChars, Fields, IsSpace;
    var fields := Fields(raw);
    var seen: set<string> := {};
    var out: seq<string> := [];
    FieldsClean(raw);
    for k := 0 to |fields|
      invariant out == Merge([], fields[..k])
      invariant forall x :: x in seen <==> x in out
      invariant AllPiecesValid(fields[..k])
    {
      var scope := fields[k];
      assert fields[..k + 1][..k] == fields[..k];
      assert CleanPiece(scope);
      if scope == "" {
        assert false; // strings.Fields never yields an empty piece
      }
      var ok := CheckCharacters(scope);
      if !ok {
        return Err;
      }
      if scope !in seen {
        seen := seen + {scope};
        out := out + [scope];
      }
      assert fields[..k + 1] == fields[..k] + [scope];
    }
    assert fields[..|fields|] == fields;
    MergeProperties([], fields);
    if fields != [] {
      assert fields[0] in out;
    }
    if |out| == 0 {
      return Err;
    }
    return Ok(out);
  }

  /** The loop of mergeScopes. */
  method MergeScopes(a: seq<string>, b: seq<string>) returns (out: seq<string>)
    ensures out == Merge(a, b)
  {
    out := a;
    for k := 0 to |b|
      invariant out == Merge(a, b[..k])
    {
      assert b[..k + 1][..k] == b[..k];
      if b[k] !in out {
        out := out + [b[k]];
      }
    }
    assert b[..|b|] == b;
  }

  /** contains over every requested scope. */
  predicate ContainsAll(allowed: seq<string>, requested: seq<string>) {
    forall i :: 0 <= i < |requested| ==> requested[i] in allowed
  }

  /** `scopes, _ := splitScope(scope)`: an unreadable text counts as no scopes. */
  function ScopeList(scope: string): seq<string> {
    match Split(scope)
    case Ok(scopes) => scopes
    case Err => []
  }

  function ScopeSet(scope: string): set<string> {
    Elements(ScopeList(scope))
  }

  /** A text is accepted exactly when it holds a piece and every piece is made of
      permitted characters; the answer is the distinct pieces by first occurrence. */
  lemma SplitAccepts(raw: string)
    ensures Split(raw).Ok? <==> Fields(raw) != [] && AllPiecesValid(Fields(raw))
    ensures Split(raw).Ok? ==>
              && Distinct(Split(raw).value)
              && Elements(Split(raw).value) == Elements(Fields(raw))
              && FirstOccurrenceOrder(Split(raw).value, Fields(raw))
              && Split(raw).value != []
              && CleanPieces(Split(raw).value)
              && AllPiecesValid(Split(raw).value)
  {
    var fields := Fields(raw);
    FieldsFromClean(raw, "");
    if Split(raw).Ok? {
      DedupOrder(fields);
      MergeProperties([], fields);
      assert fields[0] in Split(raw).value;
      forall i | 0 <= i < |Split(raw).value|
        ensures CleanPiece(Split(raw).value[i]) && AllScopeChars(Split(raw).value[i])
      {
        assert Split(raw).value[i] in fields;
      }
    }
  }

  /** Reading back what was stored changes nothing: split of join of split is split. */
  lemma SplitJoinSplit(raw: string)
    requires Split(raw).Ok?
    ensures Split(Join(Split(raw).value)) == Split(raw)
  {
    SplitAccepts(raw);
    var scopes := Split(raw).value;
    FieldsOfJoin(scopes);
    DedupOfDistinct(scopes);
  }

  /** Every non-empty list of scope-tokens in the sense of section 3.3 of RFC 6749,
      written with single spaces, is accepted, and no token is lost. */
  lemma Rfc6749ListAccepted(tokens: seq<string>)
    requires tokens != [] && forall i :: 0 <= i < |tokens| ==> Rfc6749Token(tokens[i])
    ensures Split(Join(tokens)) == Ok(Merge([], tokens))
    ensures ScopeSet(Join(tokens)) == Elements(tokens)
  {
    assert CleanPieces(tokens) by {
      forall i | 0 <= i < |tokens| ensures CleanPiece(tokens[i]) { assert Rfc6749Token(tokens[i]); }
    }
    FieldsOfJoin(tokens);
    assert AllPiecesValid(tokens) by {
      forall i | 0 <= i < |tokens| ensures AllScopeChars(tokens[i]) { assert Rfc6749Token(tokens[i]); }
    }
    DedupOrder(tokens);
  }
}
