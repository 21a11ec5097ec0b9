/**
  Facts about one flag along a run, step by step. Every claim that something visible now goes
  back to a step made earlier is proved with these.
 */
module Runs {

  /** At some step from `c` on `up` happened, and `down` has not happened after it before `i`. */
  ghost predicate Since(c: nat, i: nat, up: nat -> bool, down: nat -> bool) {
    exists k: nat :: c <= k < i && up(k) && forall m: nat :: k < m < i ==> !down(m)
  }

  lemma SinceStep(c: nat, i: nat, up: nat -> bool, down: nat -> bool)
    requires c <= i
    ensures Since(c, i + 1, up, down) <==> up(i) || (Since(c, i, up, down) && !down(i))
  {
    if Since(c, i + 1, up, down) && !up(i) {
      var k: nat :| c <= k < i + 1 && up(k) && forall m: nat :: k < m < i + 1 ==> !down(m);
      assert k < i && !down(i);
    }
    if Since(c, i, up, down) && !down(i) {
      var k: nat :| c <= k < i && up(k) && forall m: nat :: k < m < i ==> !down(m);
      assert forall m: nat :: k < m < i + 1 ==> !down(m);
    }
  }

  lemma LongerSince(b: nat, c: nat, i: nat, up: nat -> bool, down: nat -> bool)
    requires b <= c && Since(c, i, up, down)
    ensures Since(b, i, up, down)
  {
  }

  /** A flag that only `up` raises and only `down` lowers. */
  lemma {:induction false} FlagSince(c: nat, i: nat, on: nat -> bool, up: nat -> bool, down: nat -> bool)
    requires c <= i
    requires forall n: nat :: c <= n < i ==> (on(n + 1) <==> up(n) || (on(n) && !down(n)))
    ensures Since(c, i, up, down) ==> on(i)
    ensures on(i) ==> on(c) || Since(c, i, up, down)
    decreases i
  {
    if c < i {
      FlagSince(c, i - 1, on, up, down);
      SinceStep(c, i - 1, up, down);
      assert on((i - 1) + 1) <==> up(i - 1) || (on(i - 1) && !down(i - 1));
    }
  }

  /** The step that raised a flag which has stayed up since. */
  lemma {:induction false} RaisedAt(from: nat, i: nat, on: nat -> bool) returns (c: nat)
    requires from <= i && !on(from) && on(i)
    ensures from <= c < i && !on(c) && forall k: nat :: c < k <= i ==> on(k)
    decreases i
  {
    if on(i - 1) {
      c := RaisedAt(from, i - 1, on);
    } else {
      c := i - 1;
    }
  }

  /** The last step that made what is there at `i`; nothing has removed it since. */
  lemma {:induction false} MadeSince(from: nat, i: nat, on: nat -> bool, makes: nat -> bool, removes: nat -> bool)
      returns (c: nat)
    requires from <= i && !on(from) && on(i)
    requires forall n: nat :: from <= n < i && on(n + 1) ==> makes(n) || (on(n) && !removes(n))
    ensures from <= c < i && makes(c)
    ensures forall k: nat :: c < k < i ==> on(k) && !removes(k)
    decreases i
  {
    assert on((i - 1) + 1);
    if makes(i - 1) {
      c := i - 1;
    } else {
      c := MadeSince(from, i - 1, on, makes, removes);
    }
  }
}
