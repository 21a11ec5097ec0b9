/**
  Refresh-token families: their shape in every reachable state, and what revoking one
  means for the rest of the run (section 6 of RFC 6749, section 4.14.2 of RFC 9700).
  The shape theorem holds for every run, including those of interleaved transactions.
 */
module Families {
  import opened Accounts
  import opened Scopes
  import opened Ledger

  /** Member `i` of the chain: where it hangs, whether it is spent, and what it grants. */
  ghost predicate Link(refresh: map<Hash, Refresh>, family: Id, chain: seq<Hash>, i: nat)
    requires i < |chain| && chain[0] in refresh
  {
    && chain[i] in refresh
    && var row := refresh[chain[i]];
    && row.family == family
    && row.parent == (if i == 0 then None else Some(chain[i - 1]))
    && (row.consumedAt == None <==> i == |chain| - 1)
    && SameGrant(row, refresh[chain[0]])
  }

  /** `chain` lists exactly the members of the family, from the root to the tip. */
  ghost predicate IsChain(refresh: map<Hash, Refresh>, family: Id, chain: seq<Hash>) {
    && chain != [] && chain[0] in refresh
    && Distinct(chain)
    && (forall i :: 0 <= i < |chain| ==> Link(refresh, family, chain, i))
    && (forall h :: h in FamilyRows(refresh, family) ==> h in chain)
  }

  predicate SameGrant(a: Refresh, b: Refresh) {
    a.app == b.app && a.user == b.user && a.scope == b.scope
  }

  ghost predicate HasChain(refresh: map<Hash, Refresh>, family: Id) {
    exists chain :: IsChain(refresh, family, chain)
  }

  /** Every family is one chain. */
  ghost predicate ChainInv(refresh: map<Hash, Refresh>) {
    forall family :: FamilyRows(refresh, family) != {} ==> HasChain(refresh, family)
  }

  // ----- How each kind of change acts on chains -----

  /** A change that keeps the members, their parents and whether they are spent keeps the chain. */
  lemma ChainFrame(before: map<Hash, Refresh>, after: map<Hash, Refresh>, family: Id)
    requires HasChain(before, family)
    requires FamilyRows(after, family) == FamilyRows(before, family)
    requires forall h :: h in FamilyRows(before, family) ==>
               && after[h].parent == before[h].parent
               && after[h].consumedAt == before[h].consumedAt
               && SameGrant(after[h], before[h])
    ensures HasChain(after, family)
  {
    var chain :| IsChain(before, family, chain);
    assert Link(before, family, chain, 0);
    assert chain[0] in FamilyRows(before, family);
    forall i | 0 <= i < |chain| ensures Link(after, family, chain, i) {
      assert Link(before, family, chain, i);
      assert chain[i] in FamilyRows(before, family);
    }
    assert IsChain(after, family, chain);
  }

  lemma NewFamilyIsChain(before: map<Hash, Refresh>, token: Hash, row: Refresh)
    requires token !in before && FamilyRows(before, row.family) == {}
    requires row.parent == None && row.consumedAt == None
    ensures HasChain(before[token := row], row.family)
  {
    var after := before[token := row];
    forall h | h in FamilyRows(after, row.family) ensures h in [token] {
      assert h != token ==> h in FamilyRows(before, row.family);
    }
    assert Link(after, row.family, [token], 0);
    assert IsChain(after, row.family, [token]);
  }

  /** An unconsumed member can only be the tip. */
  lemma UnconsumedIsTip(refresh: map<Hash, Refresh>, family: Id, chain: seq<Hash>, token: Hash)
    requires IsChain(refresh, family, chain)
    requires token in FamilyRows(refresh, family) && refresh[token].consumedAt == None
    ensures token == chain[|chain| - 1]
  {
    assert token in chain;
    var k :| 0 <= k < |chain| && chain[k] == token;
    assert Link(refresh, family, chain, k);
  }

  /** Consuming the tip and inserting its successor makes the chain one longer. */
  lemma ExtendChain(before: map<Hash, Refresh>, family: Id, token: Hash, used: Refresh, next: Hash, row: Refresh)
    requires HasChain(before, family)
    requires token in before && before[token].family == family && before[token].consumedAt == None
    requires used.family == family && used.parent == before[token].parent && used.consumedAt.Some?
    requires SameGrant(used, before[token])
    requires next !in before
    requires row.family == family && row.parent == Some(token) && row.consumedAt == None
    requires SameGrant(row, before[token])
    ensures HasChain(before[token := used][next := row], family)
  {
    var chain :| IsChain(before, family, chain);
    var after := before[token := used][next := row];
    var longer := chain + [next];
    assert token in FamilyRows(before, family);
    UnconsumedIsTip(before, family, chain, token);
    forall h | h in FamilyRows(after, family) ensures h in longer {
      assert h != next ==> h in FamilyRows(before, family);
    }
    assert Link(before, family, chain, 0) && longer[0] == chain[0];
    forall i | 0 <= i < |longer| ensures Link(after, family, longer, i) {
      ExtendLinks(before, after, family, chain, token, next, i);
    }
    assert Distinct(longer) by {
      forall i | 0 <= i < |chain| ensures chain[i] != next {
        assert Link(before, family, chain, i);
      }
    }
    assert IsChain(after, family, longer);
  }

  lemma ExtendLinks(before: map<Hash, Refresh>, after: map<Hash, Refresh>, family: Id, chain: seq<Hash>, token: Hash,
      next: Hash, i: nat)
    requires IsChain(before, family, chain) && token == chain[|chain| - 1] && next !in before
    requires token in after && next in after && token in before
    requires after == before[token := after[token]][next := after[next]]
    requires after[token].family == family && after[token].parent == before[token].parent
    requires after[token].consumedAt.Some? && SameGrant(after[token], before[token])
    requires after[next].family == family && after[next].parent == Some(token)
    requires after[next].consumedAt == None && SameGrant(after[next], before[token])
    requires i <= |chain|
    ensures Link(after, family, chain + [next], i)
  {
    assert Link(before, family, chain, 0) && Link(before, family, chain, |chain| - 1);
    if i < |chain| {
      assert Link(before, family, chain, i);
    }
  }

  // ----- Every event keeps the shape -----

  lemma RevokeKeepsChains(refresh: map<Hash, Refresh>, rows: set<Hash>, started: Time)
    requires ChainInv(refresh)
    ensures ChainInv(RevokeRows(refresh, rows, started))
  {
    var after := RevokeRows(refresh, rows, started);
    forall family | FamilyRows(after, family) != {} ensures HasChain(after, family) {
      assert FamilyRows(after, family) == FamilyRows(refresh, family);
      ChainFrame(refresh, after, family);
    }
  }

  lemma InsertKeepsChains(before: map<Hash, Refresh>, token: Hash, row: Refresh)
    requires ChainInv(before)
    requires token !in before && FamilyRows(before, row.family) == {}
    requires row.parent == None && row.consumedAt == None
    ensures ChainInv(before[token := row])
  {
    var after := before[token := row];
    NewFamilyIsChain(before, token, row);
    forall family | FamilyRows(after, family) != {} ensures HasChain(after, family) {
      if family != row.family {
        assert FamilyRows(after, family) == FamilyRows(before, family);
        ChainFrame(before, after, family);
      }
    }
  }

  lemma RotateKeepsChains(before: map<Hash, Refresh>, token: Hash, used: Refresh, next: Hash, row: Refresh)
    requires ChainInv(before)
    requires token in before && before[token].consumedAt == None && next !in before
    requires used.consumedAt.Some? && used == before[token].(consumedAt := used.consumedAt)
    requires row.family == used.family && row.parent == Some(token) && row.consumedAt == None && SameGrant(row, used)
    ensures ChainInv(before[token := used][next := row])
  {
    var after := before[token := used][next := row];
    assert token in FamilyRows(before, used.family);
    ExtendChain(before, used.family, token, used, next, row);
    forall family | FamilyRows(after, family) != {} ensures HasChain(after, family) {
      if family != used.family {
        assert FamilyRows(after, family) == FamilyRows(before, family);
        ChainFrame(before, after, family);
      }
    }
  }

  lemma EventKeepsChains(w: World, e: Event)
    requires Enabled(w, e) && ChainInv(w.db.refresh)
    ensures ChainInv(Apply(w, e).db.refresh)
  {
    match e
    case Exchange(app, code, redirect, verifier, family, mint, started, at) =>
      InsertKeepsChains(w.db.refresh, mint.token, Apply(w, e).db.refresh[mint.token]);
    case Rotate(app, token, mint, started, at) =>
      RotateKeepsChains(w.db.refresh, token, w.db.refresh[token].(consumedAt := Some(started)),
                        mint.token, Apply(w, e).db.refresh[mint.token]);
    case Revoke(family, rows, started) =>
      RevokeKeepsChains(w.db.refresh, rows, started);
    case _ =>
      assert Apply(w, e).db.refresh == w.db.refresh;
  }

  /** In every state of every run each family is one parent-linked chain: a single root,
      each consumed token has exactly one successor, only the tip is unconsumed, and all
      members carry the same application, user and scope. */
  lemma {:induction false} EveryFamilyIsAChain(run: Run, i: nat)
    requires IsRun(run) && i < |run.worlds|
    ensures ChainInv(run.worlds[i].db.refresh)
    decreases i
  {
    if i > 0 {
      EveryFamilyIsAChain(run, i - 1);
      assert StepAt(run, i - 1);
      EventKeepsChains(run.worlds[i - 1], run.events[i - 1]);
    }
  }

  predicate Successor(refresh: map<Hash, Refresh>, a: Hash, b: Hash) {
    a in refresh && b in refresh && refresh[b].parent == Some(a) && refresh[b].family == refresh[a].family
  }

  predicate Unspent(refresh: map<Hash, Refresh>, family: Id, h: Hash) {
    h in FamilyRows(refresh, family) && refresh[h].consumedAt == None
  }

  predicate Root(refresh: map<Hash, Refresh>, family: Id, h: Hash) {
    h in FamilyRows(refresh, family) && refresh[h].parent == None
  }

  /** The same facts without naming the chain: a token is consumed exactly when it has a
      successor, and successor, tip and root are unique. */
  lemma ChainConsequences(refresh: map<Hash, Refresh>, a: Hash)
    requires ChainInv(refresh) && a in refresh
    ensures refresh[a].consumedAt.Some? <==> exists b :: Successor(refresh, a, b)
    ensures forall b, c :: Successor(refresh, a, b) && Successor(refresh, a, c) ==> b == c
    ensures exists t :: Unspent(refresh, refresh[a].family, t)
    ensures forall b, c :: Unspent(refresh, refresh[a].family, b) && Unspent(refresh, refresh[a].family, c) ==> b == c
    ensures exists r :: Root(refresh, refresh[a].family, r)
    ensures forall b, c :: Root(refresh, refresh[a].family, b) && Root(refresh, refresh[a].family, c) ==> b == c
  {
    var family := refresh[a].family;
    assert a in FamilyRows(refresh, family);
    var chain :| IsChain(refresh, family, chain);
    var k := IndexOf(refresh, family, chain, a);
    if refresh[a].consumedAt.Some? {
      assert Link(refresh, family, chain, k + 1);
      assert Successor(refresh, a, chain[k + 1]);
    }
    forall b | Successor(refresh, a, b) ensures k + 1 < |chain| && b == chain[k + 1] {
      var i := IndexOf(refresh, family, chain, b);
      assert Link(refresh, family, chain, i) && chain[i - 1] == a;
    }
    var tip := |chain| - 1;
    assert Link(refresh, family, chain, tip) && Unspent(refresh, family, chain[tip]);
    forall b | Unspent(refresh, family, b) ensures b == chain[tip] {
      UnconsumedIsTip(refresh, family, chain, b);
    }
    assert Link(refresh, family, chain, 0) && Root(refresh, family, chain[0]);
    forall b | Root(refresh, family, b) ensures b == chain[0] {
      var i := IndexOf(refresh, family, chain, b);
    }
  }

  ghost function IndexOf(refresh: map<Hash, Refresh>, family: Id, chain: seq<Hash>, h: Hash): (k: nat)
    requires IsChain(refresh, family, chain) && h in FamilyRows(refresh, family)
    ensures k < |chain| && chain[k] == h && Link(refresh, family, chain, k)
  {
    assert h in chain;
    var k :| 0 <= k < |chain| && chain[k] == h;
    k
  }

  // ----- Revocation is for good -----

  /** The family exists and every member is revoked. */
  ghost predicate Dead(refresh: map<Hash, Refresh>, family: Id) {
    && FamilyRows(refresh, family) != {}
    && forall h :: h in FamilyRows(refresh, family) ==> refresh[h].revokedAt.Some?
  }

  /** introspectToken on a refresh token. */
  predicate ReportedActive(db: Db, app: Id, token: Hash, now: Time) {
    && token in db.refresh
    && db.refresh[token].app == app
    && db.refresh[token].consumedAt == None && db.refresh[token].revokedAt == None
    && now < db.refresh[token].expires
  }

  lemma DeadStaysDead(w: World, e: Event, family: Id)
    requires Enabled(w, e) && Dead(w.db.refresh, family)
    ensures Dead(Apply(w, e).db.refresh, family)
    ensures FamilyRows(Apply(w, e).db.refresh, family) == FamilyRows(w.db.refresh, family)
    ensures e.Rotate? ==> w.db.refresh[e.token].family != family
  {
    var before, after := w.db.refresh, Apply(w, e).db.refresh;
    match e
    case Exchange(app, code, redirect, verifier, f, mint, started, at) =>
      assert f != family;
      assert FamilyRows(after, family) == FamilyRows(before, family);
    case Rotate(app, token, mint, started, at) =>
      assert before[token].family == family <==> token in FamilyRows(before, family);
      assert FamilyRows(after, family) == FamilyRows(before, family);
    case Revoke(f, rows, started) =>
      assert FamilyRows(after, family) == FamilyRows(before, family);
    case _ =>
      assert after == before;
  }

  /** Once every member of a family is revoked, in every continuation no member is
      refreshed, no member is reported active and no member is added. */
  lemma {:induction false} DeadForever(run: Run, family: Id, i: nat, j: nat)
    requires IsRun(run) && i <= j < |run.worlds|
    requires Dead(run.worlds[i].db.refresh, family)
    ensures Dead(run.worlds[j].db.refresh, family)
    ensures FamilyRows(run.worlds[j].db.refresh, family) == FamilyRows(run.worlds[i].db.refresh, family)
    ensures forall h, app, now :: h in FamilyRows(run.worlds[j].db.refresh, family) ==>
              !ReportedActive(run.worlds[j].db, app, h, now) && !RefreshUsable(run.worlds[j].db, app, h, now)
    ensures forall k :: i <= k < j && run.events[k].Rotate? ==>
              run.events[k].token in run.worlds[k].db.refresh &&
              run.worlds[k].db.refresh[run.events[k].token].family != family
    decreases j
  {
    if i < j {
      DeadForever(run, family, i, j - 1);
      assert StepAt(run, j - 1);
      DeadStaysDead(run.worlds[j - 1], run.events[j - 1], family);
    }
  }

  /** Revoking the whole family (what one atomic reuse or revocation does) kills it and
      leaves every other family, and every other table, as it was. */
  lemma AtomicRevokeKills(w: World, e: Event)
    requires Enabled(w, e) && Atomic(w, e) && e.Revoke? && e.rows != {}
    ensures Dead(Apply(w, e).db.refresh, e.family)
    ensures forall h :: h in w.db.refresh && w.db.refresh[h].family != e.family ==>
              h in Apply(w, e).db.refresh && Apply(w, e).db.refresh[h] == w.db.refresh[h]
    ensures Apply(w, e) == w.(db := w.db.(refresh := Apply(w, e).db.refresh))
  {
    var after := Apply(w, e).db.refresh;
    assert FamilyRows(after, e.family) == FamilyRows(w.db.refresh, e.family);
  }

  /** Introspection and the refresh grant agree, except at the instant of expiry: the
      grant tests "after", introspection "before". */
  lemma ActiveMatchesUsable(db: Db, app: Id, token: Hash, now: Time)
    ensures ReportedActive(db, app, token, now) ==> RefreshUsable(db, app, token, now)
    ensures RefreshUsable(db, app, token, now) && !ReportedActive(db, app, token, now) ==>
        now == db.refresh[token].expires
  {
  }

  /** A revocation that saw only the members present when its statement started: it
      reaches the whole family exactly when one of the rows it revoked is unconsumed
      at the time of commit. */
  lemma PartialRevokeKillsIff(refresh: map<Hash, Refresh>, family: Id, rows: set<Hash>)
    requires ChainInv(refresh)
    requires rows != {} && rows <= FamilyRows(refresh, family)
    requires forall h, p :: h in rows && refresh[h].parent == Some(p) ==> p in rows
    ensures rows == FamilyRows(refresh, family) <==> exists h :: h in rows && refresh[h].consumedAt == None
  {
    var member :| member in rows;
    assert refresh[member].family == family;
    var chain :| IsChain(refresh, family, chain);
    var tip := chain[|chain| - 1];
    assert Link(refresh, family, chain, |chain| - 1);
    assert tip in FamilyRows(refresh, family);
    if h :| h in rows && refresh[h].consumedAt == None {
      UnconsumedIsTip(refresh, family, chain, h);
      PrefixClosed(refresh, family, chain, rows, |chain| - 1);
      forall x | x in FamilyRows(refresh, family) ensures x in rows {
        var k := IndexOf(refresh, family, chain, x);
      }
    }
  }

  lemma {:induction false} PrefixClosed(refresh: map<Hash, Refresh>, family: Id, chain: seq<Hash>, rows: set<Hash>,
      top: nat)
    requires IsChain(refresh, family, chain) && top < |chain| && chain[top] in rows
    requires rows <= FamilyRows(refresh, family)
    requires forall h, p :: h in rows && refresh[h].parent == Some(p) ==> p in rows
    ensures forall k :: 0 <= k <= top ==> chain[k] in rows
    decreases top
  {
    if top > 0 {
      assert Link(refresh, family, chain, top);
      PrefixClosed(refresh, family, chain, rows, top - 1);
    }
  }
}
