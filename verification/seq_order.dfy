/** Where an element lands among the others, and when the order of a sequence is determined. */
module SeqOrder {
  import opened Basics
  import opened TreeKeys
  import opened SeqCrdt
  import opened SeqRuns

  // ---------------------------------------------------------------- keys in a run

  ghost predicate ProperPositions<I, V>(es: Entries<I, V>) {
    forall k {:trigger es[k]} :: k in es ==> Proper(es[k].position.value.frac)
  }

  ghost predicate AllProper<I, V>(w: World<I, V>) {
    forall p {:trigger w[p]} :: p in w ==> ProperPositions(w[p].entries)
  }

  /** A key minted between proper keys is proper. */
  lemma MintedIsProper<I, V>(r: Replica<I, V>, left: Option<I>, right: Option<I>)
    requires ProperPositions(r.entries)
    ensures Proper(PositionBetween(r, left, right).frac)
  {
    var lo, hi := FracOf(r, left), FracOf(r, right);
    MintProper(if lo.None? then [] else lo.value, hi, Turns(if lo.None? then [] else lo.value, hi));
  }

  lemma EditIsProper<I, V>(r: Replica<I, V>, e: Edit<I, V>, now: int)
    requires ProperPositions(r.entries)
    ensures ProperPositions(Apply(r, e, now).entries)
  {
    var r' := Apply(r, e, now);
    if e.InsertBetween? || e.MoveBetween? { MintedIsProper(r, e.left, e.right); }
    forall k | k in r'.entries ensures Proper(r'.entries[k].position.value.frac) {
      if k in r.entries { assert Proper(r.entries[k].position.value.frac); }
    }
  }

  lemma StepIsProper<I, V>(w: World<I, V>, s: Step<I, V>)
    requires AllProper(w) && Enabled(w, s)
    ensures AllProper(Take(w, s))
  {
    match s
    case Start(p) =>
    case Local(p, e, now) => EditIsProper(w[p], e, now);
    case Pull(p, q, order, now) =>
      forall k | k in JoinEntries(w[p].entries, w[q].entries)
        ensures Proper(JoinEntries(w[p].entries, w[q].entries)[k].position.value.frac)
      {
        if k in w[p].entries { assert Proper(w[p].entries[k].position.value.frac); }
        if k in w[q].entries { assert Proper(w[q].entries[k].position.value.frac); }
      }
    case Branch(p, q) =>
  }

  lemma {:induction false} RunIsProper<I, V>(steps: seq<Step<I, V>>, worlds: seq<World<I, V>>, n: nat)
    requires IsRun(steps, worlds) && n < |worlds|
    ensures AllProper(worlds[n])
  {
    if n > 0 {
      RunIsProper(steps, worlds, n - 1);
      StepIsProper(worlds[n - 1], steps[n - 1]);
    }
  }

  lemma ProperIsNotPadded(lo: Key, hi: Key)
    requires Proper(hi) && Before(lo, hi)
    ensures !Padded(lo, hi)
  {
  }

  /**
    In every run an element that is inserted or moved between two known elements gets a key strictly between theirs if
    and only if their own keys are in that order and differ; with one known neighbour it always gets a key on the right
    side of it.
   */
  lemma LandsBetween<I, V>(steps: seq<Step<I, V>>, worlds: seq<World<I, V>>, n: nat, p: nat, left: Option<I>,
          right: Option<I>)
    requires IsRun(steps, worlds) && n < |worlds| && p in worlds[n]
    ensures var r := worlds[n][p];
            var k, lo, hi := PositionBetween(r, left, right).frac, FracOf(r, left), FracOf(r, right);
            && Proper(k)
            && (lo.Some? && hi.Some? ==> (Before(lo.value, k) && Before(k, hi.value) <==> Before(lo.value, hi.value)))
            && (lo.Some? && hi.None? ==> Before(lo.value, k))
            && (lo.None? && hi.Some? ==> Before(k, hi.value))
  {
    RunIsProper(steps, worlds, n);
    var r := worlds[n][p];
    var lo, hi := FracOf(r, left), FracOf(r, right);
    assert ProperPositions(r.entries);
    MintedIsProper(r, left, right);
    var from := if lo.None? then [] else lo.value;
    if hi.Some? {
      KeyBetweenExact(from, hi.value);
      if Before(from, hi.value) { ProperIsNotPadded(from, hi.value); }
    } else {
      MintAbove(from);
    }
  }

  // ---------------------------------------------------------------- the order

  /** Position.Compare: by bytes, then by peer. */
  predicate Ahead(p: Position, q: Position) {
    Before(p.frac, q.frac) || (p.frac == q.frac && p.peer < q.peer)
  }

  lemma AheadIsOrder(p: Position, q: Position)
    ensures Ahead(p, q) || p == q || Ahead(q, p)
    ensures !(Ahead(p, q) && Ahead(q, p)) && !Ahead(p, p)
  {
    BeforeTotal(p.frac, q.frac);
    BeforeTotal(p.frac, p.frac);
  }

  function Live<I, V>(es: Entries<I, V>): set<I> {
    set k | k in es && !es[k].deleted.value
  }

  /** A result Order may return: the live elements, each once, none after one that is ahead of it. */
  ghost predicate Listing<I, V>(es: Entries<I, V>, ids: seq<I>) {
    Distinct(ids) && Members(ids) == Live(es) && Climbs(es, ids)
  }

  ghost predicate Climbs<I, V>(es: Entries<I, V>, ids: seq<I>) {
    forall i, j :: 0 <= i < j < |ids| && ids[i] in es && ids[j] in es ==>
        !Ahead(es[ids[j]].position.value, es[ids[i]].position.value)
  }

  ghost predicate OwnPlaces<I, V>(es: Entries<I, V>) {
    forall a, b :: a in Live(es) && b in Live(es) && es[a].position.value == es[b].position.value ==> a == b
  }

  lemma ListingHas<I, V>(es: Entries<I, V>, ids: seq<I>, i: nat)
    requires Members(ids) == Live(es) && i < |ids|
    ensures ids[i] in es && ids[i] in Live(es)
  {
    assert ids[i] in Members(ids);
  }

  function Swapped<T>(s: seq<T>, i: nat, j: nat): seq<T>
    requires i < j < |s|
  {
    s[i := s[j]][j := s[i]]
  }

  lemma SwapKeeps<T>(s: seq<T>, i: nat, j: nat)
    requires i < j < |s| && Distinct(s)
    ensures Distinct(Swapped(s, i, j)) && Members(Swapped(s, i, j)) == Members(s)
  {
    var t := Swapped(s, i, j);
    forall x | x in s ensures x in t {
      var m :| 0 <= m < |s| && s[m] == x;
      assert x == t[if m == i then j else if m == j then i else m];
    }
    forall x | x in t ensures x in s {
      var m :| 0 <= m < |t| && t[m] == x;
      assert x == s[if m == i then j else if m == j then i else m];
    }
  }

  /** Swapping two elements with one position gives another listing. */
  lemma SwapIsListing<I, V>(es: Entries<I, V>, ids: seq<I>, i: nat, j: nat)
    requires Listing(es, ids) && i < j < |ids| && ids[i] in es && ids[j] in es
             && es[ids[i]].position.value == es[ids[j]].position.value
    ensures Listing(es, Swapped(ids, i, j))
  {
    SwapKeeps(ids, i, j);
    SwapClimbs(es, ids, i, j);
  }

  lemma SwapClimbs<I, V>(es: Entries<I, V>, ids: seq<I>, i: nat, j: nat)
    requires Listing(es, ids) && i < j < |ids| && ids[i] in es && ids[j] in es
             && es[ids[i]].position.value == es[ids[j]].position.value
    ensures Climbs(es, Swapped(ids, i, j))
  {
    var other := Swapped(ids, i, j);
    forall k | 0 <= k < |ids| ensures ids[k] in es && other[k] in es
        && es[other[k]].position.value == es[ids[k]].position.value {
      ListingHas(es, ids, k);
    }
  }

  lemma {:induction false} OneListing<I, V>(es: Entries<I, V>, a: seq<I>, b: seq<I>)
    requires OwnPlaces(es) && Members(a) == Members(b) && Distinct(a) && Distinct(b) && Members(a) <= Live(es)
    requires Climbs(es, a) && Climbs(es, b)
    ensures a == b
    decreases |a|
  {
    assert |b| > 0 ==> b[0] in Members(b);
    if a != [] {
      assert a[0] in Members(a);
      SameFirst(es, a, b);
      RestMembers(a);
      RestMembers(b);
      OneListing(es, a[1..], b[1..]);
      assert a == [a[0]] + a[1..] && b == [b[0]] + b[1..];
    }
  }

  lemma RestMembers<T>(s: seq<T>)
    requires s != [] && Distinct(s)
    ensures Members(s[1..]) == Members(s) - {s[0]} && Distinct(s[1..])
  {
    assert forall x :: x in s <==> x == s[0] || x in s[1..];
  }

  lemma SameFirst<I, V>(es: Entries<I, V>, a: seq<I>, b: seq<I>)
    requires OwnPlaces(es) && Members(a) == Members(b) && Distinct(a) && Distinct(b) && Members(a) <= Live(es)
             && a != []
    requires Climbs(es, a) && Climbs(es, b)
    ensures b != [] && a[0] == b[0]
  {
    assert a[0] in Members(a) && a[0] in Members(b);
    var j :| 0 <= j < |b| && b[j] == a[0];
    assert b[0] in Members(b) && b[0] in Members(a);
    var i :| 0 <= i < |a| && a[i] == b[0];
    AheadIsOrder(es[a[0]].position.value, es[b[0]].position.value);
  }

  /** The order of a sequence is determined if and only if no two live elements have one position. */
  lemma OrderIsDetermined<I(!new), V>(es: Entries<I, V>, ids: seq<I>)
    requires Listing(es, ids)
    ensures (forall other {:trigger Listing(es, other)} :: Listing(es, other) ==> other == ids) <==> OwnPlaces(es)
  {
    if OwnPlaces(es) {
      forall other | Listing(es, other) ensures other == ids { OneListing(es, other, ids); }
    } else {
      var a, b :| a in Live(es) && b in Live(es) && es[a].position.value == es[b].position.value && a != b;
      assert a in Members(ids) && b in Members(ids);
      var i :| 0 <= i < |ids| && ids[i] == a;
      var j :| 0 <= j < |ids| && ids[j] == b;
      var lo, hi := if i < j then i else j, if i < j then j else i;
      SwapIsListing(es, ids, lo, hi);
      var other := Swapped(ids, lo, hi);
      assert other[lo] == ids[hi] != ids[lo];
    }
  }

  /**
    Two elements inserted by one replica between the same neighbours share a position, so their order is not
    determined.
   */
  lemma SamePlaceTwice<I, V>(r: Replica<I, V>, a: I, b: I, v: V, w: V, left: Option<I>, right: Option<I>, now: int,
          later: int)
    requires a !in r.entries && b !in r.entries && a != b && left != Some(a) && right != Some(a)
    ensures var r' := Apply(Apply(r, InsertBetween(a, v, left, right), now), InsertBetween(b, w, left, right), later);
            a in Live(r'.entries) && b in Live(r'.entries) && !OwnPlaces(r'.entries)
  {
    var r1 := Apply(r, InsertBetween(a, v, left, right), now);
    var r' := Apply(r1, InsertBetween(b, w, left, right), later);
    assert FracOf(r1, left) == FracOf(r, left) && FracOf(r1, right) == FracOf(r, right);
    assert r'.entries[a].position.value == r'.entries[b].position.value;
  }

  // ---------------------------------------------------------------- inserts that keep the order determined

  /** The neighbours of place `i` in a listing. */
  function LeftOf<I>(ids: seq<I>, i: nat): Option<I>
    requires i <= |ids|
  {
    if i == 0 then None else Some(ids[i - 1])
  }

  function RightOf<I>(ids: seq<I>, i: nat): Option<I>
    requires i <= |ids|
  {
    if i == |ids| then None else Some(ids[i])
  }

  /** The neighbours of place `i`, if there are two, have different keys. */
  ghost predicate Gap<I, V>(es: Entries<I, V>, ids: seq<I>, i: nat)
    requires i <= |ids|
  {
    0 < i < |ids| && ids[i - 1] in es && ids[i] in es ==>
        es[ids[i - 1]].position.value.frac != es[ids[i]].position.value.frac
  }

  lemma NotAfter(p: Position, q: Position, k: Key)
    requires !Ahead(q, p)
    ensures Before(q.frac, k) ==> Before(p.frac, k)
    ensures Before(k, p.frac) ==> Before(k, q.frac)
  {
    BeforeTotal(p.frac, q.frac);
    if Before(p.frac, q.frac) && Before(q.frac, k) { BeforeTrans(p.frac, q.frac, k); }
    if Before(p.frac, q.frac) && Before(k, p.frac) { BeforeTrans(k, p.frac, q.frac); }
  }

  /** The key minted for place `i` lies after everything listed before it and before everything listed after it. */
  lemma FitsPlace<I, V>(r: Replica<I, V>, ids: seq<I>, i: nat, j: nat)
    requires ProperPositions(r.entries) && Listing(r.entries, ids) && i <= |ids| && j < |ids| && Gap(r.entries, ids, i)
    ensures ids[j] in r.entries
    ensures var k, x := PositionBetween(r, LeftOf(ids, i), RightOf(ids, i)).frac, r.entries[ids[j]].position.value.frac;
            if j < i then Before(x, k) else Before(k, x)
  {
    ListingHas(r.entries, ids, j);
    if i > 0 { ListingHas(r.entries, ids, i - 1); }
    if i < |ids| { ListingHas(r.entries, ids, i); }
    var k := PositionBetween(r, LeftOf(ids, i), RightOf(ids, i)).frac;
    MintedFits(r, ids, i);
    if j < i {
      if j < i - 1 { NotAfter(r.entries[ids[j]].position.value, r.entries[ids[i - 1]].position.value, k); }
    } else if j > i {
      NotAfter(r.entries[ids[i]].position.value, r.entries[ids[j]].position.value, k);
    }
  }

  lemma MintedFits<I, V>(r: Replica<I, V>, ids: seq<I>, i: nat)
    requires ProperPositions(r.entries) && Listing(r.entries, ids) && i <= |ids| && Gap(r.entries, ids, i)
    requires (i > 0 ==> ids[i - 1] in r.entries) && (i < |ids| ==> ids[i] in r.entries)
    ensures var k := PositionBetween(r, LeftOf(ids, i), RightOf(ids, i)).frac;
            && (i > 0 ==> Before(r.entries[ids[i - 1]].position.value.frac, k))
            && (i < |ids| ==> Before(k, r.entries[ids[i]].position.value.frac))
  {
    var lo := if i > 0 then r.entries[ids[i - 1]].position.value.frac else [];
    if i < |ids| {
      var hi := r.entries[ids[i]].position.value.frac;
      assert Proper(hi);
      if i > 0 {
        AheadIsOrder(r.entries[ids[i - 1]].position.value, r.entries[ids[i]].position.value);
        BeforeTotal(lo, hi);
        assert !Ahead(r.entries[ids[i]].position.value, r.entries[ids[i - 1]].position.value);
      } else {
        BeforeTotal(lo, hi);
      }
      ProperIsNotPadded(lo, hi);
      KeyBetweenExact(lo, hi);
    } else {
      MintAbove(lo);
    }
  }

  /**
    In every run, inserting a new element between neighbours in the listing with different keys, or at either end, puts
    it exactly there, and keeps the order determined.
   */
  lemma InsertKeepsOwnPlaces<I, V>(steps: seq<Step<I, V>>, worlds: seq<World<I, V>>, n: nat, p: nat, ids: seq<I>,
          i: nat, id: I, v: V, now: int)
    requires IsRun(steps, worlds) && n < |worlds| && p in worlds[n] && id !in worlds[n][p].entries
    requires Listing(worlds[n][p].entries, ids) && i <= |ids| && Gap(worlds[n][p].entries, ids, i)
    ensures var es := Apply(worlds[n][p], InsertBetween(id, v, LeftOf(ids, i), RightOf(ids, i)), now).entries;
            && (OwnPlaces(worlds[n][p].entries) ==> OwnPlaces(es))
            && Climbs(es, ids[..i] + [id] + ids[i..])
  {
    RunIsProper(steps, worlds, n);
    var r := worlds[n][p];
    assert ProperPositions(r.entries);
    var es := Apply(r, InsertBetween(id, v, LeftOf(ids, i), RightOf(ids, i)), now).entries;
    forall j | 0 <= j < |ids|
      ensures ids[j] in r.entries && ids[j] != id && es[ids[j]] == r.entries[ids[j]]
      ensures if j < i then Before(es[ids[j]].position.value.frac, es[id].position.value.frac)
              else Before(es[id].position.value.frac, es[ids[j]].position.value.frac)
    {
      FitsPlace(r, ids, i, j);
    }
    NewPlace(r.entries, es, ids, i, id);
  }

  lemma NewPlace<I, V>(es: Entries<I, V>, es': Entries<I, V>, ids: seq<I>, i: nat, id: I)
    requires Listing(es, ids) && i <= |ids| && id !in es && id in es' && es' == es[id := es'[id]]
    requires forall j :: 0 <= j < |ids| ==>
               && ids[j] in es && ids[j] != id
               && if j < i then Before(es'[ids[j]].position.value.frac, es'[id].position.value.frac)
                  else Before(es'[id].position.value.frac, es'[ids[j]].position.value.frac)
    ensures (OwnPlaces(es) ==> OwnPlaces(es')) && Climbs(es', ids[..i] + [id] + ids[i..])
  {
    BeforeTotal(es'[id].position.value.frac, es'[id].position.value.frac);
    forall a | a in Live(es') && a != id ensures es'[a].position.value != es'[id].position.value {
      assert a in Live(es) && a in Members(ids);
      var j :| 0 <= j < |ids| && ids[j] == a;
    }
    var ids' := ids[..i] + [id] + ids[i..];
    forall x, y | 0 <= x < y < |ids'| ensures !Ahead(es'[ids'[y]].position.value, es'[ids'[x]].position.value) {
      if x == i {
        BeforeTotal(es'[ids'[x]].position.value.frac, es'[ids'[y]].position.value.frac);
      } else if y == i {
        BeforeTotal(es'[ids'[x]].position.value.frac, es'[ids'[y]].position.value.frac);
      } else {
        var a, b := if x < i then x else x - 1, if y < i then y else y - 1;
        assert ids'[x] == ids[a] && ids'[y] == ids[b];
      }
    }
  }
}
