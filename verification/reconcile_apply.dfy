/**
  Carrying out an edit list op by op, as SourceMap.Reconcile does: a new key is appended, wherever the target has it,
  and a moved key goes to its index in the target among the keys that are there at that moment.
 */
module ReconcileApply {
  import opened Basics

  // ---------------------------------------------------------------- positions

  /** The place of `k` in a list of distinct keys, or the length. */
  ghost function Idx<K>(s: seq<K>, k: K): (i: nat)
    ensures i <= |s| && (i < |s| ==> s[i] == k) && (i == |s| <==> k !in s)
  {
    if k in s then
      var i :| 0 <= i < |s| && s[i] == k;
      i
    else |s|
  }

  ghost predicate Ahead<K>(s: seq<K>, a: K, b: K) {
    Idx(s, a) < Idx(s, b) < |s|
  }

  lemma IdxOf<K>(s: seq<K>, i: nat)
    requires Distinct(s) && i < |s|
    ensures Idx(s, s[i]) == i
  {
  }

  lemma IdxAppend<K>(s: seq<K>, k: K, a: K)
    requires Distinct(s) && k !in s
    ensures Idx(s + [k], a) == if a in s then Idx(s, a) else if a == k then |s| else |s| + 1
  {
    if a in s { IdxOf(s + [k], Idx(s, a)); }
    IdxOf(s + [k], |s|);
  }

  /** `k` taken out. */
  ghost function Lifted<K>(s: seq<K>, k: K): seq<K> {
    if k in s then s[..Idx(s, k)] + s[Idx(s, k) + 1..] else s
  }

  /** moveTo: `k` goes to an index, clamped to the last one. */
  ghost function MovedTo<K>(s: seq<K>, k: K, to: nat): seq<K> {
    if k !in s then s
    else
      var w := Lifted(s, k);
      var i := if to > |w| then |w| else to;
      w[..i] + [k] + w[i..]
  }

  lemma LiftedIs<K>(s: seq<K>, k: K)
    requires Distinct(s) && k in s
    ensures var w := Lifted(s, k);
            |w| == |s| - 1 && Distinct(w) && k !in w && Members(w) == Members(s) - {k}
  {
    CutIs(s, Idx(s, k));
  }

  lemma CutIs<K>(s: seq<K>, p: nat)
    requires Distinct(s) && p < |s|
    ensures var w := s[..p] + s[p + 1..];
            && |w| == |s| - 1 && (forall i :: 0 <= i < |w| ==> w[i] == s[if i < p then i else i + 1])
            && Distinct(w) && s[p] !in w && Members(w) == Members(s) - {s[p]}
  {
    var w := s[..p] + s[p + 1..];
    assert forall i :: 0 <= i < |w| ==> w[i] == s[if i < p then i else i + 1];
    forall i | 0 <= i < |s| && i != p ensures s[i] in w { assert w[if i < p then i else i - 1] == s[i]; }
  }

  lemma IdxLifted<K>(s: seq<K>, k: K, a: K)
    requires Distinct(s) && k in s && a in s && a != k
    ensures Idx(Lifted(s, k), a) == Idx(s, a) - if Idx(s, k) < Idx(s, a) then 1 else 0
  {
    LiftedIs(s, k);
    var w, i, p := Lifted(s, k), Idx(s, a), Idx(s, k);
    IdxOf(w, if i < p then i else i - 1);
  }

  lemma InsertedIs<K>(w: seq<K>, k: K, i: nat)
    requires Distinct(w) && k !in w && i <= |w|
    ensures var s := w[..i] + [k] + w[i..]; Distinct(s) && Members(s) == Members(w) + {k} && Idx(s, k) == i
  {
    var s := w[..i] + [k] + w[i..];
    forall j | 0 <= j < |s| ensures s[j] == if j < i then w[j] else if j == i then k else w[j - 1] {}
    forall x | x in w ensures x in s { assert s[if Idx(w, x) < i then Idx(w, x) else Idx(w, x) + 1] == x; }
    IdxOf(s, i);
  }

  lemma IdxInserted<K>(w: seq<K>, k: K, i: nat, a: K)
    requires Distinct(w) && k !in w && i <= |w| && a in w
    ensures Idx(w[..i] + [k] + w[i..], a) == Idx(w, a) + if Idx(w, a) >= i then 1 else 0
  {
    InsertedIs(w, k, i);
    var s, p := w[..i] + [k] + w[i..], Idx(w, a);
    IdxOf(s, if p >= i then p + 1 else p);
  }

  /** A move leaves the others in their relative order. */
  lemma MoveKeeps<K>(s: seq<K>, k: K, to: nat, a: K, b: K)
    requires Distinct(s) && k in s && to < |s| && a in s && b in s && a != k && b != k
    ensures Ahead(MovedTo(s, k, to), a, b) <==> Ahead(s, a, b)
  {
    LiftedIs(s, k);
    assert a in Members(Lifted(s, k)) && b in Members(Lifted(s, k));
    LiftKeeps(s, k, a, b);
    InsertKeeps(Lifted(s, k), k, to, a, b);
  }

  lemma LiftKeeps<K>(s: seq<K>, k: K, a: K, b: K)
    requires Distinct(s) && k in s && a in s && b in s && a != k && b != k
    ensures Ahead(Lifted(s, k), a, b) <==> Ahead(s, a, b)
  {
    LiftedIs(s, k);
    IdxLifted(s, k, a);
    IdxLifted(s, k, b);
  }

  lemma InsertKeeps<K>(w: seq<K>, k: K, i: nat, a: K, b: K)
    requires Distinct(w) && k !in w && i <= |w| && a in w && b in w
    ensures Ahead(w[..i] + [k] + w[i..], a, b) <==> Ahead(w, a, b)
  {
    IdxInserted(w, k, i, a);
    IdxInserted(w, k, i, b);
  }

  lemma MovedIs<K>(s: seq<K>, k: K, to: nat)
    requires Distinct(s) && k in s && to < |s|
    ensures var r := MovedTo(s, k, to);
            Distinct(r) && Members(r) == Members(s) && |r| == |s| && Idx(r, k) == to && r[..to] == Lifted(s, k)[..to]
  {
    LiftedIs(s, k);
    InsertedIs(Lifted(s, k), k, to);
    assert Members(s) - {k} + {k} == Members(s);
  }

  // ---------------------------------------------------------------- counting

  lemma {:induction false} CountMembers<K>(s: seq<K>)
    requires Distinct(s)
    ensures |Members(s)| == |s|
  {
    if s != [] {
      var last := s[|s| - 1];
      CountMembers(s[..|s| - 1]);
      assert Members(s) == Members(s[..|s| - 1]) + {last};
    }
  }

  lemma {:induction false} SubsetCount<T>(a: set<T>, b: set<T>)
    requires a <= b
    ensures |a| <= |b| && (|a| == |b| ==> a == b)
    decreases |a|
  {
    if a == {} {
      assert |b| == 0 ==> b == {};
    } else {
      var x :| x in a;
      SubsetCount(a - {x}, b - {x});
      if |a| == |b| { assert a == a - {x} + {x} && b == b - {x} + {x}; }
    }
  }

  /** Distinct keys that all occur in a distinct list fit in it, and fill it if there are as many. */
  lemma Fits<K>(a: seq<K>, b: set<K>)
    requires Distinct(a) && Members(a) <= b
    ensures |a| <= |b| && (|a| == |b| ==> Members(a) == b)
  {
    CountMembers(a);
    SubsetCount(Members(a), b);
  }

  // ---------------------------------------------------------------- the walk

  /** `start` is what the removes leave, `fixed` the keys that are not moved. */
  datatype Plan<!K(==)> = Plan(start: seq<K>, target: seq<K>, fixed: set<K>)

  ghost predicate PlanOk<K>(p: Plan<K>) {
    && Distinct(p.start) && Distinct(p.target) && Members(p.start) <= Members(p.target) && p.fixed <= Members(p.start)
    && (forall i, j {:trigger Ahead(p.start, p.target[i], p.target[j])} ::
          0 <= i < j < |p.target| && p.target[i] in p.fixed && p.target[j] in p.fixed ==>
            Ahead(p.start, p.target[i], p.target[j]))
  }

  ghost predicate IsNew<K>(p: Plan<K>, i: nat)
    requires i < |p.target|
  {
    p.target[i] !in p.start
  }

  ghost predicate IsFixed<K>(p: Plan<K>, i: nat)
    requires i < |p.target|
  {
    p.target[i] in p.fixed
  }

  ghost predicate Moves<K>(p: Plan<K>, i: nat)
    requires i < |p.target|
  {
    p.target[i] in p.start && p.target[i] !in p.fixed
  }

  ghost function Turn<K>(p: Plan<K>, s: seq<K>, t: nat): seq<K>
    requires t < |p.target|
  {
    if IsNew(p, t) then s + [p.target[t]] else if IsFixed(p, t) then s else MovedTo(s, p.target[t], t)
  }

  /** `w[n]` is the order once the first `n` keys of the target have been dealt with. */
  ghost predicate Walk<K>(p: Plan<K>, w: seq<seq<K>>) {
    && PlanOk(p) && |w| == |p.target| + 1 && w[0] == p.start
    && forall n {:trigger Turn(p, w[n], n)} :: 0 <= n < |p.target| ==> w[n + 1] == Turn(p, w[n], n)
  }

  lemma {:induction false} AfterShape<K>(p: Plan<K>, w: seq<seq<K>>, n: nat)
    requires Walk(p, w) && n <= |p.target|
    ensures Distinct(w[n]) && Members(w[n]) == Members(p.start) + Members(p.target[..n])
    ensures n < |p.target| && !IsNew(p, n) ==> n < |w[n]| && p.target[n] in w[n]
    ensures n < |p.target| && IsNew(p, n) ==> p.target[n] !in w[n]
  {
    if n > 0 {
      AfterShape(p, w, n - 1);
      assert p.target[..n] == p.target[..n - 1] + [p.target[n - 1]];
      assert Members(p.target[..n]) == Members(p.target[..n - 1]) + {p.target[n - 1]};
      assert w[n - 1 + 1] == Turn(p, w[n - 1], n - 1);
      TurnShape(p, w[n - 1], n - 1);
    } else {
      assert p.target[..0] == [];
    }
    if n < |p.target| { NextShape(p, w[n], n); }
  }

  lemma TurnShape<K>(p: Plan<K>, s: seq<K>, t: nat)
    requires t < |p.target| && Distinct(s) && (IsNew(p, t) ==> p.target[t] !in s)
    requires !IsNew(p, t) ==> t < |s| && p.target[t] in s
    ensures Distinct(Turn(p, s, t)) && Members(Turn(p, s, t)) == Members(s) + {p.target[t]}
  {
    if Moves(p, t) { MovedIs(s, p.target[t], t); }
  }

  lemma NextShape<K>(p: Plan<K>, s: seq<K>, n: nat)
    requires PlanOk(p) && n < |p.target| && Distinct(s) && Members(s) == Members(p.start) + Members(p.target[..n])
    ensures !IsNew(p, n) ==> n < |s| && p.target[n] in s
    ensures IsNew(p, n) ==> p.target[n] !in s
  {
    var k := p.target[n];
    assert k !in p.target[..n];
    assert k in s <==> k in Members(s);
    if !IsNew(p, n) {
      assert k in Members(p.start);
      assert p.target[..n + 1] == p.target[..n] + [k];
      assert Members(p.target[..n + 1]) <= Members(s);
      CountMembers(s);
      Fits(p.target[..n + 1], Members(s));
    }
  }

  /** A turn leaves the keys it is not about in their relative order. */
  lemma TurnKeeps<K>(p: Plan<K>, w: seq<seq<K>>, n: nat, a: K, b: K)
    requires Walk(p, w) && n < |p.target| && a in w[n] && b in w[n]
    requires IsFixed(p, n) || (a != p.target[n] && b != p.target[n])
    ensures Ahead(w[n + 1], a, b) <==> Ahead(w[n], a, b)
  {
    assert w[n + 1] == Turn(p, w[n], n);
    AfterShape(p, w, n);
    var s, k := w[n], p.target[n];
    if IsNew(p, n) {
      IdxAppend(s, k, a);
      IdxAppend(s, k, b);
    } else if Moves(p, n) {
      MoveKeeps(s, k, n, a, b);
    }
  }

  // ---------------------------------------------------------------- settled keys

  /** The key will not be touched any more. */
  ghost predicate Settled<K>(p: Plan<K>, n: nat, i: nat)
    requires i < |p.target|
  {
    i < n || IsFixed(p, i)
  }

  lemma SettledIsThere<K>(p: Plan<K>, w: seq<seq<K>>, n: nat, i: nat)
    requires Walk(p, w) && n <= |p.target| && i < |p.target| && (Settled(p, n, i) || Moves(p, i))
    ensures p.target[i] in w[n]
  {
    AfterShape(p, w, n);
    assert i < n ==> p.target[..n][i] == p.target[i];
    assert p.target[i] in Members(p.start) + Members(p.target[..n]);
  }

  /** The settled keys are in the order of the target. */
  ghost predicate Good<K>(p: Plan<K>, w: seq<seq<K>>, n: nat)
    requires n <= |p.target| && n < |w|
  {
    forall i, j {:trigger Ahead(w[n], p.target[i], p.target[j])} ::
      0 <= i < j < |p.target| && Settled(p, n, i) && Settled(p, n, j) ==> Ahead(w[n], p.target[i], p.target[j])
  }

  /** What is out of order stays so. */
  lemma GoodBack<K>(p: Plan<K>, w: seq<seq<K>>, n: nat)
    requires Walk(p, w) && n < |p.target| && Good(p, w, n + 1)
    ensures Good(p, w, n)
  {
    forall i, j | 0 <= i < j < |p.target| && Settled(p, n, i) && Settled(p, n, j)
      ensures Ahead(w[n], p.target[i], p.target[j])
    {
      assert Settled(p, n + 1, i) && Settled(p, n + 1, j);
      SettledIsThere(p, w, n, i);
      SettledIsThere(p, w, n, j);
      TurnKeeps(p, w, n, p.target[i], p.target[j]);
    }
  }

  /** After a turn only the pairs with its key are open. */
  lemma GoodNext<K>(p: Plan<K>, w: seq<seq<K>>, n: nat)
    requires Walk(p, w) && n < |p.target| && Good(p, w, n)
    requires forall i :: 0 <= i < n ==> Ahead(w[n + 1], p.target[i], p.target[n])
    requires forall j :: n < j < |p.target| && IsFixed(p, j) ==> Ahead(w[n + 1], p.target[n], p.target[j])
    ensures Good(p, w, n + 1)
  {
    forall i, j | 0 <= i < j < |p.target| && Settled(p, n + 1, i) && Settled(p, n + 1, j)
      ensures Ahead(w[n + 1], p.target[i], p.target[j])
    {
      if i != n && j != n {
        SettledIsThere(p, w, n, i);
        SettledIsThere(p, w, n, j);
        TurnKeeps(p, w, n, p.target[i], p.target[j]);
      }
    }
  }

  lemma GoodFixed<K>(p: Plan<K>, w: seq<seq<K>>, n: nat)
    requires Walk(p, w) && n < |p.target| && IsFixed(p, n) && Good(p, w, n)
    ensures Good(p, w, n + 1)
  {
    assert w[n + 1] == Turn(p, w[n], n);
    assert Settled(p, n, n);
    forall i | 0 <= i < n ensures Ahead(w[n + 1], p.target[i], p.target[n]) { assert Settled(p, n, i); }
    forall j | n < j < |p.target| && IsFixed(p, j) ensures Ahead(w[n + 1], p.target[n], p.target[j]) {
      assert Settled(p, n, j);
    }
    GoodNext(p, w, n);
  }

  /** A new key is appended: right exactly when no fixed key follows it in the target. */
  lemma GoodNew<K>(p: Plan<K>, w: seq<seq<K>>, n: nat)
    requires Walk(p, w) && n < |p.target| && IsNew(p, n) && Good(p, w, n)
    ensures Good(p, w, n + 1) <==> forall j :: n < j < |p.target| ==> !IsFixed(p, j)
  {
    assert w[n + 1] == Turn(p, w[n], n);
    AfterShape(p, w, n);
    var s, k := w[n], p.target[n];
    IdxAppend(s, k, k);
    forall i | 0 <= i < n ensures Ahead(w[n + 1], p.target[i], k) {
      SettledIsThere(p, w, n, i);
      IdxAppend(s, k, p.target[i]);
    }
    forall j | n < j < |p.target| && IsFixed(p, j) ensures !Ahead(w[n + 1], k, p.target[j]) {
      SettledIsThere(p, w, n, j);
      IdxAppend(s, k, p.target[j]);
    }
    if Good(p, w, n + 1) {
      forall j | n < j < |p.target| ensures !IsFixed(p, j) {
        if IsFixed(p, j) { assert Settled(p, n + 1, n) && Settled(p, n + 1, j); }
      }
    } else if forall j :: n < j < |p.target| ==> !IsFixed(p, j) {
      GoodNext(p, w, n);
    }
  }

  // ---------------------------------------------------------------- a moved key

  /** No key that is still to be moved stands before one that is dealt with. */
  ghost predicate Clear<K>(p: Plan<K>, w: seq<seq<K>>, n: nat)
    requires n < |p.target| && n < |w|
  {
    forall i, u {:trigger Ahead(w[n], p.target[u], p.target[i])} ::
      0 <= i < n < u < |p.target| && Moves(p, u) ==> !Ahead(w[n], p.target[u], p.target[i])
  }

  /** Then the keys dealt with are the first `n`. */
  lemma ClearPrefix<K>(p: Plan<K>, w: seq<seq<K>>, n: nat, i: nat)
    requires Walk(p, w) && i < n < |p.target| && Moves(p, n) && Good(p, w, n) && Clear(p, w, n)
    ensures Idx(Lifted(w[n], p.target[n]), p.target[i]) < n
  {
    AfterShape(p, w, n);
    var s, k, x := w[n], p.target[n], p.target[i];
    var rest := Lifted(s, k);
    LiftedIs(s, k);
    SettledIsThere(p, w, n, i);
    assert x in Members(rest);
    var q := Idx(rest, x);
    forall e | e in rest[..q] ensures e in Members(p.target[..n]) - {x} {
      assert e in Members(rest);
      var y :| 0 <= y < q && rest[y] == e;
      IdxOf(rest, y);
      IdxLifted(s, k, e);
      IdxLifted(s, k, x);
      assert Ahead(s, e, x);
      OnlyDealtWith(p, w, n, i, e);
    }
    assert Members(rest[..q]) <= Members(p.target[..n]) - {x};
    CountMembers(p.target[..n]);
    assert x in Members(p.target[..n]) by { assert p.target[..n][i] == x; }
    Fits(rest[..q], Members(p.target[..n]) - {x});
  }

  /** What stands before a key that is dealt with is dealt with, or is the key to move. */
  lemma OnlyDealtWith<K>(p: Plan<K>, w: seq<seq<K>>, n: nat, i: nat, e: K)
    requires Walk(p, w) && i < n < |p.target| && Good(p, w, n) && Clear(p, w, n)
    requires e != p.target[n] && Ahead(w[n], e, p.target[i])
    ensures e in Members(p.target[..n])
  {
    AfterShape(p, w, n);
    assert e in Members(w[n]);
    assert e in Members(p.target);
    var j :| 0 <= j < |p.target| && p.target[j] == e;
    if j < n {
      assert p.target[..n][j] == e;
    } else {
      NotAheadYet(p, w, n, i, j);
    }
  }

  lemma NotAheadYet<K>(p: Plan<K>, w: seq<seq<K>>, n: nat, i: nat, j: nat)
    requires Walk(p, w) && i < n < j < |p.target| && Good(p, w, n) && Clear(p, w, n)
    ensures !Ahead(w[n], p.target[j], p.target[i])
  {
    if IsFixed(p, j) {
      assert Ahead(w[n], p.target[i], p.target[j]);
    } else if IsNew(p, j) {
      AfterShape(p, w, n);
      assert p.target[j] !in Members(p.target[..n]);
      assert p.target[j] !in Members(w[n]);
    }
  }

  /** The first `n` keys after a good move to `n`. */
  lemma MovedPrefix<K>(p: Plan<K>, w: seq<seq<K>>, n: nat)
    requires Walk(p, w) && n < |p.target| && Moves(p, n) && Good(p, w, n + 1)
    ensures var s := w[n + 1];
            Distinct(s) && n < |s| && s[n] == p.target[n] && Members(s[..n]) == Members(p.target[..n])
  {
    assert w[n + 1] == Turn(p, w[n], n);
    AfterShape(p, w, n);
    MovedIs(w[n], p.target[n], n);
    var s := w[n + 1];
    forall x | x in p.target[..n] ensures x in s[..n] {
      var i :| 0 <= i < n && p.target[i] == x;
      assert Settled(p, n + 1, i) && Settled(p, n + 1, n);
      assert Ahead(s, x, p.target[n]);
      assert s[..n][Idx(s, x)] == x;
    }
    CountMembers(s[..n]);
    Fits(p.target[..n], Members(s[..n]));
  }

  /** So a key that is still to be moved stands behind them all. */
  lemma BehindMoved<K>(p: Plan<K>, w: seq<seq<K>>, n: nat, i: nat, u: nat)
    requires Walk(p, w) && i <= n < u < |p.target| && Moves(p, n) && Moves(p, u) && Good(p, w, n + 1)
    ensures !Ahead(w[n + 1], p.target[u], p.target[i])
  {
    MovedPrefix(p, w, n);
    var s := w[n + 1];
    SettledIsThere(p, w, n + 1, u);
    NotEarly(p, s, n, u);
    if i < n {
      assert p.target[..n][i] == p.target[i];
      assert p.target[i] in Members(s[..n]);
      var y :| 0 <= y < n && s[y] == p.target[i];
      IdxOf(s, y);
    } else {
      IdxOf(s, n);
    }
  }

  /** A later key is not among the first `n`. */
  lemma NotEarly<K>(p: Plan<K>, s: seq<K>, n: nat, j: nat)
    requires Distinct(p.target) && n <= j < |p.target| && n <= |s| && Members(s[..n]) == Members(p.target[..n])
    ensures Idx(s, p.target[j]) >= n
  {
    var x := p.target[j];
    assert x !in Members(p.target[..n]);
    forall y | 0 <= y < n ensures s[y] != x { assert s[..n][y] in Members(s[..n]); }
  }

  lemma GoodMoved<K>(p: Plan<K>, w: seq<seq<K>>, n: nat)
    requires Walk(p, w) && n < |p.target| && Moves(p, n) && Good(p, w, n)
    ensures Good(p, w, n + 1) <==> Clear(p, w, n)
  {
    if Good(p, w, n + 1) {
      forall i, u | 0 <= i < n < u < |p.target| && Moves(p, u) ensures !Ahead(w[n], p.target[u], p.target[i]) {
        BehindMoved(p, w, n, i, u);
        SettledIsThere(p, w, n, i);
        SettledIsThere(p, w, n, u);
        TurnKeeps(p, w, n, p.target[u], p.target[i]);
      }
    }
    if Clear(p, w, n) { ClearIsGood(p, w, n); }
  }

  lemma ClearIsGood<K>(p: Plan<K>, w: seq<seq<K>>, n: nat)
    requires Walk(p, w) && n < |p.target| && Moves(p, n) && Good(p, w, n) && Clear(p, w, n)
    ensures Good(p, w, n + 1)
  {
    assert w[n + 1] == Turn(p, w[n], n);
    AfterShape(p, w, n);
    var s, k := w[n], p.target[n];
    var rest := Lifted(s, k);
    LiftedIs(s, k);
    MovedIs(s, k, n);
    forall i | 0 <= i < n ensures Ahead(w[n + 1], p.target[i], k) && p.target[i] in rest[..n] {
      ClearPrefix(p, w, n, i);
      SettledIsThere(p, w, n, i);
      assert p.target[i] in Members(rest);
      IdxInserted(rest, k, n, p.target[i]);
      assert rest[..n][Idx(rest, p.target[i])] == p.target[i];
    }
    assert Members(p.target[..n]) <= Members(rest[..n]);
    CountMembers(rest[..n]);
    Fits(p.target[..n], Members(rest[..n]));
    forall j | n < j < |p.target| && IsFixed(p, j) ensures Ahead(w[n + 1], k, p.target[j]) {
      SettledIsThere(p, w, n, j);
      assert p.target[j] in Members(rest);
      NotEarly(p, rest, n, j);
      IdxInserted(rest, k, n, p.target[j]);
    }
    GoodNext(p, w, n);
  }

  // ---------------------------------------------------------------- where the keys still to be moved stand

  /** Keys of the start that have not been moved yet are in their first order. */
  lemma {:induction false} Untouched<K>(p: Plan<K>, w: seq<seq<K>>, n: nat, a: nat, b: nat)
    requires Walk(p, w) && n <= |p.target| && a < |p.target| && b < |p.target|
    requires IsFixed(p, a) || (Moves(p, a) && a >= n)
    requires IsFixed(p, b) || (Moves(p, b) && b >= n)
    ensures Ahead(w[n], p.target[a], p.target[b]) <==> Ahead(p.start, p.target[a], p.target[b])
    decreases n
  {
    if n > 0 {
      Untouched(p, w, n - 1, a, b);
      SettledIsThere(p, w, n - 1, a);
      SettledIsThere(p, w, n - 1, b);
      NotItsTurn(p, n - 1, a);
      NotItsTurn(p, n - 1, b);
      TurnKeeps(p, w, n - 1, p.target[a], p.target[b]);
    }
  }

  lemma NotItsTurn<K>(p: Plan<K>, n: nat, a: nat)
    requires Distinct(p.target) && n < |p.target| && a < |p.target| && (IsFixed(p, a) || a > n)
    ensures IsFixed(p, n) || p.target[a] != p.target[n]
  {
  }

  lemma {:induction false} WhereMoversStand<K>(p: Plan<K>, w: seq<seq<K>>, n: nat, u: nat, i: nat)
    requires Walk(p, w) && i < n <= u < |p.target| && Moves(p, u) && Good(p, w, n)
    ensures Ahead(w[n], p.target[u], p.target[i]) <==>
            IsNew(p, i) || (IsFixed(p, i) && Ahead(p.start, p.target[u], p.target[i]))
    decreases n
  {
    GoodBack(p, w, n - 1);
    if IsFixed(p, i) {
      Untouched(p, w, n, u, i);
    } else if i < n - 1 {
      WhereMoversStand(p, w, n - 1, u, i);
      SettledIsThere(p, w, n - 1, u);
      SettledIsThere(p, w, n - 1, i);
      TurnKeeps(p, w, n - 1, p.target[u], p.target[i]);
    } else if IsNew(p, i) {
      assert w[i + 1] == Turn(p, w[i], i);
      AfterShape(p, w, i);
      SettledIsThere(p, w, i, u);
      IdxAppend(w[i], p.target[i], p.target[i]);
      IdxAppend(w[i], p.target[i], p.target[u]);
    } else {
      BehindMoved(p, w, i, i, u);
    }
  }

  // ---------------------------------------------------------------- the exact condition

  /** No fixed key follows new key `s` in the target. */
  ghost predicate AppendsWell<K>(p: Plan<K>, s: nat)
    requires s < |p.target|
  {
    IsNew(p, s) ==> forall f :: s < f < |p.target| ==> !IsFixed(p, f)
  }

  /**
    A key that is moved before another one: what precedes it in the target is itself moved, or is fixed and stood before
    the other one from the start.
   */
  ghost predicate MovesWell<K>(p: Plan<K>, t: nat)
    requires t < |p.target|
  {
    Moves(p, t) ==>
      forall s, u {:trigger Moves(p, s), Moves(p, u)} :: 0 <= s < t < u < |p.target| && Moves(p, u) ==>
        Moves(p, s) || (IsFixed(p, s) && Ahead(p.start, p.target[s], p.target[u]))
  }

  ghost predicate WellUpTo<K>(p: Plan<K>, n: nat)
    requires n <= |p.target|
  {
    forall t :: 0 <= t < n ==> AppendsWell(p, t) && MovesWell(p, t)
  }

  lemma ClearIsWell<K>(p: Plan<K>, w: seq<seq<K>>, n: nat)
    requires Walk(p, w) && n < |p.target| && Moves(p, n) && Good(p, w, n)
    ensures Clear(p, w, n) <==> MovesWell(p, n)
  {
    forall s, u | 0 <= s < n < u < |p.target| && Moves(p, u)
      ensures !Ahead(w[n], p.target[u], p.target[s]) <==>
              Moves(p, s) || (IsFixed(p, s) && Ahead(p.start, p.target[s], p.target[u]))
    {
      WhereMoversStand(p, w, n, u, s);
      if IsFixed(p, s) { EitherAhead(p.start, p.target[s], p.target[u]); }
    }
  }

  lemma EitherAhead<K>(s: seq<K>, a: K, b: K)
    requires a in s && b in s && a != b
    ensures Ahead(s, a, b) <==> !Ahead(s, b, a)
  {
  }

  lemma {:induction false} GoodIsWell<K>(p: Plan<K>, w: seq<seq<K>>, n: nat)
    requires Walk(p, w) && n <= |p.target|
    ensures Good(p, w, n) <==> WellUpTo(p, n)
  {
    if n == 0 {
      forall i, j | 0 <= i < j < |p.target| && Settled(p, 0, i) && Settled(p, 0, j)
        ensures Ahead(p.start, p.target[i], p.target[j])
      {
        assert IsFixed(p, i) && IsFixed(p, j);
      }
    } else {
      GoodIsWell(p, w, n - 1);
      WellNext(p, n - 1);
      if Good(p, w, n) { GoodBack(p, w, n - 1); }
      if Good(p, w, n - 1) { GoodTurn(p, w, n - 1); }
    }
  }

  lemma WellNext<K>(p: Plan<K>, n: nat)
    requires n < |p.target|
    ensures WellUpTo(p, n + 1) <==> WellUpTo(p, n) && AppendsWell(p, n) && MovesWell(p, n)
  {
  }

  lemma GoodTurn<K>(p: Plan<K>, w: seq<seq<K>>, n: nat)
    requires Walk(p, w) && n < |p.target| && Good(p, w, n)
    ensures Good(p, w, n + 1) <==> AppendsWell(p, n) && MovesWell(p, n)
  {
    if IsNew(p, n) {
      GoodNew(p, w, n);
    } else if IsFixed(p, n) {
      GoodFixed(p, w, n);
    } else {
      GoodMoved(p, w, n);
      ClearIsWell(p, w, n);
    }
  }

  lemma {:induction false} SameOrder<K>(a: seq<K>, b: seq<K>)
    requires Distinct(a) && Distinct(b) && Members(a) == Members(b)
    requires forall i, j :: 0 <= i < j < |a| ==> Ahead(b, a[i], a[j])
    ensures a == b
  {
    CountMembers(a);
    CountMembers(b);
    forall i | 0 <= i < |a| ensures Idx(b, a[i]) >= i { AtLeast(a, b, i); }
    forall i | 0 <= i < |a| ensures a[i] == b[i] {
      AtMost(a, b, i);
      assert a[i] in Members(a) && a[i] in b;
    }
  }

  lemma {:induction false} AtLeast<K>(a: seq<K>, b: seq<K>, i: nat)
    requires i < |a| && forall i, j :: 0 <= i < j < |a| ==> Ahead(b, a[i], a[j])
    ensures Idx(b, a[i]) >= i
    decreases i
  {
    if i > 0 {
      AtLeast(a, b, i - 1);
      assert Ahead(b, a[i - 1], a[i]);
    }
  }

  lemma {:induction false} AtMost<K>(a: seq<K>, b: seq<K>, i: nat)
    requires i < |a| == |b| && Members(a) == Members(b) && forall i, j :: 0 <= i < j < |a| ==> Ahead(b, a[i], a[j])
    ensures Idx(b, a[i]) <= i
    decreases |a| - i
  {
    if i < |a| - 1 {
      AtMost(a, b, i + 1);
      assert Ahead(b, a[i], a[i + 1]);
    } else {
      assert a[i] in Members(a) && a[i] in b;
    }
  }

  /** The walk ends with the target if and only if every turn appends or moves well. */
  lemma WalkReachesTarget<K>(p: Plan<K>, w: seq<seq<K>>)
    requires Walk(p, w)
    ensures w[|p.target|] == p.target <==> WellUpTo(p, |p.target|)
  {
    var n := |p.target|;
    AfterShape(p, w, n);
    GoodIsWell(p, w, n);
    assert p.target[..n] == p.target;
    assert Members(w[n]) == Members(p.target);
    if Good(p, w, n) {
      forall i, j | 0 <= i < j < n ensures Ahead(w[n], p.target[i], p.target[j]) {
        assert Settled(p, n, i) && Settled(p, n, j);
      }
      SameOrder(p.target, w[n]);
    }
    if w[n] == p.target {
      forall i, j | 0 <= i < j < n ensures Ahead(w[n], p.target[i], p.target[j]) {
        IdxOf(p.target, i);
        IdxOf(p.target, j);
      }
    }
  }
}
