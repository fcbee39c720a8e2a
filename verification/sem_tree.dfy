/**
  The memoized semantic tree: one guarded slot per node folds the node's value with the derived values of its
  children, on top of the synchronous graph.
 */
module SemTree {
  import opened SyncGraph
  import opened SyncInvariant
  import opened SyncRuns

  /** What a graph node of the tree holds; `stamp` stands for the identity of a boxed key list. */
  datatype Cell<V, D> = Value(v: V) | Keys(stamp: nat, order: seq<nat>) | Derived(d: D)

  datatype Spec<V> = Spec(id: string, value: V, children: seq<Spec<V>>)

  /** A tree node; its children are numbers of earlier rows. */
  datatype Row<V> = Row(id: string, value: V, kids: seq<nat>)

  // ---------------------------------------------------------------- build

  /** build: the children first, then the node, numbered from `base`. */
  function Build<V>(spec: Spec<V>, base: nat): (rows: seq<Row<V>>)
    ensures |rows| > 0
    decreases spec
  {
    var (rows, kids) := BuildAll(spec.children, base);
    rows + [Row(spec.id, spec.value, kids)]
  }

  /** The rows of a list of children, with the number of each child. */
  function BuildAll<V>(cs: seq<Spec<V>>, base: nat): (r: (seq<Row<V>>, seq<nat>))
    ensures |r.1| == |cs|
    decreases cs
  {
    if cs == [] then ([], [])
    else
      var first := Build(cs[0], base);
      var (rows, kids) := BuildAll(cs[1..], base + |first|);
      (first + rows, [base + |first| - 1] + kids)
  }

  predicate Listed<V>(rows: seq<Row<V>>, k: nat, c: nat) {
    k < |rows| && c in rows[k].kids
  }

  /** Every child is numbered before its parent, and has one parent. */
  ghost predicate Proper<V>(rows: seq<Row<V>>, base: nat) {
    && (forall k: nat, c: nat {:trigger Listed(rows, k, c)} :: Listed(rows, k, c) ==> base <= c < base + k)
    && (forall k: nat, l: nat, c: nat {:trigger Listed(rows, k, c), Listed(rows, l, c)} ::
        Listed(rows, k, c) && Listed(rows, l, c) ==> k == l)
  }

  /** `roots` are rows that no row lists. */
  ghost predicate Tops<V>(rows: seq<Row<V>>, base: nat, roots: seq<nat>) {
    && (forall c :: c in roots ==> base <= c < base + |rows|)
    && (forall k: nat, c: nat {:trigger Listed(rows, k, c)} :: Listed(rows, k, c) ==> c !in roots)
  }

  lemma ProperJoin<V>(a: seq<Row<V>>, b: seq<Row<V>>, base: nat, ra: seq<nat>, rb: seq<nat>)
    requires Proper(a, base) && Tops(a, base, ra) && Proper(b, base + |a|) && Tops(b, base + |a|, rb)
    ensures Proper(a + b, base) && Tops(a + b, base, ra + rb)
  {
    forall k: nat, c: nat | Listed(a + b, k, c)
      ensures if k < |a| then Listed(a, k, c) else Listed(b, k - |a|, c)
    {}
    forall k: nat, l: nat, c: nat | Listed(a + b, k, c) && Listed(a + b, l, c) ensures k == l {}
  }

  lemma ProperTop<V>(rows: seq<Row<V>>, base: nat, kids: seq<nat>, r: Row<V>)
    requires Proper(rows, base) && Tops(rows, base, kids) && r.kids == kids
    ensures Proper(rows + [r], base) && Tops(rows + [r], base, [base + |rows|])
  {
    forall k: nat, c: nat | Listed(rows + [r], k, c) ensures if k < |rows| then Listed(rows, k, c) else c in kids {}
  }

  /** What build makes is a tree whose last row is the root. */
  lemma {:induction false} BuildProper<V>(spec: Spec<V>, base: nat)
    ensures Proper(Build(spec, base), base) && Tops(Build(spec, base), base, [base + |Build(spec, base)| - 1])
    decreases spec
  {
    BuildAllProper(spec.children, base);
    var (rows, kids) := BuildAll(spec.children, base);
    ProperTop(rows, base, kids, Row(spec.id, spec.value, kids));
  }

  lemma {:induction false} BuildAllProper<V>(cs: seq<Spec<V>>, base: nat)
    ensures Proper(BuildAll(cs, base).0, base) && Tops(BuildAll(cs, base).0, base, BuildAll(cs, base).1)
    decreases cs
  {
    if cs != [] {
      var first := Build(cs[0], base);
      var (rows, kids) := BuildAll(cs[1..], base + |first|);
      BuildProper(cs[0], base);
      BuildAllProper(cs[1..], base + |first|);
      ProperJoin(first, rows, base, [base + |first| - 1], kids);
    }
  }

  // ---------------------------------------------------------------- the graph of a tree

  /** The graph nodes of tree node `k`. */
  function ValueOf(k: nat): Id { 3 * k }
  function KeysOf(k: nat): Id { 3 * k + 1 }
  function SlotOf(k: nat): Id { 3 * k + 2 }

  /** The listed children that have a slot. */
  function Kept(order: seq<nat>, kids: seq<nat>): (r: seq<nat>)
    ensures |r| <= |order| && forall c :: c in r <==> c in order && c in kids
  {
    if order == [] then []
    else if order[0] in kids then [order[0]] + Kept(order[1..], kids)
    else Kept(order[1..], kids)
  }

  function DerivedOf<V, D>(cells: seq<Cell<V, D>>): seq<D> {
    if cells == [] then []
    else DerivedOf(cells[..|cells| - 1]) + (if cells[|cells| - 1].Derived? then [cells[|cells| - 1].d] else [])
  }

  /** The compute of a node: its value, its key list, the slots of the children it lists, then the fold. */
  function Body<V, D>(rows: seq<Row<V>>, fold: (V, seq<D>) -> D, x: Id, hist: seq<Cell<V, D>>): Action<Cell<V, D>> {
    var k := x / 3;
    if x % 3 != 2 || k >= |rows| then Done(Keys(0, []))
    else if |hist| == 0 then Read(ValueOf(k))
    else if |hist| == 1 then Read(KeysOf(k))
    else if !hist[0].Value? || !hist[1].Keys? then Done(Keys(0, []))
    else
      var ks := Kept(hist[1].order, rows[k].kids);
      var j := |hist| - 2;
      if j < |ks| && j < |rows[k].kids| then Read(SlotOf(ks[j]))
      else Done(Derived(fold(hist[0].v, DerivedOf(hist[2..]))))
  }

  function Inputs<V>(rows: seq<Row<V>>, x: Id): set<Id> {
    if x % 3 != 2 || x / 3 >= |rows| then {}
    else {ValueOf(x / 3), KeysOf(x / 3)} + (set c | c in rows[x / 3].kids :: SlotOf(c))
  }

  /** The graph shape of a tree. */
  ghost predicate IsTree<V(!new), D(!new)>(rows: seq<Row<V>>, fold: (V, seq<D>) -> D, env: Env<Cell<V, D>>) {
    && Proper(rows, 0) && rows != [] && Enumerates(env) && !env.retest
    && (forall x: Id, hist {:trigger env.prog(x, hist)} :: env.prog(x, hist) == Body(rows, fold, x, hist))
    && (forall x: Id {:trigger env.inputs(x)} :: env.inputs(x) == Inputs(rows, x))
    && (forall x: Id {:trigger env.rank(x)} :: env.rank(x) == x)
    && (forall x: Id {:trigger env.limit(x)} :: env.limit(x) == if x / 3 < |rows| then 2 + |rows[x / 3].kids| else 0)
    && (forall x: Id {:trigger env.guarded(x)} :: env.guarded(x))
  }

  ghost predicate NodeOk<V, D>(rows: seq<Row<V>>, g: Graph<Cell<V, D>>, k: nat)
    requires k < |rows|
  {
    && ValueOf(k) in g.sources && g.sources[ValueOf(k)].Value?
    && KeysOf(k) in g.sources && g.sources[KeysOf(k)].Keys? && |g.sources[KeysOf(k)].order| <= |rows[k].kids|
    && SlotOf(k) in g.slots
  }

  ghost predicate HoldsTree<V, D>(rows: seq<Row<V>>, g: Graph<Cell<V, D>>) {
    && g.sources.Keys !! g.slots.Keys
    && (forall k {:trigger NodeOk(rows, g, k)} :: 0 <= k < |rows| ==> NodeOk(rows, g, k))
    && (forall x :: x in g.slots ==> x % 3 == 2 && x / 3 < |rows|)
  }

  lemma TreeIsWired<V(!new), D(!new)>(rows: seq<Row<V>>, fold: (V, seq<D>) -> D, env: Env<Cell<V, D>>,
          g: Graph<Cell<V, D>>)
    requires IsTree(rows, fold, env) && HoldsTree(rows, g)
    ensures Wired(env, g)
  {
    forall x, d | d in env.inputs(x) ensures env.rank(d) < env.rank(x) && (d in g.sources || d in g.slots) {
      InputsExist(rows, g, x, d);
    }
  }

  lemma InputsExist<V, D>(rows: seq<Row<V>>, g: Graph<Cell<V, D>>, x: Id, d: Id)
    requires Proper(rows, 0) && HoldsTree(rows, g) && d in Inputs(rows, x)
    ensures d < x && (d in g.sources || d in g.slots)
  {
    var k := x / 3;
    assert NodeOk(rows, g, k);
    if d != ValueOf(k) && d != KeysOf(k) {
      var c :| c in rows[k].kids && d == SlotOf(c);
      assert Listed(rows, k, c);
      assert NodeOk(rows, g, c);
    }
  }

  /** Two nodes that read the same graph node are one. */
  lemma OneReader<V(!new), D(!new)>(rows: seq<Row<V>>, fold: (V, seq<D>) -> D, env: Env<Cell<V, D>>, k: nat, x: Id,
          d: Id)
    requires IsTree(rows, fold, env) && k < |rows| && d in Inputs(rows, SlotOf(k)) && d in env.inputs(x)
    ensures x == SlotOf(k)
  {
    var l := x / 3;
    if d % 3 == 2 {
      var c := d / 3;
      assert Listed(rows, k, c) && Listed(rows, l, c);
    }
  }

  /** A node and one of its descendants are never read by the same slot. */
  lemma {:induction false} BelowDescends<V(!new), D(!new)>(rows: seq<Row<V>>, fold: (V, seq<D>) -> D,
          env: Env<Cell<V, D>>, r: Id, d: Id, k: nat)
    requires IsTree(rows, fold, env) && k < |rows| && d in Inputs(rows, SlotOf(k)) && r < SlotOf(k)
    ensures !Below(env, r, d)
    decreases r
  {
    if Below(env, r, d) {
      var e :| e in env.inputs(r) && env.rank(e) < env.rank(r) && (e == d || Below(env, e, d));
      if e == d {
        OneReader(rows, fold, env, k, r, d);
      } else {
        BelowDescends(rows, fold, env, e, d, k);
      }
    }
  }

  lemma TreeSlotIsSound<V(!new), D(!new)>(rows: seq<Row<V>>, fold: (V, seq<D>) -> D, env: Env<Cell<V, D>>, x: Id)
    requires IsTree(rows, fold, env)
    ensures SoundAt(env, x)
  {
    forall r, d | r in env.inputs(x) && d in env.inputs(x) ensures !Below(env, r, d) {
      var k := x / 3;
      if r % 3 == 2 { assert Listed(rows, k, r / 3); }
      BelowDescends(rows, fold, env, r, d, k);
    }
    IndependentReadsAreSound(env, x);
  }

  /**
    No slot of a tree reads a node and a descendant of it, so all its pulls are coherent although every slot is
    guarded.
   */
  lemma TreeIsSound<V(!new), D(!new)>(rows: seq<Row<V>>, fold: (V, seq<D>) -> D, env: Env<Cell<V, D>>,
          g: Graph<Cell<V, D>>)
    requires IsTree(rows, fold, env)
    ensures SoundSet(env, g, g.slots.Keys)
  {
    forall x | x in g.slots ensures SoundAt(env, x) { TreeSlotIsSound(rows, fold, env, x); }
  }
}
