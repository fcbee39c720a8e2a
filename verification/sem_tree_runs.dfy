/** What a semantic tree returns after any run of edits, and how much an edit reruns. */
module SemTreeRuns {
  import opened Basics
  import opened SyncGraph
  import opened SyncInvariant
  import opened SyncRuns
  import opened SyncChain
  import opened SemTree

  /** The children a node lists now. */
  function KidsOf<V, D>(rows: seq<Row<V>>, g: Graph<Cell<V, D>>, k: nat): (r: seq<nat>)
    requires k < |rows| && NodeOk(rows, g, k)
    ensures |r| <= |rows[k].kids|
  {
    Kept(g.sources[KeysOf(k)].order, rows[k].kids)
  }

  predicate Under(ks: seq<nat>, k: nat) {
    forall i :: 0 <= i < |ks| ==> ks[i] < k
  }

  lemma KidsUnder<V, D>(rows: seq<Row<V>>, g: Graph<Cell<V, D>>, k: nat)
    requires Proper(rows, 0) && k < |rows| && NodeOk(rows, g, k)
    ensures Under(KidsOf(rows, g, k), k)
  {
    var ks := KidsOf(rows, g, k);
    forall i | 0 <= i < |ks| ensures ks[i] < k {
      assert ks[i] in ks;
      assert Listed(rows, k, ks[i]);
    }
  }

  /** The recursive fold of the tree as it stands. */
  ghost function FoldAt<V, D>(rows: seq<Row<V>>, fold: (V, seq<D>) -> D, g: Graph<Cell<V, D>>, k: nat): D
    requires Proper(rows, 0) && HoldsTree(rows, g) && k < |rows|
    decreases k, 0
  {
    assert NodeOk(rows, g, k);
    assert Under(KidsOf(rows, g, k), k) by { KidsUnder(rows, g, k); }
    fold(g.sources[ValueOf(k)].v, FoldAll(rows, fold, g, k, KidsOf(rows, g, k)))
  }

  ghost function FoldAll<V, D>(rows: seq<Row<V>>, fold: (V, seq<D>) -> D, g: Graph<Cell<V, D>>, k: nat,
          ks: seq<nat>): (r: seq<D>)
    requires Proper(rows, 0) && HoldsTree(rows, g) && k < |rows| && Under(ks, k)
    ensures |r| == |ks|
    decreases k, 0, |ks|
  {
    if ks == [] then []
    else FoldAll(rows, fold, g, k, ks[..|ks| - 1]) + [FoldAt(rows, fold, g, ks[|ks| - 1])]
  }

  // ---------------------------------------------------------------- from-scratch values are folds

  function Wrapped<V, D>(ds: seq<D>): (r: seq<Cell<V, D>>)
    ensures |r| == |ds| && DerivedOf(r) == ds
  {
    if ds == [] then [] else
      var r := Wrapped(ds[..|ds| - 1]) + [Derived(ds[|ds| - 1])];
      assert r[..|r| - 1] == Wrapped(ds[..|ds| - 1]);
      r
  }

  /** What the compute of node `k` has read when it has `j` children. */
  ghost function Reads<V, D>(rows: seq<Row<V>>, fold: (V, seq<D>) -> D, g: Graph<Cell<V, D>>, k: nat,
          j: nat): (hist: seq<Cell<V, D>>)
    requires Proper(rows, 0) && HoldsTree(rows, g) && k < |rows| && NodeOk(rows, g, k) && j <= |KidsOf(rows, g, k)|
  {
    KidsUnder(rows, g, k);
    [g.sources[ValueOf(k)], g.sources[KeysOf(k)]] + Wrapped(FoldAll(rows, fold, g, k, KidsOf(rows, g, k)[..j]))
  }

  lemma BodyReads<V, D>(rows: seq<Row<V>>, fold: (V, seq<D>) -> D, g: Graph<Cell<V, D>>, k: nat, j: nat)
    requires Proper(rows, 0) && HoldsTree(rows, g) && k < |rows| && NodeOk(rows, g, k) && j <= |KidsOf(rows, g, k)|
    ensures Body(rows, fold, SlotOf(k), Reads(rows, fold, g, k, j)) ==
            if j < |KidsOf(rows, g, k)| then Read(SlotOf(KidsOf(rows, g, k)[j]))
            else Done(Derived(FoldAt(rows, fold, g, k)))
  {
    KidsUnder(rows, g, k);
    var ks := KidsOf(rows, g, k);
    var ds := FoldAll(rows, fold, g, k, ks[..j]);
    assert Reads(rows, fold, g, k, j)[2..] == Wrapped<V, D>(ds);
    if j == |ks| { assert ks[..j] == ks; }
  }

  lemma ReadsGrow<V, D>(rows: seq<Row<V>>, fold: (V, seq<D>) -> D, g: Graph<Cell<V, D>>, k: nat, j: nat)
    requires Proper(rows, 0) && HoldsTree(rows, g) && k < |rows| && NodeOk(rows, g, k) && j < |KidsOf(rows, g, k)|
             && KidsOf(rows, g, k)[j] < k
    ensures Reads(rows, fold, g, k, j + 1) == Reads(rows, fold, g, k, j)
            + [Derived(FoldAt(rows, fold, g, KidsOf(rows, g, k)[j]))]
  {
    KidsUnder(rows, g, k);
    var ks := KidsOf(rows, g, k);
    assert ks[..j + 1][..j] == ks[..j];
    var ds1 := FoldAll(rows, fold, g, k, ks[..j + 1]);
    assert ds1[..j] == FoldAll(rows, fold, g, k, ks[..j]);
  }

  lemma {:induction false} EvalIsFold<V(!new), D(!new)>(rows: seq<Row<V>>, fold: (V, seq<D>) -> D, env: Env<Cell<V, D>>,
          g: Graph<Cell<V, D>>, k: nat)
    requires IsTree(rows, fold, env) && HoldsTree(rows, g) && Wired(env, g) && k < |rows| && SlotOf(k) in g.slots
    ensures EvalNode(env, g, SlotOf(k)) == Derived(FoldAt(rows, fold, g, k))
    decreases k, 1, 0
  {
    assert NodeOk(rows, g, k);
    EvalReads(rows, fold, env, g, k, 0);
    assert Reads(rows, fold, g, k, 0) == [g.sources[ValueOf(k)], g.sources[KeysOf(k)]];
    TwoSteps(env, g, SlotOf(k), ValueOf(k), KeysOf(k));
  }

  /** A compute that reads two sources first. */
  lemma TwoSteps<V(!new)>(env: Env<V>, g: Graph<V>, x: Id, a: Id, b: Id)
    requires Wired(env, g) && x in g.slots && a in g.sources && b in g.sources
    requires env.prog(x, []) == Read(a) && env.prog(x, [g.sources[a]]) == Read(b)
    ensures EvalNode(env, g, x) == EvalFrom(env, g, x, [g.sources[a], g.sources[b]])
  {
    EvalStep(env, g, x, []);
    EvalStep(env, g, x, [g.sources[a]]);
    assert [] + [g.sources[a]] == [g.sources[a]];
    assert [g.sources[a]] + [g.sources[b]] == [g.sources[a], g.sources[b]];
  }

  lemma EvalStep<V(!new)>(env: Env<V>, g: Graph<V>, x: Id, hist: seq<V>)
    requires Wired(env, g) && x in g.slots && env.prog(x, hist).Read?
    ensures EvalFrom(env, g, x, hist) == EvalFrom(env, g, x, hist + [EvalNode(env, g, env.prog(x, hist).dep)])
  {
  }

  lemma {:induction false} EvalReads<V(!new), D(!new)>(rows: seq<Row<V>>, fold: (V, seq<D>) -> D, env: Env<Cell<V, D>>,
          g: Graph<Cell<V, D>>, k: nat, j: nat)
    requires IsTree(rows, fold, env) && HoldsTree(rows, g) && Wired(env, g) && k < |rows| && NodeOk(rows, g, k)
             && j <= |KidsOf(rows, g, k)|
    ensures EvalFrom(env, g, SlotOf(k), Reads(rows, fold, g, k, j)) == Derived(FoldAt(rows, fold, g, k))
    decreases k, 0, |KidsOf(rows, g, k)| - j
  {
    BodyReads(rows, fold, g, k, j);
    var ks := KidsOf(rows, g, k);
    if j < |ks| {
      KidsUnder(rows, g, k);
      assert NodeOk(rows, g, ks[j]);
      EvalIsFold(rows, fold, env, g, ks[j]);
      EvalReads(rows, fold, env, g, k, j + 1);
      ReadsGrow(rows, fold, g, k, j);
      EvalStep(env, g, SlotOf(k), Reads(rows, fold, g, k, j));
    }
  }

  // ---------------------------------------------------------------- the API

  datatype Edit<V> = SetValue(id: string, value: V) | RemoveChild(parent: string, child: string) | NodeValue(id: string)

  /** The node map lookup; a spec uses every id once. */
  function Find<V>(rows: seq<Row<V>>, id: string): (r: Option<nat>)
    ensures r.Some? ==> r.value < |rows| && rows[r.value].id == id
    ensures r.None? ==> forall k :: 0 <= k < |rows| ==> rows[k].id != id
  {
    if rows == [] then None
    else if rows[|rows| - 1].id == id then Some(|rows| - 1)
    else Find(rows[..|rows| - 1], id)
  }

  /** The key list without a child. */
  function Without<V>(rows: seq<Row<V>>, order: seq<nat>, child: string): (r: seq<nat>)
    ensures |r| <= |order|
    ensures forall c :: c in r <==> c in order && !(c < |rows| && rows[c].id == child)
  {
    if order == [] then []
    else if order[0] < |rows| && rows[order[0]].id == child then Without(rows, order[1..], child)
    else [order[0]] + Without(rows, order[1..], child)
  }

  /** The graph step behind an API call; an unknown id is an error and changes nothing. */
  function GraphStep<V, D>(rows: seq<Row<V>>, g: Graph<Cell<V, D>>, e: Edit<V>): Option<Step<Cell<V, D>>> {
    match e
    case SetValue(id, v) =>
      (match Find(rows, id) case None => None case Some(k) => Some(Set(ValueOf(k), Value(v))))
    case RemoveChild(p, c) =>
      (match Find(rows, p)
       case None => None
       case Some(k) =>
         if KeysOf(k) in g.sources && g.sources[KeysOf(k)].Keys? then
           Some(Set(KeysOf(k), Keys(g.sources[KeysOf(k)].stamp + 1, Without(rows, g.sources[KeysOf(k)].order, c))))
         else None)
    case NodeValue(id) =>
      (match Find(rows, id) case None => None case Some(k) => Some(Get(SlotOf(k))))
  }

  ghost predicate TreeOk<V(!new), D(!new)>(rows: seq<Row<V>>, env: Env<Cell<V, D>>, g: Graph<Cell<V, D>>) {
    Quiescent(env, g) && HoldsTree(rows, g) && g.depth == 0
  }

  function Apply<V(==,!new), D(==,!new)>(rows: seq<Row<V>>, env: Env<Cell<V, D>>, g: Graph<Cell<V, D>>,
          e: Edit<V>): Graph<Cell<V, D>>
    requires TreeOk(rows, env, g)
  {
    match GraphStep(rows, g, e)
    case None => g
    case Some(step) => (EditEnabled(rows, g, e); Take(env, g, step))
  }

  lemma EditEnabled<V, D>(rows: seq<Row<V>>, g: Graph<Cell<V, D>>, e: Edit<V>)
    requires HoldsTree(rows, g)
    ensures GraphStep(rows, g, e).Some? ==> Enabled(g, GraphStep(rows, g, e).value)
  {
    if GraphStep(rows, g, e).Some? {
      var id := match e case SetValue(id, _) => id case RemoveChild(p, _) => p case NodeValue(id) => id;
      assert NodeOk(rows, g, Find(rows, id).value);
    }
  }

  lemma WriteShape<V>(env: Env<V>, g: Graph<V>, a: Id, v: V)
    requires Tidy(env, g) && Enumerates(env) && a in g.sources
    ensures var g' := Write(env, g, a, v);
            g'.sources == g.sources[a := v] && g'.slots.Keys == g.slots.Keys && g'.depth == g.depth
  {
    if g.sources[a] == v { assert g.sources[a := v] == g.sources; }
  }

  lemma ApplyOk<V(!new), D(!new)>(rows: seq<Row<V>>, fold: (V, seq<D>) -> D, env: Env<Cell<V, D>>, g: Graph<Cell<V, D>>,
          e: Edit<V>)
    requires IsTree(rows, fold, env) && TreeOk(rows, env, g)
    ensures TreeOk(rows, env, Apply(rows, env, g, e))
  {
    var step := GraphStep(rows, g, e);
    if step.Some? {
      EditEnabled(rows, g, e);
      StepOk(env, g, step.value);
      ApplyHolds(rows, env, g, e, Apply(rows, env, g, e));
    }
  }

  lemma ApplyHolds<V(!new), D(!new)>(rows: seq<Row<V>>, env: Env<Cell<V, D>>, g: Graph<Cell<V, D>>, e: Edit<V>,
          g': Graph<Cell<V, D>>)
    requires TreeOk(rows, env, g) && GraphStep(rows, g, e).Some? && g' == Apply(rows, env, g, e)
    ensures HoldsTree(rows, g') && g'.depth == 0
  {
    var step := GraphStep(rows, g, e).value;
    EditEnabled(rows, g, e);
    if step.Set? { WriteShape(env, g, step.id, step.value); }
    forall k | 0 <= k < |rows| ensures NodeOk(rows, g', k) { assert NodeOk(rows, g, k); }
  }

  function FirstCell<V, D>(rows: seq<Row<V>>, x: nat): Cell<V, D>
    requires x < 3 * |rows|
  {
    if x % 3 == 0 then Value(rows[x / 3].value) else Keys(0, rows[x / 3].kids)
  }

  /** The graph right after build. */
  function Initial<V, D>(rows: seq<Row<V>>): (g: Graph<Cell<V, D>>) {
    Graph(map x: nat | x < 3 * |rows| && x % 3 != 2 :: FirstCell(rows, x),
          map x: nat | x < 3 * |rows| && x % 3 == 2 :: Slot(None, false, false, false, {}, []),
          map[], 0, {}, 0, [])
  }

  lemma InitialHolds<V, D>(rows: seq<Row<V>>, g: Graph<Cell<V, D>>)
    requires g == Initial(rows)
    ensures HoldsTree(rows, g)
  {
    forall k | 0 <= k < |rows| ensures NodeOk(rows, g, k) {
      var a: nat, b: nat, c: nat := 3 * k, 3 * k + 1, 3 * k + 2;
      assert a % 3 == 0 && b % 3 == 1 && c % 3 == 2;
      assert a in g.sources && b in g.sources && c in g.slots;
      assert g.sources[a] == FirstCell(rows, a) && g.sources[b] == FirstCell(rows, b);
    }
  }

  /** The states of a tree under a sequence of calls. */
  ghost predicate IsTreeRun<V(!new), D(!new)>(rows: seq<Row<V>>, env: Env<Cell<V, D>>, edits: seq<Edit<V>>,
          states: seq<Graph<Cell<V, D>>>) {
    && |states| == |edits| + 1 && states[0] == Initial(rows)
    && forall i {:trigger edits[i]} :: 0 <= i < |edits| && TreeOk(rows, env, states[i]) ==>
        states[i + 1] == Apply(rows, env, states[i], edits[i])
  }

  lemma {:induction false} TreeRunOk<V(!new), D(!new)>(rows: seq<Row<V>>, fold: (V, seq<D>) -> D, env: Env<Cell<V, D>>,
          edits: seq<Edit<V>>, states: seq<Graph<Cell<V, D>>>, n: nat)
    requires IsTree(rows, fold, env) && IsTreeRun(rows, env, edits, states) && n < |states|
    ensures TreeOk(rows, env, states[n])
  {
    if n == 0 {
      InitialHolds(rows, states[0]);
      TreeIsWired(rows, fold, env, states[0]);
      forall y | y in states[0].slots ensures SlotOk(env, states[0], y) {}
    } else {
      TreeRunOk(rows, fold, env, edits, states, n - 1);
      ApplyOk(rows, fold, env, states[n - 1], edits[n - 1]);
      assert states[n - 1 + 1] == Apply(rows, env, states[n - 1], edits[n - 1]);
    }
  }

  /** After any run of edits and reads, reading a node gives the recursive fold of the tree as it stands. */
  lemma NodeValueIsFold<V(!new), D(!new)>(rows: seq<Row<V>>, fold: (V, seq<D>) -> D, env: Env<Cell<V, D>>,
          edits: seq<Edit<V>>, states: seq<Graph<Cell<V, D>>>, n: nat, k: nat)
    requires IsTree(rows, fold, env) && IsTreeRun(rows, env, edits, states) && n < |states| && k < |rows|
    ensures TreeOk(rows, env, states[n]) && SlotOf(k) in states[n].slots
    ensures Refresh(env, states[n], SlotOf(k)).0.slots[SlotOf(k)].value
            == Some(Derived(FoldAt(rows, fold, states[n], k)))
  {
    TreeRunOk(rows, fold, env, edits, states, n);
    FoldIsPulled(rows, fold, env, states[n], k);
  }

  lemma FoldIsPulled<V(!new), D(!new)>(rows: seq<Row<V>>, fold: (V, seq<D>) -> D, env: Env<Cell<V, D>>,
          g: Graph<Cell<V, D>>, k: nat)
    requires IsTree(rows, fold, env) && TreeOk(rows, env, g) && k < |rows|
    ensures SlotOf(k) in g.slots && Refresh(env, g, SlotOf(k)).0.slots[SlotOf(k)].value
            == Some(Derived(FoldAt(rows, fold, g, k)))
  {
    TreeIsSound(rows, fold, env, g);
    assert NodeOk(rows, g, k);
    PullIsEval(env, g, g.slots.Keys, SlotOf(k));
    EvalIsFold(rows, fold, env, g, k);
  }

  // ---------------------------------------------------------------- how much an edit reruns

  /** Read `i` of the run behind a current slot. */
  lemma TraceRead<V(!new), D(!new)>(rows: seq<Row<V>>, fold: (V, seq<D>) -> D, env: Env<Cell<V, D>>,
          g: Graph<Cell<V, D>>, x: Id, i: nat)
    requires IsTree(rows, fold, env) && TreeOk(rows, env, g) && x in g.slots && g.slots[x].cached
    requires i < |g.slots[x].trace|
    ensures var t := g.slots[x].trace;
            var a := Body(rows, fold, x, t[..i]);
            a.Read? && a.dep in g.slots[x].deps && (a.dep in g.sources ==> g.sources[a.dep] == t[i])
  {
    TreeSlotIsSound(rows, fold, env, x);
    assert SlotOk(env, g, x);
    assert ReadOk(env, g, x, g.slots[x].trace, i);
  }

  lemma TraceStart<V(!new), D(!new)>(rows: seq<Row<V>>, fold: (V, seq<D>) -> D, env: Env<Cell<V, D>>,
          g: Graph<Cell<V, D>>, k: nat)
    requires IsTree(rows, fold, env) && TreeOk(rows, env, g) && k < |rows| && NodeOk(rows, g, k)
             && g.slots[SlotOf(k)].cached
    ensures var x := SlotOf(k);
            var t := g.slots[x].trace;
            && |t| >= 2 && t[0] == g.sources[ValueOf(k)] && t[1] == g.sources[KeysOf(k)]
            && |t| - 2 >= |KidsOf(rows, g, k)|
            && ValueOf(k) in g.slots[x].deps
  {
    var x := SlotOf(k);
    var t := g.slots[x].trace;
    TreeSlotIsSound(rows, fold, env, x);
    assert SlotOk(env, g, x);
    DoneBody(rows, fold, k, t);
    FirstReads(rows, fold, env, g, k);
  }

  lemma FirstReads<V(!new), D(!new)>(rows: seq<Row<V>>, fold: (V, seq<D>) -> D, env: Env<Cell<V, D>>,
          g: Graph<Cell<V, D>>, k: nat)
    requires IsTree(rows, fold, env) && TreeOk(rows, env, g) && k < |rows| && NodeOk(rows, g, k)
             && g.slots[SlotOf(k)].cached
    requires |g.slots[SlotOf(k)].trace| >= 2
    ensures var t := g.slots[SlotOf(k)].trace;
            t[0] == g.sources[ValueOf(k)] && t[1] == g.sources[KeysOf(k)] && ValueOf(k) in g.slots[SlotOf(k)].deps
  {
    var t := g.slots[SlotOf(k)].trace;
    assert t[..0] == [] && t[..1] == [t[0]];
    TraceRead(rows, fold, env, g, SlotOf(k), 0);
    TraceRead(rows, fold, env, g, SlotOf(k), 1);
  }

  /** A compute that is done has read at least its value and its keys, and then every child it lists. */
  lemma DoneBody<V, D>(rows: seq<Row<V>>, fold: (V, seq<D>) -> D, k: nat, t: seq<Cell<V, D>>)
    requires k < |rows| && Body(rows, fold, SlotOf(k), t).Done?
    ensures |t| >= 2
    ensures t[0].Value? && t[1].Keys? && |Kept(t[1].order, rows[k].kids)| <= |rows[k].kids| ==>
            |t| - 2 >= |Kept(t[1].order, rows[k].kids)|
  {
  }

  /** A current node depends on the children it lists. */
  lemma KidsRead<V(!new), D(!new)>(rows: seq<Row<V>>, fold: (V, seq<D>) -> D, env: Env<Cell<V, D>>,
          g: Graph<Cell<V, D>>, k: nat, c: nat)
    requires IsTree(rows, fold, env) && TreeOk(rows, env, g) && k < |rows| && NodeOk(rows, g, k)
             && g.slots[SlotOf(k)].cached
    requires c in KidsOf(rows, g, k)
    ensures SlotOf(c) in g.slots && SlotOf(c) in g.slots[SlotOf(k)].deps && g.slots[SlotOf(c)].cached
  {
    var x := SlotOf(k);
    var t := g.slots[x].trace;
    var ks := KidsOf(rows, g, k);
    var i :| 0 <= i < |ks| && ks[i] == c;
    TraceStart(rows, fold, env, g, k);
    TraceRead(rows, fold, env, g, x, 2 + i);
    BodyAt(rows, fold, g, k, t[..2 + i], i);
    ChildSlot(rows, g, k, c);
    assert Edge(g, SlotOf(c), x);
  }

  lemma ChildSlot<V, D>(rows: seq<Row<V>>, g: Graph<Cell<V, D>>, k: nat, c: nat)
    requires Proper(rows, 0) && HoldsTree(rows, g) && k < |rows| && NodeOk(rows, g, k) && c in KidsOf(rows, g, k)
    ensures c < |rows| && SlotOf(c) in g.slots
  {
    assert Listed(rows, k, c);
    assert NodeOk(rows, g, c);
  }

  /** After its value, its key list and `i` children, a node reads child `i`. */
  lemma BodyAt<V, D>(rows: seq<Row<V>>, fold: (V, seq<D>) -> D, g: Graph<Cell<V, D>>, k: nat, hist: seq<Cell<V, D>>,
          i: nat)
    requires k < |rows| && NodeOk(rows, g, k) && i < |KidsOf(rows, g, k)| && |hist| == 2 + i
    requires hist[0] == g.sources[ValueOf(k)] && hist[1] == g.sources[KeysOf(k)]
    ensures Body(rows, fold, SlotOf(k), hist) == Read(SlotOf(KidsOf(rows, g, k)[i]))
  {
  }

  /** `path` climbs from a node to the root along current child lists. */
  ghost predicate Climbs<V, D>(rows: seq<Row<V>>, g: Graph<Cell<V, D>>, path: seq<nat>) {
    && path != [] && path[|path| - 1] == |rows| - 1 && HoldsTree(rows, g)
    && (forall j {:trigger path[j]} :: 0 <= j < |path| ==> path[j] < |rows|)
    && (forall j {:trigger path[j]} :: 0 <= j < |path| - 1 && NodeOk(rows, g, path[j + 1]) ==>
        path[j] in KidsOf(rows, g, path[j + 1]))
  }

  function SlotPath(path: seq<nat>): (r: seq<Id>)
    ensures |r| == |path|
  {
    seq(|path|, j requires 0 <= j < |path| => SlotOf(path[j]))
  }

  function ReadySet<V, D>(g: Graph<Cell<V, D>>, path: seq<nat>, j: nat): set<Id>
    requires j < |path|
  {
    if SlotOf(path[j]) !in g.slots then {}
    else set d | d in g.slots[SlotOf(path[j])].deps && d in g.slots && d !in Before(SlotPath(path), j)
  }

  function ReadySets<V, D>(g: Graph<Cell<V, D>>, path: seq<nat>): (r: seq<set<Id>>)
    ensures |r| == |path|
  {
    seq(|path|, j requires 0 <= j < |path| => ReadySet(g, path, j))
  }

  lemma {:induction false} ClimbIsCurrent<V(!new), D(!new)>(rows: seq<Row<V>>, fold: (V, seq<D>) -> D,
          env: Env<Cell<V, D>>, g: Graph<Cell<V, D>>, path: seq<nat>, j: nat)
    requires IsTree(rows, fold, env) && TreeOk(rows, env, g) && Climbs(rows, g, path) && j < |path|
    requires SlotOf(|rows| - 1) in g.slots && g.slots[SlotOf(|rows| - 1)].cached
    ensures NodeOk(rows, g, path[j]) && g.slots[SlotOf(path[j])].cached
    ensures j + 1 < |path| ==>
            path[j] < path[j + 1] && Listed(rows, path[j + 1], path[j])
            && SlotOf(path[j]) in g.slots[SlotOf(path[j + 1])].deps
    decreases |path| - j
  {
    assert NodeOk(rows, g, path[j]);
    if j + 1 < |path| {
      ClimbIsCurrent(rows, fold, env, g, path, j + 1);
      KidsRead(rows, fold, env, g, path[j + 1], path[j]);
      assert Listed(rows, path[j + 1], path[j]);
    }
  }

  lemma OnlyReader<V(!new), D(!new)>(rows: seq<Row<V>>, fold: (V, seq<D>) -> D, env: Env<Cell<V, D>>,
          g: Graph<Cell<V, D>>, k: nat, d: Id, x: Id)
    requires IsTree(rows, fold, env) && TreeOk(rows, env, g) && k < |rows| && d in Inputs(rows, SlotOf(k))
             && Edge(g, d, x)
    ensures x == SlotOf(k)
  {
    assert d in g.dependents && x in g.dependents[d];
    assert x in g.slots && d in g.slots[x].deps;
    OneReader(rows, fold, env, k, x, d);
  }

  lemma RootHasNoReader<V(!new), D(!new)>(rows: seq<Row<V>>, fold: (V, seq<D>) -> D, env: Env<Cell<V, D>>,
          g: Graph<Cell<V, D>>, x: Id)
    requires IsTree(rows, fold, env) && TreeOk(rows, env, g)
    ensures !Edge(g, SlotOf(|rows| - 1), x)
  {
    var d := SlotOf(|rows| - 1);
    if Edge(g, d, x) {
      assert d in g.dependents && x in g.dependents[d];
      assert x in g.slots && d in g.slots[x].deps;
      RootUnlisted(rows, x);
    }
  }

  lemma RootUnlisted<V>(rows: seq<Row<V>>, x: Id)
    requires Proper(rows, 0) && rows != []
    ensures SlotOf(|rows| - 1) !in Inputs(rows, x)
  {
    assert !Listed(rows, x / 3, |rows| - 1);
  }

  lemma ClimbDependents<V(!new), D(!new)>(rows: seq<Row<V>>, fold: (V, seq<D>) -> D, env: Env<Cell<V, D>>,
          g: Graph<Cell<V, D>>, path: seq<nat>, j: nat)
    requires IsTree(rows, fold, env) && TreeOk(rows, env, g) && Climbs(rows, g, path) && j < |path|
    requires SlotOf(|rows| - 1) in g.slots && g.slots[SlotOf(|rows| - 1)].cached
    ensures Of(g.dependents, SlotOf(path[j])) == if j + 1 < |path| then {SlotOf(path[j + 1])} else {}
  {
    var d := SlotOf(path[j]);
    ClimbIsCurrent(rows, fold, env, g, path, j);
    if j + 1 < |path| {
      var p := path[j + 1];
      ClimbIsCurrent(rows, fold, env, g, path, j + 1);
      assert Edge(g, d, SlotOf(p));
      forall x | Edge(g, d, x) ensures x == SlotOf(p) { OnlyReader(rows, fold, env, g, p, d, x); }
      assert forall x :: x in Of(g.dependents, d) <==> Edge(g, d, x);
    } else {
      forall x ensures x !in Of(g.dependents, d) { RootHasNoReader(rows, fold, env, g, x); assert !Edge(g, d, x); }
    }
  }

  lemma ValueDependents<V(!new), D(!new)>(rows: seq<Row<V>>, fold: (V, seq<D>) -> D, env: Env<Cell<V, D>>,
          g: Graph<Cell<V, D>>, k: nat)
    requires IsTree(rows, fold, env) && TreeOk(rows, env, g) && k < |rows| && NodeOk(rows, g, k)
             && g.slots[SlotOf(k)].cached
    ensures Of(g.dependents, ValueOf(k)) == {SlotOf(k)}
  {
    var d := ValueOf(k);
    TraceStart(rows, fold, env, g, k);
    assert Edge(g, d, SlotOf(k));
    forall x | Edge(g, d, x) ensures x == SlotOf(k) { OnlyReader(rows, fold, env, g, k, d, x); }
    assert forall x :: x in Of(g.dependents, d) <==> Edge(g, d, x);
  }

  /** A node whose key list is left alone reads its current children again. */
  lemma ReadsKids<V(!new), D(!new)>(rows: seq<Row<V>>, fold: (V, seq<D>) -> D, env: Env<Cell<V, D>>,
          g: Graph<Cell<V, D>>, w: Graph<Cell<V, D>>, k: nat, ready: set<Id>)
    requires IsTree(rows, fold, env) && k < |rows| && NodeOk(rows, g, k) && NodeOk(rows, w, k)
    requires w.sources[KeysOf(k)] == g.sources[KeysOf(k)] && forall c :: c in KidsOf(rows, g, k) ==> SlotOf(c) in ready
    ensures ReadsOnly(env, w, SlotOf(k), ready)
  {
    var x := SlotOf(k);
    forall hist | Plausible(env, w, x, hist) && env.prog(x, hist).Read?
      ensures env.prog(x, hist).dep in w.sources || env.prog(x, hist).dep in ready
    {
      if |hist| >= 2 {
        assert env.prog(x, hist[..1]) == Read(KeysOf(k));
        assert hist[1] == g.sources[KeysOf(k)];
        assert KidsOf(rows, g, k)[|hist| - 2] in KidsOf(rows, g, k);
      }
    }
  }

  ghost predicate Apart(path: seq<nat>, ready: set<Id>) {
    forall i :: 0 <= i < |path| ==> SlotOf(path[i]) !in ready
  }

  /** What a node reads beside the link below it is not on the path. */
  lemma ReadyApart<V(!new), D(!new)>(rows: seq<Row<V>>, fold: (V, seq<D>) -> D, env: Env<Cell<V, D>>,
          g: Graph<Cell<V, D>>, path: seq<nat>, j: nat)
    requires IsTree(rows, fold, env) && TreeOk(rows, env, g) && Climbs(rows, g, path) && j < |path|
    requires SlotOf(|rows| - 1) in g.slots && g.slots[SlotOf(|rows| - 1)].cached
    ensures Apart(path, ReadySet(g, path, j))
  {
    var x := SlotOf(path[j]);
    ClimbIsCurrent(rows, fold, env, g, path, j);
    ClimbIsDistinct(rows, fold, env, g, path);
    forall i | 0 <= i < |path| ensures SlotOf(path[i]) !in ReadySet(g, path, j) {
      var d := SlotOf(path[i]);
      if d in ReadySet(g, path, j) {
        assert Edge(g, d, x);
        ClimbDependents(rows, fold, env, g, path, i);
      }
    }
  }

  predicate Rises(path: seq<nat>, q: nat) {
    q + 1 < |path| ==> path[q] < path[q + 1]
  }

  lemma {:induction false} ClimbRises(path: seq<nat>, i: nat, j: nat)
    requires i < j < |path| && forall q {:trigger Rises(path, q)} :: Rises(path, q)
    ensures path[i] < path[j]
  {
    assert Rises(path, j - 1);
    if i < j - 1 { ClimbRises(path, i, j - 1); }
  }

  lemma ClimbIsDistinct<V(!new), D(!new)>(rows: seq<Row<V>>, fold: (V, seq<D>) -> D, env: Env<Cell<V, D>>,
          g: Graph<Cell<V, D>>, path: seq<nat>)
    requires IsTree(rows, fold, env) && TreeOk(rows, env, g) && Climbs(rows, g, path)
    requires SlotOf(|rows| - 1) in g.slots && g.slots[SlotOf(|rows| - 1)].cached
    ensures Distinct(path)
  {
    forall q: nat ensures Rises(path, q) {
      if q + 1 < |path| { ClimbIsCurrent(rows, fold, env, g, path, q); }
    }
    forall i, j | 0 <= i < j < |path| ensures path[i] != path[j] { ClimbRises(path, i, j); }
  }

  lemma ReadyIsCurrent<V(!new), D(!new)>(rows: seq<Row<V>>, fold: (V, seq<D>) -> D, env: Env<Cell<V, D>>,
          g: Graph<Cell<V, D>>, path: seq<nat>, j: nat)
    requires IsTree(rows, fold, env) && TreeOk(rows, env, g) && Climbs(rows, g, path) && j < |path|
    requires SlotOf(|rows| - 1) in g.slots && g.slots[SlotOf(|rows| - 1)].cached
    ensures AllCached(g, ReadySet(g, path, j)) && ReadySet(g, path, j) !! Members(SlotPath(path))
  {
    ClimbIsCurrent(rows, fold, env, g, path, j);
    ReadyApart(rows, fold, env, g, path, j);
    forall d | d in ReadySet(g, path, j) ensures d in g.slots && g.slots[d].cached {
      assert Edge(g, d, SlotOf(path[j]));
    }
  }

  lemma ClimbReads<V(!new), D(!new)>(rows: seq<Row<V>>, fold: (V, seq<D>) -> D, env: Env<Cell<V, D>>,
          g: Graph<Cell<V, D>>, path: seq<nat>, v: V, j: nat)
    requires IsTree(rows, fold, env) && TreeOk(rows, env, g) && Climbs(rows, g, path) && j < |path|
    requires SlotOf(|rows| - 1) in g.slots && g.slots[SlotOf(|rows| - 1)].cached
    ensures ReadsOnly(env, Written(g, ValueOf(path[0]), Value(v)), SlotOf(path[j]),
            ReadySet(g, path, j) + Before(SlotPath(path), j))
  {
    var k := path[j];
    ClimbIsCurrent(rows, fold, env, g, path, j);
    KidsAreReady(rows, fold, env, g, path, j);
    WrittenNode(rows, g, path[0], v, k);
    ReadsKids(rows, fold, env, g, Written(g, ValueOf(path[0]), Value(v)), k,
        ReadySet(g, path, j) + Before(SlotPath(path), j));
  }

  lemma WrittenNode<V, D>(rows: seq<Row<V>>, g: Graph<Cell<V, D>>, l: nat, v: V, k: nat)
    requires k < |rows| && NodeOk(rows, g, k)
    ensures var w := Written(g, ValueOf(l), Value(v));
            NodeOk(rows, w, k) && w.sources[KeysOf(k)] == g.sources[KeysOf(k)]
  {
  }

  lemma KidsAreReady<V(!new), D(!new)>(rows: seq<Row<V>>, fold: (V, seq<D>) -> D, env: Env<Cell<V, D>>,
          g: Graph<Cell<V, D>>, path: seq<nat>, j: nat)
    requires IsTree(rows, fold, env) && TreeOk(rows, env, g) && Climbs(rows, g, path) && j < |path|
    requires NodeOk(rows, g, path[j]) && g.slots[SlotOf(path[j])].cached
    ensures forall c :: c in KidsOf(rows, g, path[j]) ==> SlotOf(c) in ReadySet(g, path, j) + Before(SlotPath(path), j)
  {
    forall c | c in KidsOf(rows, g, path[j]) ensures SlotOf(c) in ReadySet(g, path, j) + Before(SlotPath(path), j) {
      KidsRead(rows, fold, env, g, path[j], c);
    }
  }

  lemma ClimbFits<V(!new), D(!new)>(rows: seq<Row<V>>, fold: (V, seq<D>) -> D, env: Env<Cell<V, D>>,
          g: Graph<Cell<V, D>>, path: seq<nat>, v: V, j: nat)
    requires IsTree(rows, fold, env) && TreeOk(rows, env, g) && Climbs(rows, g, path) && j < |path|
    requires SlotOf(|rows| - 1) in g.slots && g.slots[SlotOf(|rows| - 1)].cached
    ensures Fit(env, g, Written(g, ValueOf(path[0]), Value(v)), SlotPath(path), ReadySets(g, path), j)
  {
    ClimbIsCurrent(rows, fold, env, g, path, j);
    ClimbDependents(rows, fold, env, g, path, j);
    ReadyIsCurrent(rows, fold, env, g, path, j);
    ClimbReads(rows, fold, env, g, path, v, j);
  }

  /**
    An edit of one node's value, on a tree whose root is current, then a read of any ancestor: the computes that run
    are those of the node and its ancestors, from the bottom up to the first one whose fold stays the same.
   */
  lemma EditRerunsAncestors<V(!new), D(!new)>(rows: seq<Row<V>>, fold: (V, seq<D>) -> D, env: Env<Cell<V, D>>,
          g: Graph<Cell<V, D>>, path: seq<nat>, v: V, i: nat)
    returns (k: nat)
    requires IsTree(rows, fold, env) && TreeOk(rows, env, g) && Climbs(rows, g, path) && i < |path|
    requires SlotOf(|rows| - 1) in g.slots && g.slots[SlotOf(|rows| - 1)].cached && ValueOf(path[0]) in g.sources
    requires g.sources[ValueOf(path[0])] != Value(v)
    ensures var g' := Write(env, g, ValueOf(path[0]), Value(v));
            && Sane(env, g') && SlotOf(path[i]) in g'.slots && g'.log == g.log
            && Ran(g', Refresh(env, g', SlotOf(path[i])), SlotPath(path), i, k)
  {
    ClimbIsCurrent(rows, fold, env, g, path, 0);
    ValueDependents(rows, fold, env, g, path[0]);
    ClimbIsDistinct(rows, fold, env, g, path);
    var sp, rs := SlotPath(path), ReadySets(g, path);
    var w := Written(g, ValueOf(path[0]), Value(v));
    forall j | 0 <= j < |path| ensures Fit(env, g, w, sp, rs, j) { ClimbFits(rows, fold, env, g, path, v, j); }
    k := WriteThenPull(env, g, ValueOf(path[0]), Value(v), sp, rs, i);
  }

  /** A child a current node depends on is one it lists. */
  lemma DependsOnListed<V(!new), D(!new)>(rows: seq<Row<V>>, fold: (V, seq<D>) -> D, env: Env<Cell<V, D>>,
          g: Graph<Cell<V, D>>, p: nat, c: nat)
    requires IsTree(rows, fold, env) && TreeOk(rows, env, g) && p < |rows| && NodeOk(rows, g, p)
             && g.slots[SlotOf(p)].cached
    requires SlotOf(c) in g.slots[SlotOf(p)].deps
    ensures c in KidsOf(rows, g, p)
  {
    var x := SlotOf(p);
    var t := g.slots[x].trace;
    assert SlotOk(env, g, x);
    var i :| 0 <= i < |t| && env.prog(x, t[..i]) == Read(SlotOf(c));
    TraceStart(rows, fold, env, g, p);
    ListedRead(rows, fold, g, p, t[..i], c);
  }

  lemma ListedRead<V, D>(rows: seq<Row<V>>, fold: (V, seq<D>) -> D, g: Graph<Cell<V, D>>, p: nat, hist: seq<Cell<V, D>>,
          c: nat)
    requires p < |rows| && NodeOk(rows, g, p) && Body(rows, fold, SlotOf(p), hist) == Read(SlotOf(c))
    requires |hist| >= 2 ==> hist[0] == g.sources[ValueOf(p)] && hist[1] == g.sources[KeysOf(p)]
    ensures c in KidsOf(rows, g, p)
  {
    if |hist| >= 2 { assert KidsOf(rows, g, p)[|hist| - 2] in KidsOf(rows, g, p); }
  }

  ghost predicate Connected<V, D>(rows: seq<Row<V>>, g: Graph<Cell<V, D>>, k: nat) {
    exists path :: Climbs(rows, g, path) && path[0] == k
  }

  ghost function Loose<V, D>(rows: seq<Row<V>>, g: Graph<Cell<V, D>>): set<Id> {
    set k: nat | k < |rows| && !Connected(rows, g, k) :: SlotOf(k)
  }

  lemma ConnectedChild<V(!new), D(!new)>(rows: seq<Row<V>>, fold: (V, seq<D>) -> D, env: Env<Cell<V, D>>,
          g: Graph<Cell<V, D>>, p: nat, c: nat)
    requires IsTree(rows, fold, env) && TreeOk(rows, env, g) && SlotOf(|rows| - 1) in g.slots
             && g.slots[SlotOf(|rows| - 1)].cached
    requires c < |rows| && p < |rows| && SlotOf(p) in g.slots && SlotOf(c) in g.slots[SlotOf(p)].deps
             && Connected(rows, g, p)
    ensures Connected(rows, g, c)
  {
    var path :| Climbs(rows, g, path) && path[0] == p;
    ClimbIsCurrent(rows, fold, env, g, path, 0);
    DependsOnListed(rows, fold, env, g, p, c);
    ClimbsLonger(rows, g, path, c);
  }

  lemma ClimbsLonger<V, D>(rows: seq<Row<V>>, g: Graph<Cell<V, D>>, path: seq<nat>, c: nat)
    requires Climbs(rows, g, path) && c < |rows| && NodeOk(rows, g, path[0]) && c in KidsOf(rows, g, path[0])
    ensures Connected(rows, g, c)
  {
    var longer := [c] + path;
    forall j | 0 <= j < |longer| - 1 && NodeOk(rows, g, longer[j + 1])
        ensures longer[j] in KidsOf(rows, g, longer[j + 1]) {
      assert longer[j + 1] == path[j];
      if j > 0 { assert longer[j] == path[j - 1]; }
    }
    assert Climbs(rows, g, longer) && longer[0] == c;
  }

  lemma LooseHas<V, D>(rows: seq<Row<V>>, g: Graph<Cell<V, D>>, k: nat)
    ensures SlotOf(k) in Loose(rows, g) <==> k < |rows| && !Connected(rows, g, k)
  {
  }

  lemma LooseStep<V(!new), D(!new)>(rows: seq<Row<V>>, fold: (V, seq<D>) -> D, env: Env<Cell<V, D>>,
          g: Graph<Cell<V, D>>, c: nat, x: Id)
    requires IsTree(rows, fold, env) && TreeOk(rows, env, g) && SlotOf(|rows| - 1) in g.slots
             && g.slots[SlotOf(|rows| - 1)].cached
    requires c < |rows| && !Connected(rows, g, c) && Edge(g, SlotOf(c), x)
    ensures x in Loose(rows, g)
  {
    EdgeIsRead(env, g, SlotOf(c), x);
    var p := x / 3;
    assert p < |rows| && x == SlotOf(p);
    LooseHas(rows, g, p);
    if Connected(rows, g, p) { ConnectedChild(rows, fold, env, g, p, c); }
  }

  lemma EdgeIsRead<V(!new)>(env: Env<V>, g: Graph<V>, d: Id, x: Id)
    requires Inv(env, g, {}) && Edge(g, d, x)
    ensures x in g.slots && d in g.slots[x].deps
  {
    assert d in g.dependents && x in g.dependents[d];
  }

  /** Nothing that is connected depends on what hangs below a child its parent no longer lists. */
  lemma LooseIsClosed<V(!new), D(!new)>(rows: seq<Row<V>>, fold: (V, seq<D>) -> D, env: Env<Cell<V, D>>,
          g: Graph<Cell<V, D>>)
    requires IsTree(rows, fold, env) && TreeOk(rows, env, g) && SlotOf(|rows| - 1) in g.slots
             && g.slots[SlotOf(|rows| - 1)].cached
    ensures SyncChain.Closed(g, Loose(rows, g))
  {
    var cone := Loose(rows, g);
    forall d: Id, x: Id | d in cone && Edge(g, d, x) ensures x in cone {
      LooseHas(rows, g, d / 3);
      assert d == SlotOf(d / 3);
      LooseStep(rows, fold, env, g, d / 3, x);
    }
  }

  lemma ValueIsInput<V>(rows: seq<Row<V>>, k: nat)
    requires k < |rows|
    ensures ValueOf(k) in Inputs(rows, SlotOf(k))
  {
  }

  lemma ReaderIsLoose<V(!new), D(!new)>(rows: seq<Row<V>>, fold: (V, seq<D>) -> D, env: Env<Cell<V, D>>,
          g: Graph<Cell<V, D>>, k: nat, x: Id)
    requires IsTree(rows, fold, env) && TreeOk(rows, env, g) && k < |rows| && !Connected(rows, g, k)
             && Edge(g, ValueOf(k), x)
    ensures x in Loose(rows, g) && x in g.slots
  {
    ValueIsInput(rows, k);
    OnlyReader(rows, fold, env, g, k, ValueOf(k), x);
    assert NodeOk(rows, g, k);
    LooseHas(rows, g, k);
  }

  lemma CachedAnswers<V(!new)>(env: Env<V>, g: Graph<V>, x: Id)
    requires Sane(env, g) && x in g.slots && g.slots[x].cached
    ensures Refresh(env, g, x) == (g, false)
  {
  }

  /** A write marks nothing outside a closed set that holds the readers of the source. */
  lemma WriteStays<V(!new)>(env: Env<V>, g: Graph<V>, a: Id, v: V, cone: set<Id>, y: Id)
    requires Quiescent(env, g) && g.depth == 0 && a in g.sources && SyncChain.Closed(g, cone) && y in g.slots
             && y !in cone
    requires forall x {:trigger Edge(g, a, x)} :: Edge(g, a, x) ==> x in cone && x in g.slots
    ensures y in Write(env, g, a, v).slots && Write(env, g, a, v).slots[y] == g.slots[y]
  {
    if g.sources[a] != v {
      var w := Written(g, a, v);
      forall d, x | d in cone && Edge(Ticked(w), d, x) ensures x in cone { assert Edge(g, d, x); }
      var roots := SyncGraph.Roots(env, w, a);
      forall m | m in roots ensures m.node in g.slots && m.node in cone { assert Edge(g, a, m.node); }
      WriteOk(env, g, a, v);
      MarkConeStays(env, Ticked(w), roots, cone, y);
    }
  }

  /** An edit of a node that is not connected to a current root leaves the root current: reading it runs nothing. */
  lemma LooseEditRerunsNothing<V(!new), D(!new)>(rows: seq<Row<V>>, fold: (V, seq<D>) -> D, env: Env<Cell<V, D>>,
          g: Graph<Cell<V, D>>, k: nat, v: V)
    requires IsTree(rows, fold, env) && TreeOk(rows, env, g) && SlotOf(|rows| - 1) in g.slots
             && g.slots[SlotOf(|rows| - 1)].cached
    requires k < |rows| && !Connected(rows, g, k) && ValueOf(k) in g.sources
    ensures var g' := Write(env, g, ValueOf(k), Value(v));
            Sane(env, g') && SlotOf(|rows| - 1) in g'.slots && Refresh(env, g', SlotOf(|rows| - 1)) == (g', false)
  {
    var root, a := SlotOf(|rows| - 1), ValueOf(k);
    LooseIsClosed(rows, fold, env, g);
    RootIsConnected(rows, g);
    forall x | Edge(g, a, x) ensures x in Loose(rows, g) && x in g.slots { ReaderIsLoose(rows, fold, env, g, k, x); }
    WriteStays(env, g, a, Value(v), Loose(rows, g), root);
    WriteOk(env, g, a, Value(v));
    CachedAnswers(env, Write(env, g, a, Value(v)), root);
  }

  lemma RootIsConnected<V, D>(rows: seq<Row<V>>, g: Graph<Cell<V, D>>)
    requires rows != [] && HoldsTree(rows, g)
    ensures Connected(rows, g, |rows| - 1) && SlotOf(|rows| - 1) !in Loose(rows, g)
  {
    var path: seq<nat> := [|rows| - 1];
    assert Climbs(rows, g, path) && path[0] == |rows| - 1;
  }

  // ---------------------------------------------------------------- the tree that was built

  /** The fold of a spec, with no graph. */
  function FoldSpec<V, D>(fold: (V, seq<D>) -> D, spec: Spec<V>): D
    decreases spec
  {
    fold(spec.value, FoldSpecs(fold, spec.children))
  }

  function FoldSpecs<V, D>(fold: (V, seq<D>) -> D, cs: seq<Spec<V>>): (r: seq<D>)
    ensures |r| == |cs|
    decreases cs
  {
    if cs == [] then [] else [FoldSpec(fold, cs[0])] + FoldSpecs(fold, cs[1..])
  }

  lemma {:induction false} KeptAll(order: seq<nat>, kids: seq<nat>)
    requires forall i :: 0 <= i < |order| ==> order[i] in kids
    ensures Kept(order, kids) == order
  {
    if order != [] { KeptAll(order[1..], kids); }
  }

  lemma {:induction false} FoldAllAt<V, D>(rows: seq<Row<V>>, fold: (V, seq<D>) -> D, g: Graph<Cell<V, D>>, k: nat,
          ks: seq<nat>, i: nat)
    requires Proper(rows, 0) && HoldsTree(rows, g) && k < |rows| && Under(ks, k) && i < |ks|
    ensures FoldAll(rows, fold, g, k, ks)[i] == FoldAt(rows, fold, g, ks[i])
    decreases |ks|
  {
    if i < |ks| - 1 { FoldAllAt(rows, fold, g, k, ks[..|ks| - 1], i); }
  }

  lemma BuiltSlice<V>(rows: seq<Row<V>>, spec: Spec<V>, base: nat)
    requires base + |Build(spec, base)| <= |rows| && rows[base..base + |Build(spec, base)|] == Build(spec, base)
    ensures var (below, kids) := BuildAll(spec.children, base);
            var k := base + |below|;
            && k + 1 == base + |Build(spec, base)| && k < |rows| && rows[k] == Row(spec.id, spec.value, kids)
            && rows[base..k] == below
  {
    var below := BuildAll(spec.children, base).0;
    var all := Build(spec, base);
    assert rows[base + |below|] == rows[base..base + |all|][|below|];
    assert rows[base..base + |below|] == rows[base..base + |all|][..|below|];
  }

  /** No edit has touched the values and the child lists that were built. */
  ghost predicate AsBuilt<V, D>(rows: seq<Row<V>>, g: Graph<Cell<V, D>>)
    requires HoldsTree(rows, g)
  {
    forall k {:trigger NodeOk(rows, g, k)} :: 0 <= k < |rows| && NodeOk(rows, g, k) ==>
      g.sources[ValueOf(k)] == Value(rows[k].value) && g.sources[KeysOf(k)] == Keys(0, rows[k].kids)
  }

  /** A node of a fresh table folds its value with the folds of its children. */
  lemma FirstFold<V, D>(rows: seq<Row<V>>, fold: (V, seq<D>) -> D, g: Graph<Cell<V, D>>, k: nat, ds: seq<D>)
    requires Proper(rows, 0) && HoldsTree(rows, g) && AsBuilt(rows, g) && k < |rows| && |ds| == |rows[k].kids|
    requires KidsFold(rows, fold, g, rows[k].kids, ds)
    ensures FoldAt(rows, fold, g, k) == fold(rows[k].value, ds)
  {
    assert NodeOk(rows, g, k);
    var kids := rows[k].kids;
    KeptAll(kids, kids);
    KidsUnder(rows, g, k);
    forall i | 0 <= i < |kids| ensures FoldAll(rows, fold, g, k, kids)[i] == ds[i] {
      FoldAllAt(rows, fold, g, k, kids, i);
    }
    assert FoldAll(rows, fold, g, k, kids) == ds;
  }

  /** The children of a built node fold to the folds of their specs. */
  ghost predicate KidsFold<V, D>(rows: seq<Row<V>>, fold: (V, seq<D>) -> D, g: Graph<Cell<V, D>>, kids: seq<nat>,
          ds: seq<D>)
    requires Proper(rows, 0) && HoldsTree(rows, g)
  {
    |kids| == |ds| && forall i {:trigger ds[i]} :: 0 <= i < |ds| ==>
        kids[i] < |rows| && FoldAt(rows, fold, g, kids[i]) == ds[i]
  }

  /** The part of a table that a spec was built into folds to the fold of the spec. */
  lemma {:induction false} PartFold<V, D>(rows: seq<Row<V>>, fold: (V, seq<D>) -> D, g: Graph<Cell<V, D>>,
          spec: Spec<V>, base: nat)
    requires Proper(rows, 0) && HoldsTree(rows, g) && AsBuilt(rows, g)
    requires base + |Build(spec, base)| <= |rows| && rows[base..base + |Build(spec, base)|] == Build(spec, base)
    ensures FoldAt(rows, fold, g, base + |Build(spec, base)| - 1) == FoldSpec(fold, spec)
    decreases spec
  {
    BuiltSlice(rows, spec, base);
    PartsFold(rows, fold, g, spec.children, base);
    FirstFold(rows, fold, g, base + |Build(spec, base)| - 1, FoldSpecs(fold, spec.children));
  }

  lemma {:induction false} PartsFold<V, D>(rows: seq<Row<V>>, fold: (V, seq<D>) -> D, g: Graph<Cell<V, D>>,
          cs: seq<Spec<V>>, base: nat)
    requires Proper(rows, 0) && HoldsTree(rows, g) && AsBuilt(rows, g)
    requires base + |BuildAll(cs, base).0| <= |rows|
             && rows[base..base + |BuildAll(cs, base).0|] == BuildAll(cs, base).0
    ensures KidsFold(rows, fold, g, BuildAll(cs, base).1, FoldSpecs(fold, cs))
    decreases cs
  {
    if cs != [] {
      var first := Build(cs[0], base);
      var (rest, kids) := BuildAll(cs[1..], base + |first|);
      SliceSplits(rows, base, first, rest);
      PartFold(rows, fold, g, cs[0], base);
      PartsFold(rows, fold, g, cs[1..], base + |first|);
      assert BuildAll(cs, base).1 == [base + |first| - 1] + kids
             && FoldSpecs(fold, cs) == [FoldSpec(fold, cs[0])] + FoldSpecs(fold, cs[1..]);
      KidsFoldMore(rows, fold, g, base + |first| - 1, kids, FoldSpec(fold, cs[0]), FoldSpecs(fold, cs[1..]));
    }
  }

  lemma FirstNode<V, D>(rows: seq<Row<V>>, g: Graph<Cell<V, D>>, k: nat)
    requires g == Initial(rows) && k < |rows| && NodeOk(rows, g, k)
    ensures g.sources[ValueOf(k)] == Value(rows[k].value) && g.sources[KeysOf(k)] == Keys(0, rows[k].kids)
  {
    assert g.sources[ValueOf(k)] == FirstCell(rows, ValueOf(k)) && g.sources[KeysOf(k)] == FirstCell(rows, KeysOf(k));
  }

  lemma InitialAsBuilt<V, D>(rows: seq<Row<V>>, g: Graph<Cell<V, D>>)
    requires g == Initial(rows) && HoldsTree(rows, g)
    ensures AsBuilt(rows, g)
  {
    forall k | 0 <= k < |rows| && NodeOk(rows, g, k)
      ensures g.sources[ValueOf(k)] == Value(rows[k].value) && g.sources[KeysOf(k)] == Keys(0, rows[k].kids)
    {
      FirstNode(rows, g, k);
    }
  }

  lemma WholeFold<V, D>(rows: seq<Row<V>>, fold: (V, seq<D>) -> D, g: Graph<Cell<V, D>>, spec: Spec<V>)
    requires rows == Build(spec, 0) && Proper(rows, 0) && HoldsTree(rows, g) && AsBuilt(rows, g)
    ensures FoldAt(rows, fold, g, |rows| - 1) == FoldSpec(fold, spec)
  {
    assert rows[0..|rows|] == rows;
    PartFold(rows, fold, g, spec, 0);
  }

  /** The root of a tree just built folds to the fold of its spec. */
  lemma BuiltFold<V, D>(fold: (V, seq<D>) -> D, spec: Spec<V>, rows: seq<Row<V>>, g: Graph<Cell<V, D>>)
    requires rows == Build(spec, 0) && g == Initial(rows)
    ensures Proper(rows, 0) && HoldsTree(rows, g) && FoldAt(rows, fold, g, |rows| - 1) == FoldSpec(fold, spec)
  {
    BuildProper(spec, 0);
    InitialHolds(rows, g);
    InitialAsBuilt(rows, g);
    WholeFold(rows, fold, g, spec);
  }

  lemma SliceSplits<T>(s: seq<T>, base: nat, a: seq<T>, b: seq<T>)
    requires base + |a + b| <= |s| && s[base..base + |a + b|] == a + b
    ensures s[base..base + |a|] == a && s[base + |a|..base + |a| + |b|] == b
  {
    assert s[base..base + |a|] == s[base..base + |a + b|][..|a|];
    assert s[base + |a|..base + |a| + |b|] == s[base..base + |a + b|][|a|..];
  }

  lemma KidsFoldMore<V, D>(rows: seq<Row<V>>, fold: (V, seq<D>) -> D, g: Graph<Cell<V, D>>, c: nat, kids: seq<nat>,
          d: D, ds: seq<D>)
    requires Proper(rows, 0) && HoldsTree(rows, g) && KidsFold(rows, fold, g, kids, ds) && c < |rows|
             && FoldAt(rows, fold, g, c) == d
    ensures KidsFold(rows, fold, g, [c] + kids, [d] + ds)
  {
    var kids1, ds1 := [c] + kids, [d] + ds;
    forall i | 0 <= i < |ds1| ensures kids1[i] < |rows| && FoldAt(rows, fold, g, kids1[i]) == ds1[i] {
      if i > 0 { assert ds1[i] == ds[i - 1] && kids1[i] == kids[i - 1]; }
    }
  }
}
