/** The semantic tree as an object over a context. */
module SemTreeObject {
  import opened Basics
  import opened SyncGraph
  import opened SyncRuns
  import opened SyncLoop
  import opened SemTree
  import opened SemTreeRuns

  class Tree<V(==,!new), D(==,!new)> {
    const rows: seq<Row<V>>
    const ctx: Context<Cell<V, D>>
    ghost const fold: (V, seq<D>) -> D

    ghost predicate Valid()
      reads this, ctx
    {
      IsTree(rows, fold, ctx.env) && TreeOk(rows, ctx.env, ctx.Model())
    }

    constructor (rows: seq<Row<V>>, ctx: Context<Cell<V, D>>, ghost fold: (V, seq<D>) -> D)
      requires IsTree(rows, fold, ctx.env) && TreeOk(rows, ctx.env, ctx.Model())
      ensures this.rows == rows && this.ctx == ctx && this.fold == fold && Valid()
    {
      this.rows, this.ctx, this.fold := rows, ctx, fold;
    }

    /** The node map lookup. */
    method Lookup(id: string) returns (k: Option<nat>)
      ensures k == Find(rows, id)
    {
      var n := |rows|;
      assert rows[..n] == rows;
      while n > 0
        invariant 0 <= n <= |rows| && Find(rows[..n], id) == Find(rows, id)
      {
        if rows[n - 1].id == id { return Some(n - 1); }
        assert rows[..n][..n - 1] == rows[..n - 1];
        n := n - 1;
      }
      return None;
    }

    method SetValue(id: string, value: V) returns (ok: bool)
      requires Valid()
      modifies ctx
      ensures ctx.Model() == Apply(rows, ctx.env, old(ctx.Model()), Edit.SetValue(id, value))
              && ok == Find(rows, id).Some?
      ensures Valid()
    {
      ApplyOk(rows, fold, ctx.env, ctx.Model(), Edit.SetValue(id, value));
      var k := Lookup(id);
      if k.None? { return false; }
      EditEnabled(rows, ctx.Model(), Edit.SetValue(id, value));
      ctx.Assign(ValueOf(k.value), Value(value));
      return true;
    }

    /** RemoveChild: the filter loop, then a fresh key list. */
    method RemoveChild(parent: string, child: string) returns (ok: bool)
      requires Valid()
      modifies ctx
      ensures ctx.Model() == Apply(rows, ctx.env, old(ctx.Model()), Edit.RemoveChild(parent, child))
              && ok == Find(rows, parent).Some?
      ensures Valid()
    {
      ApplyOk(rows, fold, ctx.env, ctx.Model(), Edit.RemoveChild(parent, child));
      var k := Lookup(parent);
      if k.None? { return false; }
      RemoveIsWrite(rows, ctx.env, ctx.Model(), parent, child);
      Shorten(k.value, child);
      return true;
    }

    method Shorten(k: nat, child: string)
      requires Sane(ctx.env, ctx.Model()) && KeysOf(k) in ctx.sources && ctx.sources[KeysOf(k)].Keys?
      modifies ctx
      ensures ctx.Model() == Write(ctx.env, old(ctx.Model()), KeysOf(k),
              Shortened(rows, old(ctx.sources)[KeysOf(k)], child))
    {
      var was := ctx.sources[KeysOf(k)];
      var filtered := Filter(was.order, child);
      ctx.Assign(KeysOf(k), Keys(was.stamp + 1, filtered));
    }

    method Filter(order: seq<nat>, child: string) returns (filtered: seq<nat>)
      ensures filtered == SemTreeRuns.Without(rows, order, child)
    {
      filtered := [];
      var i := |order|;
      while i > 0
        invariant 0 <= i <= |order| && filtered == SemTreeRuns.Without(rows, order[i..], child)
      {
        i := i - 1;
        assert order[i..][1..] == order[i + 1..];
        var c := order[i];
        if !(c < |rows| && rows[c].id == child) { filtered := [c] + filtered; }
      }
      assert order[0..] == order;
    }

    /** NodeValue: what is pulled is the recursive fold of the tree below the node as it stands. */
    method NodeValue(id: string) returns (d: Option<Cell<V, D>>)
      requires Valid()
      modifies ctx
      ensures ctx.Model() == Apply(rows, ctx.env, old(ctx.Model()), Edit.NodeValue(id))
              && (d.Some? <==> Find(rows, id).Some?)
      ensures d.Some? ==> d == Some(Derived(FoldAt(rows, fold, old(ctx.Model()), Find(rows, id).value)))
      ensures Valid()
    {
      ApplyOk(rows, fold, ctx.env, ctx.Model(), Edit.NodeValue(id));
      var k := Lookup(id);
      if k.None? { return None; }
      EditEnabled(rows, ctx.Model(), Edit.NodeValue(id));
      FoldIsPulled(rows, fold, ctx.env, ctx.Model(), k.value);
      var _ := ctx.Pull(SlotOf(k.value));
      return ctx.slots[SlotOf(k.value)].value;
    }
  }

  function Shortened<V, D>(rows: seq<Row<V>>, was: Cell<V, D>, child: string): Cell<V, D>
    requires was.Keys?
  {
    Keys(was.stamp + 1, SemTreeRuns.Without(rows, was.order, child))
  }

  lemma RemoveIsWrite<V(!new), D(!new)>(rows: seq<Row<V>>, env: Env<Cell<V, D>>, g: Graph<Cell<V, D>>, parent: string,
          child: string)
    requires TreeOk(rows, env, g) && Find(rows, parent).Some?
    ensures var a := KeysOf(Find(rows, parent).value);
            && a in g.sources && g.sources[a].Keys? && Sane(env, g)
            && Apply(rows, env, g, Edit.RemoveChild(parent, child))
                == Write(env, g, a, Shortened(rows, g.sources[a], child))
  {
    KeysThere(rows, g, Find(rows, parent).value);
    RemoveIsStep(rows, g, parent, child);
  }

  lemma KeysThere<V, D>(rows: seq<Row<V>>, g: Graph<Cell<V, D>>, k: nat)
    requires HoldsTree(rows, g) && k < |rows|
    ensures KeysOf(k) in g.sources && g.sources[KeysOf(k)].Keys?
  {
    assert NodeOk(rows, g, k);
  }

  lemma RemoveIsStep<V, D>(rows: seq<Row<V>>, g: Graph<Cell<V, D>>, parent: string, child: string)
    requires HoldsTree(rows, g) && Find(rows, parent).Some?
    requires KeysOf(Find(rows, parent).value) in g.sources && g.sources[KeysOf(Find(rows, parent).value)].Keys?
    ensures var a := KeysOf(Find(rows, parent).value);
            GraphStep(rows, g, Edit.RemoveChild(parent, child)) == Some(Set(a, Shortened(rows, g.sources[a], child)))
  {
  }
}
