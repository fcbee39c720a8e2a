/** The synchronous graph as it runs: node records and edge maps changed in place. */
module SyncLoop {
  import opened Basics
  import opened SyncGraph
  import opened SyncRuns

  lemma FlushTurns<V>(env: Env<V>, g: Graph<V>, cells: seq<Id>)
    requires Tidy(env, g) && Enumerates(env) && cells != []
    ensures Flush(env, g, cells) == Flush(env, MarkDependents(env, g, cells[0]), cells[1..])
  {
  }

  class Context<V(==,!new)> {
    const env: Env<V>
    var sources: map<Id, V>
    var slots: map<Id, Slot<V>>
    var dependents: map<Id, set<Id>>
    var depth: nat
    var batched: set<Id>
    var tick: nat
    var log: seq<Id>

    ghost function Model(): Graph<V>
      reads this
    {
      Graph(sources, slots, dependents, depth, batched, tick, log)
    }

    constructor (env: Env<V>, sources: map<Id, V>, ids: set<Id>)
      ensures this.env == env && this.sources == sources && slots.Keys == ids
      ensures Wired(env, Model()) ==> Fresh(env, Model())
    {
      this.env := env;
      this.sources := sources;
      slots := map x | x in ids :: Slot(None, false, false, false, {}, []);
      dependents, depth, batched, tick, log := map[], 0, {}, 0, [];
    }

    /** markCone: the frontier walk over an explicit stack. */
    method WalkCone(roots: seq<Mark>)
      requires Tidy(env, Model()) && Enumerates(env) && forall m :: m in roots ==> m.node in slots
      modifies this
      ensures Model() == MarkCone(env, old(Model()), roots)
      ensures Tidy(env, Model()) && Grows(old(Model()), Model())
    {
      ghost var result := MarkCone(env, Model(), roots);
      var stack := roots;
      while stack != []
        invariant Tidy(env, Model()) && (forall m :: m in stack ==> m.node in slots)
        invariant MarkCone(env, Model(), stack) == result
        decreases Unmarked(Model()), |stack|
      {
        MarkConeTurns(env, Model(), stack);
        stack := WalkOne(stack);
      }
    }

    method WalkOne(stack: seq<Mark>) returns (stack': seq<Mark>)
      requires Tidy(env, Model()) && Enumerates(env) && stack != [] && forall m :: m in stack ==> m.node in slots
      modifies this
      ensures (Model(), stack') == MarkStep(env, old(Model()), stack)
    {
      var m := stack[|stack| - 1];
      stack' := stack[..|stack| - 1];
      var s := slots[m.node];
      var propagate := !s.dirty || (m.force && !s.force);
      slots := slots[m.node := s.(force := s.force || m.force, dirty := true, cached := false)];
      if propagate {
        var ds := env.enum(tick, if m.node in dependents then dependents[m.node] else {});
        tick := tick + 1;
        stack' := stack' + Forces(ds, false);
      }
    }

    /** markDependents. */
    method ForceDependents(x: Id)
      requires Tidy(env, Model()) && Enumerates(env)
      modifies this
      ensures Model() == MarkDependents(env, old(Model()), x)
      ensures Tidy(env, Model()) && Grows(old(Model()), Model())
    {
      ghost var g := Model();
      var ds := env.enum(tick, if x in dependents then dependents[x] else {});
      var roots := Forces(ds, true);
      assert roots == Roots(env, g, x);
      tick := tick + 1;
      assert Model() == Ticked(g);
      WalkCone(roots);
    }

    /** refresh: whether the value changed. */
    method Pull(x: Id) returns (changed: bool)
      requires Sane(env, Model()) && x in slots
      modifies this
      ensures (Model(), changed) == Refresh(env, old(Model()), x)
      ensures Sane(env, Model()) && x in slots && slots[x].value.Some?
      decreases env.rank(x), 3, 0
    {
      if slots[x].cached { return false; }
      if slots[x].value.Some? && !slots[x].force {
        changed := Check(x);
      } else {
        RefreshRecomputes(env, Model(), x);
        changed := RecomputeNow(x);
      }
    }

    /** refresh of a slot that is stale but not known to be wrong. */
    method Check(x: Id) returns (changed: bool)
      requires Sane(env, Model()) && x in slots && !slots[x].cached && slots[x].value.Some? && !slots[x].force
      modifies this
      ensures (Model(), changed) == Refresh(env, old(Model()), x)
      ensures Sane(env, Model()) && x in slots && slots[x].value.Some?
      decreases env.rank(x), 2, 2
    {
      ghost var g := Model();
      var ds := env.enum(tick, slots[x].deps);
      RefreshDecides(env, g, x, ds);
      tick := tick + 1;
      assert Model() == Ticked(g);
      var dependencyChanged := PullAll(x, ds);
      changed := Conclude(x, dependencyChanged);
    }

    /** The dependency loop of refresh. */
    method PullAll(x: Id, ds: seq<Id>) returns (changed: bool)
      requires Sane(env, Model()) && x in slots && forall d :: d in ds ==> d in env.inputs(x)
      modifies this
      ensures (Model(), changed) == RefreshAll(env, old(Model()), x, ds)
      ensures Sane(env, Model()) && Grows(old(Model()), Model())
      decreases env.rank(x), 0, 1
    {
      ghost var result := RefreshAll(env, Model(), x, ds);
      changed := false;
      var rest := ds;
      while rest != []
        invariant Sane(env, Model()) && x in slots && forall d :: d in rest ==> d in env.inputs(x)
        invariant var r := RefreshAll(env, Model(), x, rest); (r.0, changed || r.1) == result
        decreases |rest|
      {
        RefreshAllTurns(env, Model(), x, rest);
        if rest[0] !in sources {
          var c := Pull(rest[0]);
          changed := changed || c;
        }
        rest := rest[1..];
      }
    }

    /** After the loop: keep the value, or recompute. */
    method Conclude(x: Id, dependencyChanged: bool) returns (changed: bool)
      requires Sane(env, Model()) && x in slots && slots[x].value.Some?
      modifies this
      ensures (Model(), changed) == Decide(env, old(Model()), x, dependencyChanged)
      ensures Sane(env, Model()) && x in slots && slots[x].value.Some?
      decreases env.rank(x), 2, 1
    {
      if !dependencyChanged && !(env.retest && slots[x].force) {
        slots := slots[x := slots[x].(dirty := false, force := false, cached := true)];
        return false;
      }
      changed := RecomputeNow(x);
    }

    /** recomputeNow. */
    method RecomputeNow(x: Id) returns (changed: bool)
      requires Sane(env, Model()) && x in slots
      modifies this
      ensures (Model(), changed) == Recompute(env, old(Model()), x)
      ensures Sane(env, Model()) && x in slots && slots[x].value.Some?
      decreases env.rank(x), 2, 0
    {
      ghost var g := Model();
      dependents := map d | d in dependents :: if d in slots[x].deps then dependents[d] - {x} else dependents[d];
      slots := slots[x := slots[x].(deps := {})];
      assert Model() == Detach(g, x);
      var hist := RunBody(x);
      changed := Publish(x, hist);
    }

    method Publish(x: Id, hist: seq<V>) returns (changed: bool)
      requires Sane(env, Model()) && x in slots && env.prog(x, hist).Done?
      modifies this
      ensures (Model(), changed) == Finish(env, old(Model()), x, hist)
    {
      ghost var g := Model();
      var v := env.prog(x, hist).result;
      var s := slots[x];
      slots := slots[x := s.(dirty := false, force := false, cached := true, value := Some(v), trace := hist)];
      log := log + [x];
      assert Model() == Store(g, x, v, hist);
      if s.value.None? || (env.guarded(x) && s.value.value == v) { return false; }
      ForceDependents(x);
      return true;
    }

    /** The compute closure, reading through the tracking view. */
    method RunBody(x: Id) returns (hist: seq<V>)
      requires Sane(env, Model()) && x in slots
      modifies this
      ensures (Model(), hist) == RunCompute(env, old(Model()), x, [])
      ensures Sane(env, Model()) && x in slots && env.prog(x, hist).Done?
      decreases env.rank(x), 1, 0
    {
      ghost var result := RunCompute(env, Model(), x, []);
      hist := [];
      while env.prog(x, hist).Read?
        invariant Sane(env, Model()) && x in slots && RunCompute(env, Model(), x, hist) == result
        decreases env.limit(x) - |hist|
      {
        RunComputeTurns(env, Model(), x, hist);
        var v := ReadVia(env.prog(x, hist).dep, x);
        hist := hist + [v];
      }
    }

    /** getVia. */
    method ReadVia(d: Id, x: Id) returns (v: V)
      requires Sane(env, Model()) && x in slots && d in env.inputs(x)
      modifies this
      ensures (Model(), v) == GetVia(env, old(Model()), d, x)
      ensures Sane(env, Model()) && x in slots
      decreases env.rank(x), 0, 0
    {
      dependents := dependents[d := (if d in dependents then dependents[d] else {}) + {x}];
      slots := slots[x := slots[x].(deps := slots[x].deps + {d})];
      if d in sources { return sources[d]; }
      var _ := Pull(d);
      return slots[d].value.value;
    }

    /** Source.Set. */
    method Assign(a: Id, v: V)
      requires Sane(env, Model()) && a in sources
      modifies this
      ensures Model() == Write(env, old(Model()), a, v)
    {
      if sources[a] == v { return; }
      sources := sources[a := v];
      if depth > 0 {
        batched := batched + {a};
      } else {
        ForceDependents(a);
      }
    }

    /** The exit of a batch: flushBatch at the outermost one. */
    method FinishBatch()
      requires Sane(env, Model()) && depth > 0
      modifies this
      ensures Model() == EndBatch(env, old(Model()))
    {
      if depth > 1 {
        depth := depth - 1;
        return;
      }
      var cells := env.enum(tick, batched);
      depth, batched, tick := 0, {}, tick + 1;
      FlushAll(cells);
    }

    method FlushAll(queue: seq<Id>)
      requires Tidy(env, Model()) && Enumerates(env)
      modifies this
      ensures Model() == Flush(env, old(Model()), queue)
    {
      ghost var result := Flush(env, Model(), queue);
      var cells := queue;
      while cells != []
        invariant Tidy(env, Model()) && Flush(env, Model(), cells) == result
        decreases |cells|
      {
        FlushTurns(env, Model(), cells);
        ForceDependents(cells[0]);
        cells := cells[1..];
      }
    }
  }
}
