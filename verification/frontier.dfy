/** The stamp frontier: the highest stamp observed per peer, and the stability watermark. */
module Frontier {
  import opened Basics
  import opened SeqCrdt

  type Stamps = map<nat, Stamp>

  /** StampFrontier.Observe. */
  function ObserveStamp(f: Stamps, s: Stamp): Stamps {
    if s.peer in f && !Less(f[s.peer], s) then f else f[s.peer := s]
  }

  function ObserveEach(f: Stamps, ss: seq<Stamp>): Stamps {
    if ss == [] then f else ObserveStamp(ObserveEach(f, ss[..|ss| - 1]), ss[|ss| - 1])
  }

  /** Each peer's entry is the greatest of its stamps. */
  ghost predicate IsGreatest(f: Stamps, all: set<Stamp>) {
    && (forall p :: p in f ==> f[p] in all && f[p].peer == p)
    && (forall s :: s in all ==> s.peer in f && !Less(f[s.peer], s))
  }

  lemma {:induction false} ObservedIsGreatest(ss: seq<Stamp>)
    ensures IsGreatest(ObserveEach(map[], ss), Members(ss))
    decreases |ss|
  {
    if ss != [] {
      ObservedIsGreatest(ss[..|ss| - 1]);
      assert ss == ss[..|ss| - 1] + [ss[|ss| - 1]];
      assert Members(ss) == Members(ss[..|ss| - 1]) + {ss[|ss| - 1]};
    }
  }

  /** So it depends on the set of stamps only. */
  lemma FrontiersConverge(a: seq<Stamp>, b: seq<Stamp>)
    requires Members(a) == Members(b)
    ensures ObserveEach(map[], a) == ObserveEach(map[], b)
  {
    ObservedIsGreatest(a);
    ObservedIsGreatest(b);
    var x, y := ObserveEach(map[], a), ObserveEach(map[], b);
    forall p | p in x ensures p in y && x[p] == y[p] { assert x[p] in Members(b) && y[p] in Members(a); }
    forall p | p in y ensures p in x { assert y[p] in Members(a); }
  }

  function MinStamp(a: Stamp, b: Stamp): Stamp {
    if Less(b, a) then b else a
  }

  /** Watermark: the least entry of the members, once each of them was observed. */
  method Watermark(f: Stamps, members: seq<nat>) returns (w: Option<Stamp>)
    ensures w.Some? <==> members != [] && forall p :: p in members ==> p in f
    ensures w.Some? ==> (exists p :: p in members && p in f && f[p] == w.value) && forall p :: p in members ==>
            p in f && !Less(f[p], w.value)
  {
    w := None;
    for i := 0 to |members|
      invariant forall p :: p in members[..i] ==> p in f
      invariant w.Some? <==> i > 0
      invariant w.Some? ==> exists p :: p in members[..i] && p in f && f[p] == w.value
      invariant w.Some? ==> forall p :: p in members[..i] ==> !Less(f[p], w.value)
    {
      var p := members[i];
      assert members[..i + 1] == members[..i] + [p];
      if p !in f { return None; }
      w := Some(if w.None? then f[p] else MinStamp(w.value, f[p]));
    }
    assert members[..|members|] == members;
  }
}
