/** Any number of sequence replicas that edit, fork and merge: they agree, and local edits take effect. */
module SeqRuns {
  import opened Basics
  import opened SeqCrdt

  // ---------------------------------------------------------------- where the registers of a changed replica come from

  predicate KeptOrNew<T(==)>(reg: Reg<T>, was: Option<Reg<T>>, fresh1: Stamp) {
    was == Some(reg) || reg.stamp == fresh1
  }

  function At<I, V>(es: Entries<I, V>, k: I): Option<Entry<V>> {
    if k in es then Some(es[k]) else None
  }

  function ValueReg<V>(e: Option<Entry<V>>): Option<Reg<V>> {
    if e.None? then None else Some(e.value.value)
  }

  function PositionReg<V>(e: Option<Entry<V>>): Option<Reg<Position>> {
    if e.None? then None else Some(e.value.position)
  }

  function DeletedReg<V>(e: Option<Entry<V>>): Option<Reg<bool>> {
    if e.None? then None else Some(e.value.deleted)
  }

  /** Each register of `e` is the one that was there or carries the new stamp. */
  predicate EntryKeptOrNew<V(==)>(e: Entry<V>, was: Option<Entry<V>>, s: Stamp) {
    KeptOrNew(e.value, ValueReg(was), s) && KeptOrNew(e.position, PositionReg(was), s)
        && KeptOrNew(e.deleted, DeletedReg(was), s)
  }

  ghost predicate Edited<I, V>(r: Replica<I, V>, r': Replica<I, V>) {
    && r'.peer == r.peer && (forall s :: Behind(s, r.clock) ==> Behind(s, r'.clock))
    && !Behind(Stamped(r'.clock, r.peer), r.clock)
    && (forall k {:trigger r'.entries[k]} :: k in r'.entries ==>
        EntryKeptOrNew(r'.entries[k], At(r.entries, k), Stamped(r'.clock, r.peer)))
  }

  lemma ApplyEdits<I, V>(r: Replica<I, V>, e: Edit<I, V>, now: int)
    ensures Apply(r, e, now) == r || Edited(r, Apply(r, e, now))
  {
    forall s | Behind(s, r.clock) ensures Behind(s, Tick(r.clock, now)) { TickDominates(r.clock, now, 0, s); }
    TickDominates(r.clock, now, r.peer, Stamp(r.clock.wall, r.clock.logical, r.peer));
  }

  // ---------------------------------------------------------------- one replica changes

  lemma EditedSees<I, V>(r: Replica<I, V>, r': Replica<I, V>, peers: set<nat>)
    requires Edited(r, r') && Seen(r) && From(r, peers) && r.peer in peers
    ensures Seen(r') && From(r', peers)
  {
    forall k | k in r'.entries ensures EntryBehind(r'.entries[k], r'.clock) && EntryFrom(r'.entries[k], peers) {
      assert EntryKeptOrNew(r'.entries[k], At(r.entries, k), Stamped(r'.clock, r.peer));
      if k in r.entries { assert EntryBehind(r.entries[k], r.clock) && EntryFrom(r.entries[k], peers); }
    }
  }

  /** A new stamp meets no equal one elsewhere. */
  lemma EditedAgrees<I, V>(w: World<I, V>, p: nat, r': Replica<I, V>, q: nat)
    requires Inv(w) && p in w && q in w && Edited(w[p], r')
    ensures Agree(r'.entries, w[q].entries)
  {
    assert Agree(w[p].entries, w[q].entries) && Own(w, p, q);
    forall k | k in r'.entries && k in w[q].entries ensures EntriesAgree(r'.entries[k], w[q].entries[k]) {
      var x := w[q].entries[k];
      assert EntryMinted(x, p, w[p].clock);
      assert EntryKeptOrNew(r'.entries[k], At(w[p].entries, k), Stamped(r'.clock, p));
      if k in w[p].entries { assert EntriesAgree(w[p].entries[k], x); }
    }
  }

  lemma AgreeSymmetric<I, V>(a: Entries<I, V>, b: Entries<I, V>)
    requires Agree(a, b)
    ensures Agree(b, a)
  {
    forall k | k in a && k in b ensures EntriesAgree(b[k], a[k]) { assert EntriesAgree(a[k], b[k]); }
  }

  /** Putting a replica in the world keeps the invariant when it fits with the ones that stay. */
  lemma PutOk<I, V>(w: World<I, V>, p: nat, r: Replica<I, V>)
    requires Inv(w) && r.peer == p && Seen(r) && From(r, w.Keys + {p})
    requires forall q :: q in w && q != p ==> Agree(r.entries, w[q].entries)
    requires forall q :: q in w && q != p ==> MintedBy(w[q].entries, p, r.clock) && MintedBy(r.entries, q, w[q].clock)
    requires MintedBy(r.entries, p, r.clock)
    ensures Inv(w[p := r])
  {
    var w' := w[p := r];
    forall q | q in w' ensures w'[q].peer == q && Seen(w'[q]) && From(w'[q], w'.Keys) {
      if q != p { FromMore(w[q], w.Keys, w'.Keys); }
    }
    forall a, b | a in w' && b in w' ensures Own(w', a, b) {
      if a != p && b != p { assert Own(w, a, b); }
    }
    forall a, b | a in w' && b in w' ensures Agree(w'[a].entries, w'[b].entries) {
      if a != p && b != p {
        assert Agree(w[a].entries, w[b].entries);
      } else if a != p {
        AgreeSymmetric(r.entries, w[a].entries);
      }
    }
  }

  ghost predicate MintedBy<I, V>(es: Entries<I, V>, p: nat, c: Clock) {
    forall k {:trigger es[k]} :: k in es ==> EntryMinted(es[k], p, c)
  }

  lemma FromMore<I, V>(r: Replica<I, V>, a: set<nat>, b: set<nat>)
    requires From(r, a) && a <= b
    ensures From(r, b)
  {
    forall k | k in r.entries ensures EntryFrom(r.entries[k], b) { assert EntryFrom(r.entries[k], a); }
  }

  lemma OwnIsMinted<I, V>(w: World<I, V>, p: nat, q: nat)
    requires Inv(w) && p in w && q in w
    ensures MintedBy(w[q].entries, p, w[p].clock)
  {
    assert Own(w, p, q);
  }

  lemma MintedLater<I, V>(es: Entries<I, V>, p: nat, c: Clock, c': Clock)
    requires MintedBy(es, p, c) && forall s :: Behind(s, c) ==> Behind(s, c')
    ensures MintedBy(es, p, c')
  {
    forall k | k in es ensures EntryMinted(es[k], p, c') { assert EntryMinted(es[k], p, c); }
  }

  lemma EditedMinted<I, V>(r: Replica<I, V>, r': Replica<I, V>, q: nat, c: Clock)
    requires Edited(r, r') && MintedBy(r.entries, q, c) && q != r.peer
    ensures MintedBy(r'.entries, q, c)
  {
    forall k | k in r'.entries ensures EntryMinted(r'.entries[k], q, c) {
      assert EntryKeptOrNew(r'.entries[k], At(r.entries, k), Stamped(r'.clock, r.peer));
      if k in r.entries { assert EntryMinted(r.entries[k], q, c); }
    }
  }

  lemma SeenIsMinted<I, V>(r: Replica<I, V>, p: nat)
    requires Seen(r)
    ensures MintedBy(r.entries, p, r.clock)
  {
    forall k | k in r.entries ensures EntryMinted(r.entries[k], p, r.clock) {
      assert EntryBehind(r.entries[k], r.clock);
    }
  }

  lemma LocalOk<I, V>(w: World<I, V>, p: nat, e: Edit<I, V>, now: int)
    requires Inv(w) && p in w
    ensures Inv(w[p := Apply(w[p], e, now)])
  {
    var r, r' := w[p], Apply(w[p], e, now);
    ApplyEdits(r, e, now);
    if r' == r {
      assert w[p := r'] == w;
    } else {
      assert w.Keys + {p} == w.Keys;
      EditedSees(r, r', w.Keys);
      SeenIsMinted(r', p);
      forall q | q in w && q != p
        ensures Agree(r'.entries, w[q].entries) && MintedBy(w[q].entries, p, r'.clock)
                && MintedBy(r'.entries, q, w[q].clock)
      {
        EditedAgrees(w, p, r', q);
        OwnIsMinted(w, p, q);
        MintedLater(w[q].entries, p, r.clock, r'.clock);
        OwnIsMinted(w, q, p);
        EditedMinted(r, r', q, w[q].clock);
      }
      PutOk(w, p, r');
    }
  }

  // ---------------------------------------------------------------- merges

  lemma JoinAgrees<I, V>(a: Entries<I, V>, b: Entries<I, V>, x: Entries<I, V>)
    requires Agree(a, x) && Agree(b, x)
    ensures Agree(JoinEntries(a, b), x)
  {
    var j := JoinEntries(a, b);
    forall k | k in j && k in x ensures EntriesAgree(j[k], x[k]) {
      if k in a { assert EntriesAgree(a[k], x[k]); }
      if k in b { assert EntriesAgree(b[k], x[k]); }
    }
  }

  lemma JoinMinted<I, V>(a: Entries<I, V>, b: Entries<I, V>, p: nat, c: Clock)
    requires MintedBy(a, p, c) && MintedBy(b, p, c)
    ensures MintedBy(JoinEntries(a, b), p, c)
  {
    var j := JoinEntries(a, b);
    forall k | k in j ensures EntryMinted(j[k], p, c) {
      if k in a { assert EntryMinted(a[k], p, c); }
      if k in b { assert EntryMinted(b[k], p, c); }
    }
  }

  lemma MergeFrom<I, V>(r: Replica<I, V>, o: Replica<I, V>, order: seq<I>, now: int, peers: set<nat>)
    requires From(r, peers) && From(o, peers)
    ensures From(Merge(r, o, order, now), peers)
  {
    var m := Merge(r, o, order, now);
    forall k | k in m.entries ensures EntryFrom(m.entries[k], peers) {
      if k in r.entries { assert EntryFrom(r.entries[k], peers); }
      if k in o.entries { assert EntryFrom(o.entries[k], peers); }
    }
  }

  lemma PullOk<I, V>(w: World<I, V>, p: nat, q: nat, order: seq<I>, now: int)
    requires Inv(w) && p in w && q in w && Members(order) == w[q].entries.Keys
    ensures Inv(w[p := Merge(w[p], w[q], order, now)])
  {
    var r, o := w[p], w[q];
    var m := Merge(r, o, order, now);
    assert w.Keys + {p} == w.Keys;
    MergeSees(r, o, order, now);
    MergeFrom(r, o, order, now, w.Keys);
    SeenIsMinted(m, p);
    forall s | Behind(s, r.clock) ensures Behind(s, m.clock) { ObserveAllGrows(r.clock, o.entries, order, now, s); }
    forall x | x in w && x != p
      ensures Agree(m.entries, w[x].entries) && MintedBy(w[x].entries, p, m.clock) && MintedBy(m.entries, x, w[x].clock)
    {
      assert Agree(w[p].entries, w[x].entries) && Agree(w[q].entries, w[x].entries);
      JoinAgrees(r.entries, o.entries, w[x].entries);
      OwnIsMinted(w, p, x);
      MintedLater(w[x].entries, p, r.clock, m.clock);
      OwnIsMinted(w, x, p);
      OwnIsMinted(w, x, q);
      JoinMinted(r.entries, o.entries, x, w[x].clock);
    }
    PutOk(w, p, m);
  }

  // ---------------------------------------------------------------- new replicas

  lemma NobodyMinted<I, V>(w: World<I, V>, p: nat, q: nat, c: Clock)
    requires Inv(w) && p !in w && q in w
    ensures MintedBy(w[q].entries, p, c)
  {
    forall k | k in w[q].entries ensures EntryMinted(w[q].entries[k], p, c) {
      assert EntryFrom(w[q].entries[k], w.Keys);
    }
  }

  lemma BranchOk<I, V>(w: World<I, V>, p: nat, q: nat)
    requires Inv(w) && p in w && q !in w
    ensures Inv(w[q := Fork(w[p], q)])
  {
    var r := Fork(w[p], q);
    assert Seen(r) by { forall k | k in r.entries ensures EntryBehind(r.entries[k],
           r.clock) { assert EntryBehind(w[p].entries[k], w[p].clock); } }
    FromMore(w[p], w.Keys, w.Keys + {q});
    assert From(r, w.Keys + {q}) by { forall k | k in r.entries ensures EntryFrom(r.entries[k],
           w.Keys + {q}) { assert EntryFrom(w[p].entries[k], w.Keys + {q}); } }
    SeenIsMinted(r, q);
    forall x | x in w && x != q
      ensures Agree(r.entries, w[x].entries) && MintedBy(w[x].entries, q, r.clock) && MintedBy(r.entries, x, w[x].clock)
    {
      assert Agree(w[p].entries, w[x].entries);
      NobodyMinted(w, q, x, r.clock);
      OwnIsMinted(w, x, p);
    }
    PutOk(w, q, r);
  }

  lemma StepOk<I, V>(w: World<I, V>, s: Step<I, V>)
    requires Inv(w) && Enabled(w, s)
    ensures Inv(Take(w, s))
  {
    match s
    case Start(p) =>
      forall x | x in w ensures MintedBy(w[x].entries, p, Clock(0, 0)) { NobodyMinted(w, p, x, Clock(0, 0)); }
      PutOk(w, p, New(p));
    case Local(p, e, now) => LocalOk(w, p, e, now);
    case Pull(p, q, order, now) => PullOk(w, p, q, order, now);
    case Branch(p, q) => BranchOk(w, p, q);
  }

  ghost predicate IsRun<I, V>(steps: seq<Step<I, V>>, worlds: seq<World<I, V>>) {
    && |worlds| == |steps| + 1 && worlds[0] == map[]
    && forall i :: 0 <= i < |steps| ==> Enabled(worlds[i], steps[i]) && worlds[i + 1] == Take(worlds[i], steps[i])
  }

  lemma {:induction false} RunOk<I, V>(steps: seq<Step<I, V>>, worlds: seq<World<I, V>>, n: nat)
    requires IsRun(steps, worlds) && n < |worlds|
    ensures Inv(worlds[n])
  {
    if n > 0 {
      RunOk(steps, worlds, n - 1);
      StepOk(worlds[n - 1], steps[n - 1]);
    }
  }

  // ---------------------------------------------------------------- results

  /** In every run a local change of a known element takes effect. */
  lemma EditsTakeEffect<I, V>(steps: seq<Step<I, V>>, worlds: seq<World<I, V>>, n: nat, p: nat, e: Edit<I, V>, now: int)
    requires IsRun(steps, worlds) && n < |worlds| && p in worlds[n] && e.id in worlds[n][p].entries && !e.InsertBetween?
    ensures var r := worlds[n][p];
            var x := Apply(r, e, now).entries[e.id];
            match e
            case SetValue(_, v) => x.value.value == v && x.position == r.entries[e.id].position
                && x.deleted == r.entries[e.id].deleted
            case MoveBetween(_, left, right) =>
              && x.position.value == PositionBetween(r, left, right)
              && x.value == r.entries[e.id].value && x.deleted == r.entries[e.id].deleted
            case Remove(_) =>
              x.deleted.value && x.value == r.entries[e.id].value && x.position == r.entries[e.id].position
            case InsertBetween(_, _, _, _) => true
  {
    RunOk(steps, worlds, n);
    var r := worlds[n][p];
    var x := r.entries[e.id];
    assert EntryBehind(x, r.clock);
    TickDominates(r.clock, now, p, x.value.stamp);
    TickDominates(r.clock, now, p, x.position.stamp);
    TickDominates(r.clock, now, p, x.deleted.stamp);
  }

  /** In every run merging is commutative, associative and idempotent on entries. */
  lemma MergesConverge<I, V>(steps: seq<Step<I, V>>, worlds: seq<World<I, V>>, n: nat, p: nat, q: nat, x: nat)
    requires IsRun(steps, worlds) && n < |worlds| && p in worlds[n] && q in worlds[n] && x in worlds[n]
    ensures var a, b, c := worlds[n][p].entries, worlds[n][q].entries, worlds[n][x].entries;
            && JoinEntries(a, b) == JoinEntries(b, a)
            && JoinEntries(JoinEntries(a, b), c) == JoinEntries(a, JoinEntries(b, c))
            && JoinEntries(a, a) == a && JoinEntries(JoinEntries(a, b), b) == JoinEntries(a, b)
  {
    RunOk(steps, worlds, n);
    var a, b, c := worlds[n][p].entries, worlds[n][q].entries, worlds[n][x].entries;
    assert Agree(worlds[n][p].entries, worlds[n][q].entries);
    JoinCommutes(a, b);
    JoinAssociates(a, b, c);
    JoinAssociates(a, b, b);
    JoinIdempotent(a);
    JoinIdempotent(b);
  }
}
