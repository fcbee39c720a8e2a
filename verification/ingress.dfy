/**
  Admission of sequenced envelopes into one scope: the generation fence, the reorder buffer, backpressure and the
  merged window.
 */
module Ingress {
  import opened Basics

  datatype Lifecycle = Opening | Live | Suspended | Closed

  datatype Overflow = Block | DropNewest | DropOldest | Conflate | Spill

  datatype Policy = Policy(reorderWindow: nat, freshnessHorizon: nat, highWater: nat, overflow: Overflow)

  datatype Envelope<T> = Envelope(generation: nat, sequence: nat, stampedAt: nat, payload: T)

  datatype Held<T> = Held(payload: T, stampedAt: nat)

  /** How a window value left: read by a drain, or thrown away. */
  datatype Left<T> = Drained(v: T) | Discarded(v: T)

  /**
    One scope.  `log` (the payloads merged under this generation), `left` (the values that left the window since) and
    `carried` (an older window kept across a generation change) are history variables.
   */
  datatype Scope<T> = Scope(lifecycle: Lifecycle, generation: nat, delivered: Option<nat>, stampedAt: nat,
                            pending: map<nat, Held<T>>, window: Option<T>, depth: nat, errors: nat, log: seq<T>,
                            left: seq<Left<T>>, carried: seq<T>)

  datatype Reason = ScopeClosed | StaleGeneration | Expired | DuplicateSequence | DuplicateBuffered
          | ReorderWindowOverflow | Backpressure

  datatype Decision = Refuse(reason: Reason) | Blocked | Buffered(gapFrom: nat)
          | Delivered(through: nat, conflated: bool, handoff: bool)

  function NewScope<T>(generation: nat): Scope<T> {
    Scope(Opening, generation, None, 0, map[], None, 0, 0, [], [], [])
  }

  function Next<T>(s: Scope<T>): nat {
    match s.delivered
    case None => 0
    case Some(d) => d + 1
  }

  function LiveOrOpening<T>(s: Scope<T>): Lifecycle {
    if s.delivered.Some? then Live else Opening
  }

  function Elapsed(now: nat, stamp: nat): nat {
    if now < stamp then 0 else now - stamp
  }

  function AsSeq<T>(o: Option<T>): seq<T> {
    match o
    case None => []
    case Some(v) => [v]
  }

  /** clearWindow, when the value is thrown away. */
  function ThrowAway<T>(s: Scope<T>): Scope<T> {
    s.(window := None, depth := 0, left := s.left + (if s.window.Some? then [Discarded(s.window.value)] else []))
  }

  /** The start of a generation: the sequence space begins again. */
  function Fence<T>(s: Scope<T>, generation: nat): Scope<T> {
    s.(generation := generation, delivered := None, pending := map[], window := None, depth := 0, log := [], left := [],
        carried := [])
  }

  function MergeInto<T>(merge: (T, T) -> T, s: Scope<T>, payload: T, stampedAt: nat): Scope<T> {
    s.(window := Some(if s.window.None? then payload else merge(s.window.value, payload)), depth := s.depth + 1,
       stampedAt := if stampedAt > s.stampedAt then stampedAt else s.stampedAt, log := s.log + [payload])
  }

  /** Merges the envelope that is expected next. */
  function Deliver<T>(merge: (T, T) -> T, s: Scope<T>, sequence: nat, payload: T, stampedAt: nat): Scope<T> {
    MergeInto(merge, s, payload, stampedAt).(delivered := Some(sequence))
  }

  /** The flush: buffered successors follow in sequence order. */
  function Flush<T>(merge: (T, T) -> T, s: Scope<T>): (r: Scope<T>)
    ensures s.delivered.Some? ==> r.delivered.Some?
    decreases |s.pending|
  {
    var next := Next(s);
    if next in s.pending then
      var h := s.pending[next];
      Flush(merge, Deliver(merge, s.(pending := s.pending - {next}), next, h.payload, h.stampedAt))
    else s
  }

  /** decide, steps 5 to 8: dedupe, ordering, backpressure, merge. */
  function Order<T>(merge: (T, T) -> T, policy: Policy, s: Scope<T>, e: Envelope<T>,
          handoff: bool): (Scope<T>, Decision) {
    var expected := Next(s);
    if e.sequence < expected then (s, Refuse(DuplicateSequence))
    else if e.sequence > expected then
      if e.sequence in s.pending then (s, Refuse(DuplicateBuffered))
      else if |s.pending| >= policy.reorderWindow then (s, Refuse(ReorderWindowOverflow))
      else (s.(pending := s.pending[e.sequence := Held(e.payload, e.stampedAt)]), Buffered(expected))
    else if s.depth >= policy.highWater && policy.overflow == Block then (s, Blocked)
    else if s.depth >= policy.highWater && policy.overflow == DropNewest then (s, Refuse(Backpressure))
    else
      var s0 := if s.depth >= policy.highWater && policy.overflow == DropOldest then ThrowAway(s) else s;
      var s1 := Deliver(merge, s0, e.sequence, e.payload, e.stampedAt).(lifecycle := Live, errors := 0);
      var s2 := Flush(merge, s1);
      (s2, Delivered(s2.delivered.value, s0.window.Some? || Next(s2) > Next(s1), handoff))
  }

  /** decide. */
  function Decide<T>(merge: (T, T) -> T, policy: Policy, now: nat, s: Scope<T>, e: Envelope<T>): (Scope<T>, Decision) {
    if s.lifecycle == Closed then (s, Refuse(ScopeClosed))
    else if e.generation < s.generation then (s, Refuse(StaleGeneration))
    else if Elapsed(now, e.stampedAt) > policy.freshnessHorizon then (s, Refuse(Expired))
    else if e.generation > s.generation then Order(merge, policy, Fence(s, e.generation), e, true)
    else Order(merge, policy, s, e, false)
  }

  datatype Event<T> =
    | Admit(e: Envelope<T>)
    | Drain
    | Tick(now: nat)
    | Suspend
    | Reconnect(generation: nat)
    | Open(generation: nat)
    | Close
    | Fail

  /** One key of the core: its scope, if it is tracked, and the logical clock. */
  datatype Core<T> = Core(now: nat, scope: Option<Scope<T>>)

  function Admitted<T>(merge: (T, T) -> T, policy: Policy, c: Core<T>, e: Envelope<T>): Core<T> {
    match c.scope
    case Some(s) => c.(scope := Some(Decide(merge, policy, c.now, s, e).0))
    case None =>
      var (s, d) := Decide(merge, policy, c.now, NewScope(e.generation), e);
      if d.Buffered? || d.Delivered? then c.(scope := Some(s)) else c
  }

  /** Drain: the window goes to the caller; the watermark stays. */
  function DrainScope<T>(s: Scope<T>): (Scope<T>, Option<T>) {
    match s.window
    case None => (s, None)
    case Some(v) => (s.(window := None, depth := 0, left := s.left + [Drained(v)]), Some(v))
  }

  function ReconnectScope<T>(s: Scope<T>, generation: nat): Scope<T> {
    var s1 := if generation > s.generation then Fence(s, generation) else s;
    s1.(lifecycle := LiveOrOpening(s1), errors := 0)
  }

  /** Open keeps an older generation's window when it moves the fence. */
  function OpenScope<T>(s: Scope<T>, generation: nat): Scope<T> {
    if s.lifecycle == Closed then NewScope(generation)
    else
      var s1 := s.(lifecycle := LiveOrOpening(s));
      if generation > s.generation then
        s1.(generation := generation, delivered := None, pending := map[], log := [], left := [],
            carried := AsSeq(s.window))
      else s1
  }

  function CloseScope<T>(s: Scope<T>): Scope<T> {
    if s.lifecycle == Closed then s else ThrowAway(s).(lifecycle := Closed, pending := map[], errors := 0)
  }

  function Step<T>(merge: (T, T) -> T, policy: Policy, c: Core<T>, ev: Event<T>): Core<T> {
    match ev
    case Admit(e) => Admitted(merge, policy, c, e)
    case Tick(now) => c.(now := now)
    case Open(g) => c.(scope := Some(if c.scope.None? then NewScope(g) else OpenScope(c.scope.value, g)))
    case Reconnect(g) => c.(scope := Some(ReconnectScope(if c.scope.None? then NewScope(g) else c.scope.value, g)))
    case Fail =>
      var s := if c.scope.None? then NewScope(0) else c.scope.value;
      c.(scope := Some(s.(errors := s.errors + 1)))
    case Drain => if c.scope.None? then c else c.(scope := Some(DrainScope(c.scope.value).0))
    case Suspend =>
      if c.scope.None? || c.scope.value.lifecycle == Suspended || c.scope.value.lifecycle == Closed then c
      else c.(scope := Some(c.scope.value.(lifecycle := Suspended)))
    case Close => if c.scope.None? then c else c.(scope := Some(CloseScope(c.scope.value)))
  }

  function Run<T>(merge: (T, T) -> T, policy: Policy, events: seq<Event<T>>): Core<T> {
    if events == [] then Core(0, None) else Step(merge, policy, Run(merge, policy, events[..|events| - 1]),
        events[|events| - 1])
  }

  // ---------------------------------------------------------------- order

  /** The producer of generation g says `payload(g, q)` under sequence q, however often it says it. */
  ghost predicate Truthful<T>(payload: (nat, nat) -> T, ev: Event<T>) {
    ev.Admit? ==> ev.e.payload == payload(ev.e.generation, ev.e.sequence)
  }

  /** The merged payloads are those of sequences 0 up to the watermark; what is held lies above the gap. */
  ghost predicate InOrder<T>(payload: (nat, nat) -> T, policy: Policy, s: Scope<T>) {
    && |s.log| == Next(s) && (forall i :: 0 <= i < |s.log| ==> s.log[i] == payload(s.generation, i))
    && (forall q :: q in s.pending ==> q > Next(s) && s.pending[q].payload == payload(s.generation, q))
    && |s.pending| <= policy.reorderWindow
  }

  function FirstPayloads<T>(payload: (nat, nat) -> T, generation: nat, n: nat): (r: seq<T>)
    ensures |r| == n && forall i :: 0 <= i < n ==> r[i] == payload(generation, i)
  {
    seq(n, i requires 0 <= i < n => payload(generation, i))
  }

  /** While the flush runs, the next envelope may be held too. */
  ghost predicate Flushing<T>(payload: (nat, nat) -> T, policy: Policy, s: Scope<T>) {
    && |s.log| == Next(s) && (forall i :: 0 <= i < |s.log| ==> s.log[i] == payload(s.generation, i))
    && (forall q :: q in s.pending ==> q >= Next(s) && s.pending[q].payload == payload(s.generation, q))
    && |s.pending| <= policy.reorderWindow
  }

  lemma {:induction false} FlushOrders<T>(payload: (nat, nat) -> T, merge: (T, T) -> T, policy: Policy, s: Scope<T>)
    requires Flushing(payload, policy, s)
    ensures InOrder(payload, policy, Flush(merge, s)) && Flush(merge, s).generation == s.generation
            && Next(s) <= Next(Flush(merge, s))
    decreases |s.pending|
  {
    var next := Next(s);
    if next in s.pending {
      var h := s.pending[next];
      var s1 := Deliver(merge, s.(pending := s.pending - {next}), next, h.payload, h.stampedAt);
      Shrinks(s.pending, next);
      FlushOrders(payload, merge, policy, s1);
    }
  }

  lemma Shrinks<K, V>(m: map<K, V>, k: K)
    requires k in m
    ensures |m - {k}| == |m| - 1
  {
    assert (m - {k}).Keys == m.Keys - {k};
    assert |m.Keys| == |m| && |(m - {k}).Keys| == |m - {k}|;
  }

  lemma Grows<K, V>(m: map<K, V>, k: K, v: V)
    requires k !in m
    ensures |m[k := v]| == |m| + 1
  {
    assert m[k := v].Keys == m.Keys + {k};
    assert |m.Keys| == |m| && |m[k := v].Keys| == |m[k := v]|;
  }

  lemma OrderOrders<T>(payload: (nat, nat) -> T, merge: (T, T) -> T, policy: Policy, s: Scope<T>, e: Envelope<T>,
          handoff: bool)
    requires InOrder(payload, policy, s) && e.generation == s.generation
             && e.payload == payload(e.generation, e.sequence)
    ensures InOrder(payload, policy, Order(merge, policy, s, e, handoff).0)
  {
    if e.sequence > Next(s) {
      if e.sequence !in s.pending { Grows(s.pending, e.sequence, Held(e.payload, e.stampedAt)); }
    } else if e.sequence == Next(s) {
      var s0 := if s.depth >= policy.highWater && policy.overflow == DropOldest then ThrowAway(s) else s;
      FlushOrders(payload, merge, policy, Deliver(merge, s0, e.sequence, e.payload, e.stampedAt).(lifecycle := Live,
          errors := 0));
    }
  }

  lemma StepOrders<T>(payload: (nat, nat) -> T, merge: (T, T) -> T, policy: Policy, c: Core<T>, ev: Event<T>)
    requires Truthful(payload, ev) && (c.scope.Some? ==> InOrder(payload, policy, c.scope.value))
    ensures var c' := Step(merge, policy, c, ev); c'.scope.Some? ==> InOrder(payload, policy, c'.scope.value)
  {
    if ev.Admit? {
      var s := if c.scope.None? then NewScope(ev.e.generation) else c.scope.value;
      if ev.e.generation == s.generation {
        OrderOrders(payload, merge, policy, s, ev.e, false);
      } else if ev.e.generation > s.generation {
        OrderOrders(payload, merge, policy, Fence(s, ev.e.generation), ev.e, true);
      }
    }
  }

  /**
    Whatever the order and repetition of arrivals, and whatever else happens to the scope, the payloads merged under the
    current generation are those of sequences 0, 1, ... up to the watermark, once each and in that order; everything
    held lies above the gap, and no more is held than the reorder window allows.
   */
  lemma {:induction false} MergesInOrder<T>(payload: (nat, nat) -> T, merge: (T, T) -> T, policy: Policy,
          events: seq<Event<T>>)
    requires forall ev :: ev in events ==> Truthful(payload, ev)
    ensures var c := Run(merge, policy, events); c.scope.Some? ==> InOrder(payload, policy, c.scope.value)
    decreases |events|
  {
    if events != [] {
      assert forall ev :: ev in events[..|events| - 1] ==> ev in events;
      MergesInOrder(payload, merge, policy, events[..|events| - 1]);
      StepOrders(payload, merge, policy, Run(merge, policy, events[..|events| - 1]), events[|events| - 1]);
    }
  }

  // ---------------------------------------------------------------- what the window means

  ghost predicate Associative<T(!new)>(merge: (T, T) -> T) {
    forall a, b, c :: merge(merge(a, b), c) == merge(a, merge(b, c))
  }

  /** The fold of a nonempty list of payloads. */
  function Fold<T>(merge: (T, T) -> T, ts: seq<T>): Option<T> {
    if ts == [] then None
    else
      match Fold(merge, ts[..|ts| - 1])
      case None => Some(ts[|ts| - 1])
      case Some(v) => Some(merge(v, ts[|ts| - 1]))
  }

  function Values<T>(left: seq<Left<T>>): (r: seq<T>)
    ensures |r| == |left|
  {
    seq(|left|, i requires 0 <= i < |left| => left[i].v)
  }

  lemma FoldMore<T>(merge: (T, T) -> T, ts: seq<T>, t: T)
    ensures Fold(merge, ts + [t]) == if Fold(merge, ts).None? then Some(t) else Some(merge(Fold(merge, ts).value, t))
  {
    assert (ts + [t])[..|ts|] == ts;
  }

  lemma ValuesMore<T>(left: seq<Left<T>>, l: Left<T>)
    ensures Values(left + [l]) == Values(left) + [l.v]
  {
  }

  /** What left the window, then the window, folds to what was carried over followed by everything merged since. */
  ghost predicate Conserved<T>(merge: (T, T) -> T, s: Scope<T>) {
    Fold(merge, Values(s.left) + AsSeq(s.window)) == Fold(merge, s.carried + s.log)
  }

  lemma DeliverConserves<T(!new)>(merge: (T, T) -> T, s: Scope<T>, sequence: nat, payload: T, stampedAt: nat)
    requires Associative(merge) && Conserved(merge, s)
    ensures Conserved(merge, Deliver(merge, s, sequence, payload, stampedAt))
  {
    var a := Values(s.left);
    FoldMore(merge, s.carried + s.log, payload);
    assert s.carried + (s.log + [payload]) == (s.carried + s.log) + [payload];
    match s.window
    case None =>
      assert a + AsSeq(s.window) == a;
      FoldMore(merge, a, payload);
    case Some(w) =>
      FoldMore(merge, a, w);
      FoldMore(merge, a, merge(w, payload));
  }

  lemma {:induction false} FlushConserves<T(!new)>(merge: (T, T) -> T, s: Scope<T>)
    requires Associative(merge) && Conserved(merge, s)
    ensures Conserved(merge, Flush(merge, s))
    decreases |s.pending|
  {
    var next := Next(s);
    if next in s.pending {
      var h := s.pending[next];
      var s0 := s.(pending := s.pending - {next});
      Shrinks(s.pending, next);
      DeliverConserves(merge, s0, next, h.payload, h.stampedAt);
      FlushConserves(merge, Deliver(merge, s0, next, h.payload, h.stampedAt));
    }
  }

  /** Moving the window to the values that left keeps the account. */
  lemma LeavingConserves<T>(merge: (T, T) -> T, s: Scope<T>, l: Left<T>)
    requires Conserved(merge, s) && s.window == Some(l.v)
    ensures Conserved(merge, s.(window := None, depth := 0, left := s.left + [l]))
  {
    ValuesMore(s.left, l);
    assert Values(s.left) + [l.v] + AsSeq<T>(None) == Values(s.left) + AsSeq(s.window);
  }

  lemma ThrowAwayConserves<T>(merge: (T, T) -> T, s: Scope<T>)
    requires Conserved(merge, s)
    ensures Conserved(merge, ThrowAway(s))
  {
    if s.window.Some? {
      LeavingConserves(merge, s, Discarded(s.window.value));
    } else {
      assert s.left + [] == s.left;
    }
  }

  lemma OrderConserves<T(!new)>(merge: (T, T) -> T, policy: Policy, s: Scope<T>, e: Envelope<T>, handoff: bool)
    requires Associative(merge) && Conserved(merge, s)
    ensures Conserved(merge, Order(merge, policy, s, e, handoff).0)
  {
    if e.sequence == Next(s) {
      ThrowAwayConserves(merge, s);
      var s0 := if s.depth >= policy.highWater && policy.overflow == DropOldest then ThrowAway(s) else s;
      DeliverConserves(merge, s0, e.sequence, e.payload, e.stampedAt);
      FlushConserves(merge, Deliver(merge, s0, e.sequence, e.payload, e.stampedAt).(lifecycle := Live, errors := 0));
    }
  }

  lemma StepConserves<T(!new)>(merge: (T, T) -> T, policy: Policy, c: Core<T>, ev: Event<T>)
    requires Associative(merge) && (c.scope.Some? ==> Conserved(merge, c.scope.value))
    ensures var c' := Step(merge, policy, c, ev); c'.scope.Some? ==> Conserved(merge, c'.scope.value)
  {
    BlankConserves(merge, 0);
    match ev
    case Admit(e) =>
      var s := if c.scope.None? then NewScope(e.generation) else c.scope.value;
      BlankConserves(merge, e.generation);
      AdmitConserves(merge, policy, c.now, s, e);
    case Drain =>
      if c.scope.Some? && c.scope.value.window.Some? {
        LeavingConserves(merge, c.scope.value, Drained(c.scope.value.window.value));
      }
    case Close => if c.scope.Some? { ThrowAwayConserves(merge, c.scope.value); }
    case Open(g) =>
      BlankConserves(merge, g);
      if c.scope.Some? { OpenConserves(merge, c.scope.value, g); }
    case Reconnect(g) =>
      BlankConserves(merge, g);
      if c.scope.Some? { FenceConserves(merge, c.scope.value, g); }
    case _ =>
  }

  lemma BlankConserves<T>(merge: (T, T) -> T, generation: nat)
    ensures Conserved(merge, NewScope(generation))
  {
    var s: Scope<T> := NewScope(generation);
    assert Values(s.left) + AsSeq(s.window) == [] && s.carried + s.log == [];
  }

  lemma FenceConserves<T>(merge: (T, T) -> T, s: Scope<T>, generation: nat)
    ensures Conserved(merge, Fence(s, generation))
  {
    var t := Fence(s, generation);
    assert Values(t.left) + AsSeq(t.window) == [] && t.carried + t.log == [];
  }

  lemma AdmitConserves<T(!new)>(merge: (T, T) -> T, policy: Policy, now: nat, s: Scope<T>, e: Envelope<T>)
    requires Associative(merge) && Conserved(merge, s)
    ensures Conserved(merge, Decide(merge, policy, now, s, e).0)
  {
    if e.generation > s.generation {
      FenceConserves(merge, s, e.generation);
      OrderConserves(merge, policy, Fence(s, e.generation), e, true);
    } else {
      OrderConserves(merge, policy, s, e, false);
    }
  }

  lemma OpenConserves<T>(merge: (T, T) -> T, s: Scope<T>, generation: nat)
    requires Conserved(merge, s)
    ensures Conserved(merge, OpenScope(s, generation))
  {
    BlankConserves(merge, generation);
    assert Values<T>([]) + AsSeq(s.window) == AsSeq(s.window) && AsSeq(s.window) + [] == AsSeq(s.window);
  }

  /**
    Conservation.  For an associative merge, the values that left the window followed by the window fold to what a
    generation change carried over followed by the in-order payloads, in every run and under every overflow policy.
   */
  lemma {:induction false} WindowIsFold<T(!new)>(merge: (T, T) -> T, policy: Policy, events: seq<Event<T>>)
    requires Associative(merge)
    ensures var c := Run(merge, policy, events); c.scope.Some? ==> Conserved(merge, c.scope.value)
    decreases |events|
  {
    if events != [] {
      WindowIsFold(merge, policy, events[..|events| - 1]);
      StepConserves(merge, policy, Run(merge, policy, events[..|events| - 1]), events[|events| - 1]);
    }
  }

  // ---------------------------------------------------------------- nothing lost

  /** Everything that left the window was drained, and no older window is mixed in. */
  ghost predicate Intact<T>(c: Core<T>) {
    c.scope.Some? ==> c.scope.value.carried == [] && forall l :: l in c.scope.value.left ==> l.Drained?
  }

  /** The sequence space begins again with an empty window. */
  predicate Restarts<T>(policy: Policy, c: Core<T>, ev: Event<T>) {
    c.scope.None? ||
    var s := c.scope.value;
    match ev
    case Admit(e) => s.lifecycle != Closed && e.generation > s.generation
        && Elapsed(c.now, e.stampedAt) <= policy.freshnessHorizon
    case Reconnect(g) => g > s.generation
    case Open(g) => s.lifecycle == Closed || (g > s.generation && s.window.None?)
    case _ => false
  }

  /**
    The event loses an undrained window: Open moves the fence under it, Close throws it away, or it is the oldest when
    DropOldest makes room.
   */
  predicate Loses<T>(policy: Policy, c: Core<T>, ev: Event<T>) {
    c.scope.Some? && c.scope.value.window.Some? && c.scope.value.lifecycle != Closed &&
    var s := c.scope.value;
    match ev
    case Open(g) => g > s.generation
    case Close => true
    case Admit(e) =>
      && policy.overflow == DropOldest && s.depth >= policy.highWater
      && e.generation == s.generation && e.sequence == Next(s) && Elapsed(c.now, e.stampedAt) <= policy.freshnessHorizon
    case _ => false
  }

  /** Nothing was lost since the sequence space last began. */
  predicate Careful<T>(merge: (T, T) -> T, policy: Policy, events: seq<Event<T>>) {
    events == [] ||
    var before, ev := events[..|events| - 1], events[|events| - 1];
    var c := Run(merge, policy, before);
    Restarts(policy, c, ev) || (Careful(merge, policy, before) && !Loses(policy, c, ev))
  }

  lemma {:induction false} FlushKeepsAccount<T>(merge: (T, T) -> T, s: Scope<T>)
    ensures var r := Flush(merge, s);
            r.left == s.left && r.carried == s.carried && r.generation == s.generation && Next(r) >= Next(s)
    decreases |s.pending|
  {
    var next := Next(s);
    if next in s.pending {
      var h := s.pending[next];
      Shrinks(s.pending, next);
      FlushKeepsAccount(merge, Deliver(merge, s.(pending := s.pending - {next}), next, h.payload, h.stampedAt));
    }
  }

  lemma OrderAccount<T>(merge: (T, T) -> T, policy: Policy, s: Scope<T>, e: Envelope<T>, handoff: bool)
    ensures var drops := e.sequence == Next(s) && s.depth >= policy.highWater && policy.overflow == DropOldest;
            var r := Order(merge, policy, s, e, handoff).0;
            && r.carried == s.carried && r.generation == s.generation && Next(r) >= Next(s)
            && r.left == if drops && s.window.Some? then s.left + [Discarded(s.window.value)] else s.left
  {
    if e.sequence == Next(s) {
      var s0 := if s.depth >= policy.highWater && policy.overflow == DropOldest then ThrowAway(s) else s;
      FlushKeepsAccount(merge, Deliver(merge, s0, e.sequence, e.payload, e.stampedAt).(lifecycle := Live, errors := 0));
    }
  }

  /** What an event that does not restart adds to the account, unless it is an Open that moves the fence. */
  ghost predicate Follows<T>(s: Scope<T>, s': Scope<T>, loses: bool) {
    && s'.carried == s.carried && s'.generation == s.generation && Next(s') >= Next(s)
    && if loses then s.window.Some? && s'.left == s.left + [Discarded(s.window.value)]
       else s'.left == s.left || (s.window.Some? && s'.left == s.left + [Drained(s.window.value)])
  }

  lemma AdmitAccount<T>(merge: (T, T) -> T, policy: Policy, c: Core<T>, e: Envelope<T>)
    requires c.scope.Some?
    ensures var s' := Decide(merge, policy, c.now, c.scope.value, e).0;
            if Restarts(policy, c, Admit(e)) then s'.carried == [] && s'.left == []
            else Follows(c.scope.value, s', Loses(policy, c, Admit(e)))
  {
    OrderAccount(merge, policy, c.scope.value, e, false);
    OrderAccount(merge, policy, Fence(c.scope.value, e.generation), e, true);
  }

  lemma FirstAccount<T>(merge: (T, T) -> T, policy: Policy, c: Core<T>, ev: Event<T>)
    requires c.scope.None?
    ensures Intact(Step(merge, policy, c, ev))
  {
    if ev.Admit? { OrderAccount(merge, policy, NewScope(ev.e.generation), ev.e, false); }
  }

  /** The account after an event: begun again, or the old one with at most one more entry. */
  lemma StepAccount<T>(merge: (T, T) -> T, policy: Policy, c: Core<T>, ev: Event<T>)
    ensures var c' := Step(merge, policy, c, ev);
            if Restarts(policy, c, ev) then Intact(c')
            else if Loses(policy, c, ev) && ev.Open? then c'.scope.Some? && c'.scope.value.carried != []
            else c'.scope.Some? && Follows(c.scope.value, c'.scope.value, Loses(policy, c, ev))
  {
    if c.scope.None? {
      FirstAccount(merge, policy, c, ev);
    } else if ev.Admit? {
      AdmitAccount(merge, policy, c, ev.e);
    }
  }

  /** Exactly the events that restart, or lose nothing from an intact scope, lead to an intact scope. */
  lemma StepIntact<T>(merge: (T, T) -> T, policy: Policy, c: Core<T>, ev: Event<T>)
    ensures Intact(Step(merge, policy, c, ev)) <==> Restarts(policy, c, ev) || (Intact(c) && !Loses(policy, c, ev))
  {
    StepAccount(merge, policy, c, ev);
    if !Restarts(policy, c, ev) && !(Loses(policy, c, ev) && ev.Open?) {
      var left, left' := c.scope.value.left, Step(merge, policy, c, ev).scope.value.left;
      if left' != left { assert left' == left + [left'[|left|]] && left'[|left|] in left'; }
    }
  }

  /** The same over whole runs. */
  lemma {:induction false} IntactIsCareful<T>(merge: (T, T) -> T, policy: Policy, events: seq<Event<T>>)
    ensures Intact(Run(merge, policy, events)) <==> Careful(merge, policy, events)
    decreases |events|
  {
    if events != [] {
      IntactIsCareful(merge, policy, events[..|events| - 1]);
      StepIntact(merge, policy, Run(merge, policy, events[..|events| - 1]), events[|events| - 1]);
    }
  }

  /**
    Order independence.  If no event since the sequence space last began lost an undrained window, the drained values
    followed by the window fold to the in-order fold of sequences 0 up to the watermark.  Opening, closing, suspending
    and reconnecting are allowed, and so is every overflow policy.
   */
  lemma DrainsFoldInOrder<T(!new)>(payload: (nat, nat) -> T, merge: (T, T) -> T, policy: Policy, events: seq<Event<T>>)
    requires Associative(merge) && (forall ev :: ev in events ==> Truthful(payload, ev))
             && Careful(merge, policy, events)
    ensures var c := Run(merge, policy, events);
            c.scope.Some? ==>
              var s := c.scope.value;
              && (forall l :: l in s.left ==> l.Drained?)
              && Fold(merge, Values(s.left) + AsSeq(s.window))
                  == Fold(merge, FirstPayloads(payload, s.generation, Next(s)))
  {
    var c := Run(merge, policy, events);
    MergesInOrder(payload, merge, policy, events);
    WindowIsFold(merge, policy, events);
    IntactIsCareful(merge, policy, events);
    if c.scope.Some? {
      var s := c.scope.value;
      assert s.carried + s.log == s.log;
      assert s.log == FirstPayloads(payload, s.generation, Next(s));
    }
  }

  // ---------------------------------------------------------------- what a lost window means

  lemma RunMore<T>(merge: (T, T) -> T, policy: Policy, events: seq<Event<T>>, ev: Event<T>)
    ensures Run(merge, policy, events + [ev]) == Step(merge, policy, Run(merge, policy, events), ev)
  {
    assert (events + [ev])[..|events|] == events;
  }

  /**
    Open at a newer generation keeps an undrained window: in any run, under any merge and policy, the first payload of
    the new generation is merged into the window of the old one, although it is the only payload of its sequence space.
   */
  lemma OpenKeepsOldWindow<T>(merge: (T, T) -> T, policy: Policy, events: seq<Event<T>>, g: nat, e: Envelope<T>)
    requires var c := Run(merge, policy, events);
             && c.scope.Some? && c.scope.value.lifecycle != Closed && c.scope.value.window.Some?
             && g > c.scope.value.generation
             && e.generation == g && e.sequence == 0 && Elapsed(c.now, e.stampedAt) <= policy.freshnessHorizon
             && c.scope.value.depth < policy.highWater
    ensures var w := Run(merge, policy, events).scope.value.window.value;
            var c := Run(merge, policy, events + [Open(g)] + [Admit(e)]);
            && c.scope.Some? && c.scope.value.generation == g && c.scope.value.log == [e.payload]
            && c.scope.value.window == Some(merge(w, e.payload))
    ensures !Careful(merge, policy, events + [Open(g)] + [Admit(e)])
  {
    RunMore(merge, policy, events, Open(g));
    RunMore(merge, policy, events + [Open(g)], Admit(e));
    IntactIsCareful(merge, policy, events + [Open(g)] + [Admit(e)]);
  }

  /** No event of `more` moves the fence. */
  predicate SameFence<T>(merge: (T, T) -> T, policy: Policy, events: seq<Event<T>>, more: seq<Event<T>>) {
    more == [] ||
    var before, ev := more[..|more| - 1], more[|more| - 1];
    && SameFence(merge, policy, events, before) && !Restarts(policy, Run(merge, policy, events + before), ev)
    && !(ev.Open? && Loses(policy, Run(merge, policy, events + before), ev))
  }

  ghost predicate Extends<T>(s: Scope<T>, s': Scope<T>) {
    s.left <= s'.left && s'.generation == s.generation && Next(s') >= Next(s)
  }

  lemma FollowsExtends<T>(s: Scope<T>, s1: Scope<T>, s2: Scope<T>, loses: bool)
    requires Extends(s, s1) && Follows(s1, s2, loses)
    ensures Extends(s, s2)
  {
  }

  lemma {:induction false} AccountStays<T>(merge: (T, T) -> T, policy: Policy, events: seq<Event<T>>,
          more: seq<Event<T>>)
    requires Run(merge, policy, events).scope.Some? && SameFence(merge, policy, events, more)
    ensures var c, c' := Run(merge, policy, events), Run(merge, policy, events + more);
            c'.scope.Some? && Extends(c.scope.value, c'.scope.value)
    decreases |more|
  {
    if more == [] {
      assert events + more == events;
    } else {
      var before, ev := more[..|more| - 1], more[|more| - 1];
      AccountStays(merge, policy, events, before);
      assert events + more == (events + before) + [ev];
      var c := Run(merge, policy, events + before);
      RunMore(merge, policy, events + before, ev);
      StepAccount(merge, policy, c, ev);
      FollowsExtends(Run(merge, policy, events).scope.value, c.scope.value, Step(merge, policy, c, ev).scope.value,
          Loses(policy, c, ev));
    }
  }

  /**
    Reconnect at the same or an older generation brings a closed scope back with its watermark but without the window
    that Close threw away.  What the window held was never drained, never will be, and cannot be sent again: until the
    fence moves, an envelope at or below the watermark of that moment is a duplicate.
   */
  lemma ReviveLosesWindow<T>(merge: (T, T) -> T, policy: Policy, events: seq<Event<T>>, g: nat, more: seq<Event<T>>,
          e: Envelope<T>)
    requires var c := Run(merge, policy, events);
             && c.scope.Some? && c.scope.value.lifecycle != Closed && c.scope.value.window.Some?
             && g <= c.scope.value.generation
             && e.generation == c.scope.value.generation && e.sequence < Next(c.scope.value)
    requires SameFence(merge, policy, events + [Close] + [Reconnect(g)], more)
    ensures var s0 := Run(merge, policy, events).scope.value;
            var c1 := Run(merge, policy, events + [Close] + [Reconnect(g)]);
            var c := Run(merge, policy, events + [Close] + [Reconnect(g)] + more);
            && c1.scope.Some? && c1.scope.value.lifecycle != Closed && Next(c1.scope.value) == Next(s0)
            && c1.scope.value.window.None?
            && c.scope.Some? && s0.left + [Discarded(s0.window.value)] <= c.scope.value.left
            && !Decide(merge, policy, c.now, c.scope.value, e).1.Delivered?
            && !Careful(merge, policy, events + [Close] + [Reconnect(g)] + more)
  {
    var s0 := Run(merge, policy, events).scope.value;
    var base := events + [Close] + [Reconnect(g)];
    RunMore(merge, policy, events, Close);
    RunMore(merge, policy, events + [Close], Reconnect(g));
    AccountStays(merge, policy, base, more);
    IntactIsCareful(merge, policy, base + more);
    var left := Run(merge, policy, base + more).scope.value.left;
    assert left[|s0.left|] == Discarded(s0.window.value) && left[|s0.left|] in left;
  }

  // ---------------------------------------------------------------- the object

  class IngressScope<T> {
    var lifecycle: Lifecycle
    var generation: nat
    var delivered: Option<nat>
    var stampedAt: nat
    var pending: map<nat, Held<T>>
    var window: Option<T>
    var depth: nat
    var errors: nat
    ghost var log: seq<T>
    ghost var left: seq<Left<T>>
    ghost var carried: seq<T>

    ghost function Model(): Scope<T>
      reads this
    {
      Scope(lifecycle, generation, delivered, stampedAt, pending, window, depth, errors, log, left, carried)
    }

    constructor (generation: nat)
      ensures Model() == NewScope(generation)
    {
      lifecycle, this.generation, delivered, stampedAt, pending := Opening, generation, None, 0, map[];
      window, depth, errors, log, left, carried := None, 0, 0, [], [], [];
    }

    method Merge(merge: (T, T) -> T, payload: T, stamp: nat) returns (conflated: bool)
      modifies this`window, this`depth, this`stampedAt, this`log
      ensures Model() == MergeInto(merge, old(Model()), payload, stamp) && conflated == old(window).Some?
    {
      conflated := window.Some?;
      window := Some(if conflated then merge(window.value, payload) else payload);
      depth := depth + 1;
      if stamp > stampedAt { stampedAt := stamp; }
      log := log + [payload];
    }

    /** decide, with the flush as the loop it is. */
    method Admit(merge: (T, T) -> T, policy: Policy, now: nat, e: Envelope<T>) returns (d: Decision)
      modifies this
      ensures (Model(), d) == Decide(merge, policy, now, old(Model()), e)
    {
      if lifecycle == Closed { return Refuse(ScopeClosed); }
      if e.generation < generation { return Refuse(StaleGeneration); }
      if Elapsed(now, e.stampedAt) > policy.freshnessHorizon { return Refuse(Expired); }
      var handoff := e.generation > generation;
      if handoff {
        generation, delivered, pending, window, depth := e.generation, None, map[], None, 0;
        log, left, carried := [], [], [];
      }
      d := Sequence(merge, policy, e, handoff);
    }

    method Sequence(merge: (T, T) -> T, policy: Policy, e: Envelope<T>, handoff: bool) returns (d: Decision)
      modifies this
      ensures (Model(), d) == Order(merge, policy, old(Model()), e, handoff)
    {
      var expected := if delivered.None? then 0 else delivered.value + 1;
      if e.sequence < expected { return Refuse(DuplicateSequence); }
      if e.sequence > expected {
        if e.sequence in pending { return Refuse(DuplicateBuffered); }
        if |pending| >= policy.reorderWindow { return Refuse(ReorderWindowOverflow); }
        pending := pending[e.sequence := Held(e.payload, e.stampedAt)];
        return Buffered(expected);
      }
      if depth >= policy.highWater {
        match policy.overflow
        case Block => return Blocked;
        case DropNewest => return Refuse(Backpressure);
        case DropOldest =>
          left := left + (if window.Some? then [Discarded(window.value)] else []);
          window, depth := None, 0;
        case _ =>
      }
      d := MergeAndFlush(merge, e, handoff);
    }

    /** decide, step 8. */
    method MergeAndFlush(merge: (T, T) -> T, e: Envelope<T>, handoff: bool) returns (d: Decision)
      modifies this
      ensures var s1 := Deliver(merge, old(Model()), e.sequence, e.payload, e.stampedAt).(lifecycle := Live,
              errors := 0);
              && Model() == Flush(merge, s1) && delivered.Some?
              && d == Delivered(delivered.value, old(window).Some? || Next(Model()) > Next(s1), handoff)
    {
      var conflated := Merge(merge, e.payload, e.stampedAt);
      delivered, lifecycle, errors := Some(e.sequence), Live, 0;
      var flushed := FlushHeld(merge);
      d := Delivered(delivered.value, conflated || flushed, handoff);
    }

    method FlushHeld(merge: (T, T) -> T) returns (flushed: bool)
      requires delivered.Some? && window.Some?
      modifies this
      ensures Model() == Flush(merge, old(Model())) && delivered.Some?
      ensures flushed <==> Next(Model()) > Next(old(Model()))
    {
      flushed := false;
      var next := delivered.value + 1;
      while next in pending
        invariant delivered.Some? && window.Some? && next == Next(Model())
        invariant Flush(merge, Model()) == Flush(merge, old(Model()))
        invariant Next(old(Model())) <= next && (flushed <==> next > Next(old(Model())))
        decreases |pending|
      {
        var h := pending[next];
        pending := pending - {next};
        var conflated := Merge(merge, h.payload, h.stampedAt);
        flushed := flushed || conflated;
        delivered := Some(next);
        next := next + 1;
      }
    }
  }
}
