/**
  The command projection: a fold over submits, events, cancels and receipts, and the image a reconnect rebuilds it
  from.
 */
module CommandPlane {
  import opened Basics

  datatype Status = Submitted | Accepted | Running | Applied | Rejected | Cancelled | Superseded | TimedOut

  datatype EventKind = ObservedEvent | AcceptedEvent | StartedEvent | ProgressEvent | CancelledEvent | SupersededEvent
          | TimedOutEvent

  datatype Outcome = ObservedOutcome | AcceptedOutcome | AppliedOutcome | RejectedOutcome

  datatype Event = Event(id: string, command: string, kind: EventKind, generation: int)

  datatype Receipt = Receipt(id: string, causation: string, generation: nat, outcome: Outcome, reason: Option<string>)

  datatype Entry = Entry(status: Status, terminal: bool, generation: int, reason: Option<string>,
          receipt: Option<string>, lastEvent: Option<string>)

  datatype Projection = Projection(generation: int, entries: map<string, Entry>, seenEvents: set<string>,
                                   seenReceipts: set<string>, seenCancels: set<string>, conflicts: set<string>)

  datatype Frame = Submit(command: string, generation: int) | Happen(e: Event)
          | Cancel(command: string, causation: string, generation: int) | Observe(r: Receipt)

  datatype Image = Image(generation: int, commands: map<string, Entry>)

  function NewProjection(): Projection {
    Projection(0, map[], {}, {}, {}, {})
  }

  function Max(a: int, b: int): int {
    if a < b then b else a
  }

  /** phaseRank. */
  function Rank(s: Status): nat {
    match s
    case Submitted => 0
    case Accepted => 1
    case Running => 2
    case _ => 3
  }

  /** progressStatusOf. */
  function Progress(k: EventKind): Option<Status> {
    match k
    case ObservedEvent => Some(Accepted)
    case AcceptedEvent => Some(Accepted)
    case StartedEvent => Some(Running)
    case ProgressEvent => Some(Running)
    case _ => None
  }

  predicate IsTerminal(o: Outcome) {
    o == AppliedOutcome || o == RejectedOutcome
  }

  /** terminalStatusOf. */
  function TerminalStatus(o: Outcome, reason: Option<string>): Status {
    if o == AppliedOutcome then Applied
    else if o == RejectedOutcome then
      if reason == Some("cancelled") then Cancelled
      else if reason == Some("superseded") then Superseded
      else if reason == Some("timed_out") then TimedOut
      else Rejected
    else Accepted
  }

  // ---------------------------------------------------------------- the fold

  function Advanced(x: Entry, next: Option<Status>): Entry {
    if next.Some? && !x.terminal && Rank(next.value) >= Rank(x.status) then x.(status := next.value) else x
  }

  function FoldEvent(p: Projection, e: Event): Projection {
    if e.id in p.seenEvents || e.command !in p.entries || e.generation != p.entries[e.command].generation then p
    else
      p.(seenEvents := p.seenEvents + {e.id},
         entries := p.entries[e.command := Advanced(p.entries[e.command].(lastEvent := Some(e.id)), Progress(e.kind))])
  }

  function FoldReceipt(p: Projection, r: Receipt): Projection {
    if r.id in p.seenReceipts || r.causation !in p.entries || p.entries[r.causation].generation != r.generation then p
    else
      var x := p.entries[r.causation];
      if !IsTerminal(r.outcome) then
        p.(seenReceipts := p.seenReceipts + {r.id}, entries := p.entries[r.causation := Advanced(x, Some(Accepted))])
      else
        var incoming := TerminalStatus(r.outcome, r.reason);
        if x.terminal then
          if x.status == incoming then p.(seenReceipts := p.seenReceipts + {r.id})
          else p.(conflicts := p.conflicts + {r.causation})
        else
          p.(seenReceipts := p.seenReceipts + {r.id},
             entries := p.entries[r.causation := x.(terminal := true, status := incoming, reason := r.reason,
                 receipt := Some(r.id))])
  }

  function FoldFrame(p: Projection, f: Frame): Projection {
    match f
    case Submit(c, g) =>
      if c in p.entries then p
      else p.(generation := Max(p.generation, g),
          entries := p.entries[c := Entry(Submitted, false, g, None, None, None)])
    case Happen(e) => FoldEvent(p, e)
    case Cancel(c, causation, g) =>
      if causation in p.seenCancels || c !in p.entries || g != p.entries[c].generation then p
      else p.(seenCancels := p.seenCancels + {causation})
    case Observe(r) => FoldReceipt(p, r)
  }

  /** What a call reports. */
  datatype Verdict = Recorded | Duplicate | Unknown | StaleGeneration(expected: int, actual: int)
          | TerminalConflict(existing: Status, incoming: Status)

  const MAX_INT64: int := 0x7fff_ffff_ffff_ffff

  /** receiptGenerationInt64. */
  function Saturated(g: nat): int {
    if g > MAX_INT64 then MAX_INT64 else g
  }

  function Fenced(p: Projection, seen: bool, c: string, matches: bool, actual: int): Option<Verdict> {
    if seen then Some(Duplicate)
    else if c !in p.entries then Some(Unknown)
    else if !matches then Some(StaleGeneration(p.entries[c].generation, actual))
    else None
  }

  function VerdictOf(p: Projection, f: Frame): Verdict {
    match f
    case Submit(c, _) => if c in p.entries then Duplicate else Recorded
    case Happen(e) =>
      var v := Fenced(p, e.id in p.seenEvents, e.command, e.command in p.entries
          && e.generation == p.entries[e.command].generation, e.generation);
      if v.Some? then v.value else Recorded
    case Cancel(c, causation, g) =>
      var v := Fenced(p, causation in p.seenCancels, c, c in p.entries && g == p.entries[c].generation, g);
      if v.Some? then v.value else Recorded
    case Observe(r) =>
      var v := Fenced(p, r.id in p.seenReceipts, r.causation, r.causation in p.entries
          && p.entries[r.causation].generation == r.generation, Saturated(r.generation));
      if v.Some? then v.value
      else if r.causation in p.entries && IsTerminal(r.outcome) && p.entries[r.causation].terminal
          && p.entries[r.causation].status != TerminalStatus(r.outcome, r.reason)
      then TerminalConflict(p.entries[r.causation].status, TerminalStatus(r.outcome, r.reason))
      else Recorded
  }

  /**
    A call reports Recorded exactly when it changed something, apart from the conflict flags, which only a conflict
    raises.
   */
  lemma RecordedMeansChanged(p: Projection, f: Frame)
    ensures VerdictOf(p, f) == Recorded <==> FoldFrame(p, f).(conflicts := p.conflicts) != p
    ensures FoldFrame(p, f).conflicts != p.conflicts ==>
            VerdictOf(p, f).TerminalConflict? && f.Observe?
            && FoldFrame(p, f).conflicts == p.conflicts + {f.r.causation}
  {
    match f
    case Submit(c, g) => assert c in FoldFrame(p, f).entries;
    case Happen(e) => if VerdictOf(p, f) == Recorded { assert e.id in FoldFrame(p, f).seenEvents; }
    case Cancel(c, causation, g) => if VerdictOf(p, f) == Recorded { assert causation in FoldFrame(p, f).seenCancels; }
    case Observe(r) => if VerdictOf(p, f) == Recorded { assert r.id in FoldFrame(p, f).seenReceipts; }
  }

  function FoldAll(p: Projection, frames: seq<Frame>): Projection {
    if frames == [] then p else FoldFrame(FoldAll(p, frames[..|frames| - 1]), frames[|frames| - 1])
  }

  /** The id of the frame has been recorded. */
  predicate Taken(p: Projection, f: Frame) {
    match f
    case Submit(c, _) => c in p.entries
    case Happen(e) => e.id in p.seenEvents
    case Cancel(_, causation, _) => causation in p.seenCancels
    case Observe(r) => r.id in p.seenReceipts
  }

  lemma {:induction false} TakenStays(p: Projection, f: Frame, frames: seq<Frame>)
    requires Taken(p, f)
    ensures Taken(FoldAll(p, frames), f)
    decreases |frames|
  {
    if frames != [] { TakenStays(p, f, frames[..|frames| - 1]); }
  }

  /**
    Redelivery.  Once a frame has been recorded it is a duplicate that changes nothing, however late it comes again and
    whatever was folded in between.  A frame that was refused changes nothing when it comes again at once.
   */
  lemma RedeliveryIsNoOp(p: Projection, f: Frame, frames: seq<Frame>)
    ensures FoldFrame(FoldFrame(p, f), f) == FoldFrame(p, f)
    ensures VerdictOf(p, f) == Recorded ==>
              var q := FoldAll(FoldFrame(p, f), frames);
              VerdictOf(q, f) == Duplicate && FoldFrame(q, f) == q
  {
    if f.Observe? { assert p.conflicts + {f.r.causation} + {f.r.causation} == p.conflicts + {f.r.causation}; }
    if VerdictOf(p, f) == Recorded { TakenStays(FoldFrame(p, f), f, frames); }
  }

  function ToImage(p: Projection): Image {
    Image(p.generation, p.entries)
  }

  /** ApplyProjection on an empty projection. */
  function Rebuilt(img: Image): Projection {
    Projection(Max(0, img.generation), img.commands,
               set c | c in img.commands && img.commands[c].lastEvent.Some? :: img.commands[c].lastEvent.value,
               set c | c in img.commands && img.commands[c].receipt.Some? :: img.commands[c].receipt.value, {}, {})
  }

  // ---------------------------------------------------------------- what has been seen

  /** Ids name one frame: `event(id)` and `receipt(id)` are the frames that carry them. */
  ghost predicate Named(event: string -> Event, receipt: string -> Receipt, f: Frame) {
    && (f.Happen? ==> f.e == event(f.e.id))
    && (f.Observe? ==> f.r == receipt(f.r.id))
  }

  /** An event that was folded cannot advance its command again. */
  ghost predicate EventSpent(p: Projection, e: Event) {
    && e.command in p.entries && p.entries[e.command].generation == e.generation
    && (Progress(e.kind).Some? && !p.entries[e.command].terminal ==>
        Rank(Progress(e.kind).value) <= Rank(p.entries[e.command].status))
  }

  /** Nor can a receipt. */
  ghost predicate ReceiptSpent(p: Projection, r: Receipt) {
    && r.causation in p.entries && p.entries[r.causation].generation == r.generation
    && (if IsTerminal(r.outcome) then p.entries[r.causation].terminal
        && p.entries[r.causation].status == TerminalStatus(r.outcome, r.reason)
        else !p.entries[r.causation].terminal ==> Rank(p.entries[r.causation].status) >= 1)
  }

  /** Terminal is a property of the status. */
  ghost predicate EntryOk(x: Entry) {
    (x.terminal <==> Rank(x.status) == 3) && (x.terminal ==> x.receipt.Some?)
  }

  ghost predicate Inv(event: string -> Event, receipt: string -> Receipt, p: Projection) {
    && (forall c {:trigger p.entries[c]} :: c in p.entries ==> EntryOk(p.entries[c]) && EntrySeen(p, p.entries[c]))
    && (forall id {:trigger event(id)} :: id in p.seenEvents ==> EventSpent(p, event(id)))
    && (forall id {:trigger receipt(id)} :: id in p.seenReceipts ==> ReceiptSpent(p, receipt(id)))
  }

  ghost predicate EntrySeen(p: Projection, x: Entry) {
    (x.lastEvent.Some? ==> x.lastEvent.value in p.seenEvents) && (x.receipt.Some? ==> x.receipt.value in p.seenReceipts)
  }

  /** Status moves forward, and a terminal one stays. */
  ghost predicate Forward(x: Entry, y: Entry) {
    && y.generation == x.generation && Rank(x.status) <= Rank(y.status)
    && (x.terminal ==> y.terminal && y.status == x.status && y.reason == x.reason && y.receipt == x.receipt)
  }

  lemma FoldForward(p: Projection, f: Frame, c: string)
    requires c in p.entries && EntryOk(p.entries[c])
    ensures c in FoldFrame(p, f).entries && Forward(p.entries[c], FoldFrame(p, f).entries[c])
            && EntryOk(FoldFrame(p, f).entries[c])
  {
  }

  lemma EventStays(p: Projection, q: Projection, e: Event)
    requires EventSpent(p, e) && e.command in q.entries && Forward(p.entries[e.command], q.entries[e.command])
    ensures EventSpent(q, e)
  {
  }

  lemma ReceiptStays(p: Projection, q: Projection, r: Receipt)
    requires ReceiptSpent(p, r) && r.causation in q.entries && Forward(p.entries[r.causation], q.entries[r.causation])
             && EntryOk(q.entries[r.causation])
    ensures ReceiptSpent(q, r)
  {
  }

  lemma FoldInv(event: string -> Event, receipt: string -> Receipt, p: Projection, f: Frame)
    requires Inv(event, receipt, p) && Named(event, receipt, f)
    ensures Inv(event, receipt, FoldFrame(p, f))
  {
    var q := FoldFrame(p, f);
    forall c | c in q.entries ensures EntryOk(q.entries[c]) && EntrySeen(q, q.entries[c]) {
      if c in p.entries { FoldForward(p, f, c); assert EntrySeen(p, p.entries[c]); }
    }
    forall id | id in q.seenEvents ensures EventSpent(q, event(id)) {
      if id in p.seenEvents {
        assert EventSpent(p, event(id));
        FoldForward(p, f, event(id).command);
        EventStays(p, q, event(id));
      }
    }
    forall id | id in q.seenReceipts ensures ReceiptSpent(q, receipt(id)) {
      if id in p.seenReceipts {
        assert ReceiptSpent(p, receipt(id));
        FoldForward(p, f, receipt(id).causation);
        ReceiptStays(p, q, receipt(id));
      }
    }
  }

  // ---------------------------------------------------------------- reconnect

  /** The parts of an entry that callers act on. */
  ghost predicate SameEntry(x: Entry, y: Entry) {
    x.status == y.status && x.terminal == y.terminal && x.generation == y.generation && x.reason == y.reason
        && x.receipt == y.receipt
  }

  /** `q` knows the same commands as `p` and has seen no id that `p` has not. */
  ghost predicate Follows(event: string -> Event, receipt: string -> Receipt, p: Projection, q: Projection) {
    && Inv(event, receipt, p) && q.entries.Keys == p.entries.Keys
    && (forall c {:trigger q.entries[c]} {:trigger p.entries[c]} :: c in p.entries ==>
        SameEntry(p.entries[c], q.entries[c]))
    && q.seenEvents <= p.seenEvents && q.seenReceipts <= p.seenReceipts
  }

  lemma RebuiltFollows(event: string -> Event, receipt: string -> Receipt, p: Projection)
    requires Inv(event, receipt, p)
    ensures Follows(event, receipt, p, Rebuilt(ToImage(p)))
  {
    var q := Rebuilt(ToImage(p));
    forall id | id in q.seenEvents ensures id in p.seenEvents {
      var c :| c in p.entries && p.entries[c].lastEvent == Some(id);
      assert EntrySeen(p, p.entries[c]);
    }
    forall id | id in q.seenReceipts ensures id in p.seenReceipts {
      var c :| c in p.entries && p.entries[c].receipt == Some(id);
      assert EntrySeen(p, p.entries[c]);
    }
  }

  lemma EventFollows(event: string -> Event, receipt: string -> Receipt, p: Projection, q: Projection, e: Event)
    requires Follows(event, receipt, p, q) && e == event(e.id)
    ensures var p', q' := FoldEvent(p, e), FoldEvent(q, e);
            && q'.entries.Keys == p'.entries.Keys && (forall c :: c in p'.entries ==>
                SameEntry(p'.entries[c], q'.entries[c]))
            && q'.seenEvents <= p'.seenEvents && q'.seenReceipts == q.seenReceipts && p'.seenReceipts == p.seenReceipts
  {
    if e.command in p.entries { assert SameEntry(p.entries[e.command], q.entries[e.command]); }
    if e.id in p.seenEvents { assert EventSpent(p, event(e.id)) && EntryOk(p.entries[e.command]); }
  }

  lemma ReceiptFollows(event: string -> Event, receipt: string -> Receipt, p: Projection, q: Projection, r: Receipt)
    requires Follows(event, receipt, p, q) && r == receipt(r.id)
    ensures var p', q' := FoldReceipt(p, r), FoldReceipt(q, r);
            && q'.entries.Keys == p'.entries.Keys && (forall c :: c in p'.entries ==>
                SameEntry(p'.entries[c], q'.entries[c]))
            && q'.seenReceipts <= p'.seenReceipts && q'.seenEvents == q.seenEvents && p'.seenEvents == p.seenEvents
  {
    if r.causation in p.entries { assert SameEntry(p.entries[r.causation], q.entries[r.causation]); }
    if r.id in p.seenReceipts { assert ReceiptSpent(p, receipt(r.id)) && EntryOk(p.entries[r.causation]); }
  }

  lemma FrameFollows(event: string -> Event, receipt: string -> Receipt, p: Projection, q: Projection, f: Frame)
    requires Follows(event, receipt, p, q) && Named(event, receipt, f)
    ensures Follows(event, receipt, FoldFrame(p, f), FoldFrame(q, f))
  {
    FoldInv(event, receipt, p, f);
    match f
    case Happen(e) => EventFollows(event, receipt, p, q, e);
    case Observe(r) => ReceiptFollows(event, receipt, p, q, r);
    case _ =>
  }

  lemma {:induction false} FramesFollow(event: string -> Event, receipt: string -> Receipt, p: Projection,
          q: Projection, frames: seq<Frame>)
    requires Follows(event, receipt, p, q) && forall f :: f in frames ==> Named(event, receipt, f)
    ensures Follows(event, receipt, FoldAll(p, frames), FoldAll(q, frames))
    decreases |frames|
  {
    if frames != [] {
      assert forall f :: f in frames[..|frames| - 1] ==> f in frames;
      FramesFollow(event, receipt, p, q, frames[..|frames| - 1]);
      FrameFollows(event, receipt, FoldAll(p, frames[..|frames| - 1]), FoldAll(q, frames[..|frames| - 1]),
          frames[|frames| - 1]);
    }
  }

  lemma {:induction false} RunInv(event: string -> Event, receipt: string -> Receipt, frames: seq<Frame>)
    requires forall f :: f in frames ==> Named(event, receipt, f)
    ensures Inv(event, receipt, FoldAll(NewProjection(), frames))
    decreases |frames|
  {
    if frames != [] {
      assert forall f :: f in frames[..|frames| - 1] ==> f in frames;
      RunInv(event, receipt, frames[..|frames| - 1]);
      FoldInv(event, receipt, FoldAll(NewProjection(), frames[..|frames| - 1]), frames[|frames| - 1]);
    }
  }

  /**
    Reconnect.  A projection rebuilt from the image of another agrees with it on every command after any further frames,
    including frames that only the original had seen before.
   */
  lemma ReconnectAgrees(event: string -> Event, receipt: string -> Receipt, before: seq<Frame>, later: seq<Frame>,
          c: string)
    requires forall f :: f in before || f in later ==> Named(event, receipt, f)
    ensures var p := FoldAll(NewProjection(), before);
            var x, y := FoldAll(p, later), FoldAll(Rebuilt(ToImage(p)), later);
            (c in x.entries <==> c in y.entries) && (c in x.entries ==> SameEntry(x.entries[c], y.entries[c]))
  {
    var p := FoldAll(NewProjection(), before);
    RunInv(event, receipt, before);
    RebuiltFollows(event, receipt, p);
    FramesFollow(event, receipt, p, Rebuilt(ToImage(p)), later);
  }

  lemma {:induction false} RunEntryOk(frames: seq<Frame>, c: string)
    requires c in FoldAll(NewProjection(), frames).entries
    ensures EntryOk(FoldAll(NewProjection(), frames).entries[c])
    decreases |frames|
  {
    if frames != [] {
      var p := FoldAll(NewProjection(), frames[..|frames| - 1]);
      if c in p.entries {
        RunEntryOk(frames[..|frames| - 1], c);
        FoldForward(p, frames[|frames| - 1], c);
      }
    }
  }

  /**
    Over any run, whatever the frames and their ids, the status of a command only moves forward, and a terminal status
    never changes, nor its reason or its receipt.
   */
  lemma {:induction false} StatusMovesForward(before: seq<Frame>, later: seq<Frame>, c: string)
    requires c in FoldAll(NewProjection(), before).entries
    ensures var p := FoldAll(NewProjection(), before);
            c in FoldAll(p, later).entries && Forward(p.entries[c], FoldAll(p, later).entries[c])
                && EntryOk(FoldAll(p, later).entries[c])
    decreases |later|
  {
    var p := FoldAll(NewProjection(), before);
    RunEntryOk(before, c);
    if later != [] {
      StatusMovesForward(before, later[..|later| - 1], c);
      FoldForward(FoldAll(p, later[..|later| - 1]), later[|later| - 1], c);
    }
  }

  // ---------------------------------------------------------------- the object

  class CommandProjection {
    var generation: int
    var entries: map<string, Entry>
    var seenEvents: set<string>
    var seenReceipts: set<string>
    var seenCancels: set<string>
    var conflicts: set<string>

    function Model(): Projection
      reads this
    {
      Projection(generation, entries, seenEvents, seenReceipts, seenCancels, conflicts)
    }

    constructor ()
      ensures Model() == NewProjection()
    {
      generation, entries, seenEvents, seenReceipts, seenCancels, conflicts := 0, map[], {}, {}, {}, {};
    }

    method SubmitCommand(c: string, g: int) returns (v: Verdict)
      modifies this
      ensures Model() == FoldFrame(old(Model()), Submit(c, g)) && v == VerdictOf(old(Model()), Submit(c, g))
    {
      if c in entries { return Duplicate; }
      if g > generation { generation := g; }
      entries := entries[c := Entry(Submitted, false, g, None, None, None)];
      return Recorded;
    }

    method HandleEvent(e: Event) returns (v: Verdict)
      modifies this
      ensures Model() == FoldFrame(old(Model()), Happen(e)) && v == VerdictOf(old(Model()), Happen(e))
    {
      if e.id in seenEvents { return Duplicate; }
      if e.command !in entries { return Unknown; }
      var x := entries[e.command];
      if e.generation != x.generation { return StaleGeneration(x.generation, e.generation); }
      seenEvents := seenEvents + {e.id};
      x := x.(lastEvent := Some(e.id));
      var next := Progress(e.kind);
      if next.Some? && !x.terminal && Rank(next.value) >= Rank(x.status) { x := x.(status := next.value); }
      entries := entries[e.command := x];
      return Recorded;
    }

    method CancelCommand(c: string, causation: string, g: int) returns (v: Verdict)
      modifies this
      ensures Model() == FoldFrame(old(Model()), Cancel(c, causation, g))
              && v == VerdictOf(old(Model()), Cancel(c, causation, g))
    {
      if causation in seenCancels { return Duplicate; }
      if c !in entries { return Unknown; }
      if g != entries[c].generation { return StaleGeneration(entries[c].generation, g); }
      seenCancels := seenCancels + {causation};
      return Recorded;
    }

    method ObserveReceipt(r: Receipt) returns (v: Verdict)
      modifies this
      ensures Model() == FoldFrame(old(Model()), Observe(r)) && v == VerdictOf(old(Model()), Observe(r))
    {
      if r.id in seenReceipts { return Duplicate; }
      if r.causation !in entries { return Unknown; }
      var x := entries[r.causation];
      if x.generation != r.generation { return StaleGeneration(x.generation, Saturated(r.generation)); }
      if !IsTerminal(r.outcome) {
        seenReceipts := seenReceipts + {r.id};
        if !x.terminal && 1 >= Rank(x.status) { x := x.(status := Accepted); }
        entries := entries[r.causation := x];
        return Recorded;
      }
      var incoming := TerminalStatus(r.outcome, r.reason);
      if x.terminal {
        if x.status == incoming {
          seenReceipts := seenReceipts + {r.id};
          return Recorded;
        }
        conflicts := conflicts + {r.causation};
        return TerminalConflict(x.status, incoming);
      }
      seenReceipts := seenReceipts + {r.id};
      entries := entries[r.causation := x.(terminal := true, status := incoming, reason := r.reason,
          receipt := Some(r.id))];
      return Recorded;
    }

    /** ApplyProjection on a fresh projection: the loop over the image's commands. */
    method Restore(img: Image)
      requires Model() == NewProjection()
      modifies this
      ensures Model() == Rebuilt(img)
    {
      if img.generation > generation { generation := img.generation; }
      ghost var order := RestoreEach(img);
      RestoredIs(img, order);
    }

    method RestoreEach(img: Image) returns (ghost order: seq<string>)
      modifies this
      ensures Members(order) == img.commands.Keys && Distinct(order) && Model() == Restored(old(Model()), img, order)
    {
      var todo := img.commands.Keys;
      order := [];
      while todo != {}
        invariant todo <= img.commands.Keys && Members(order) == img.commands.Keys - todo && Distinct(order)
        invariant Model() == Restored(old(Model()), img, order)
        decreases |todo|
      {
        var c :| c in todo;
        RestoreOne(c, img.commands[c]);
        RestoredMore(old(Model()), img, order, c);
        order := order + [c];
        todo := todo - {c};
      }
    }

    method RestoreOne(c: string, x: Entry)
      modifies this
      ensures Model() == WithEntry(old(Model()), c, x)
    {
      entries := entries[c := x];
      if x.lastEvent.Some? { seenEvents := seenEvents + {x.lastEvent.value}; }
      if x.receipt.Some? { seenReceipts := seenReceipts + {x.receipt.value}; }
    }
  }

  function AsSet(o: Option<string>): set<string> {
    if o.Some? then {o.value} else {}
  }

  /** One entry of an image folded in. */
  function WithEntry(p: Projection, c: string, x: Entry): Projection {
    p.(entries := p.entries[c := x], seenEvents := p.seenEvents + AsSet(x.lastEvent),
        seenReceipts := p.seenReceipts + AsSet(x.receipt))
  }

  function Chosen(m: map<string, Entry>, keys: set<string>): map<string, Entry> {
    map c | c in m && c in keys :: m[c]
  }

  /** The projection once the commands in `done` have been folded in. */
  function Part(img: Image, done: set<string>): Projection {
    Rebuilt(Image(img.generation, Chosen(img.commands, done)))
  }

  /** The entries of an image folded in one by one. */
  function Restored(start: Projection, img: Image, order: seq<string>): Projection {
    if order == [] then start
    else
      var p := Restored(start, img, order[..|order| - 1]);
      if order[|order| - 1] in img.commands then WithEntry(p, order[|order| - 1], img.commands[order[|order| - 1]])
      else p
  }

  lemma RestoredMore(p: Projection, img: Image, order: seq<string>, c: string)
    requires c in img.commands && c !in Members(order) && Distinct(order)
    ensures Distinct(order + [c]) && Members(order + [c]) == Members(order) + {c}
    ensures Restored(p, img, order + [c]) == WithEntry(Restored(p, img, order), c, img.commands[c])
  {
    assert (order + [c])[..|order|] == order;
  }

  lemma {:induction false} RestoredIs(img: Image, order: seq<string>)
    requires Members(order) <= img.commands.Keys && Distinct(order)
    ensures Restored(NewProjection().(generation := Max(0, img.generation)), img, order) == Part(img, Members(order))
    ensures Part(img, img.commands.Keys) == Rebuilt(img)
    decreases |order|
  {
    PartEnds(img);
    if order == [] {
      assert Members(order) == {};
    } else {
      var before, c := order[..|order| - 1], order[|order| - 1];
      assert order == before + [c];
      assert Members(order) == Members(before) + {c} && c in Members(order) && c !in Members(before);
      RestoredIs(img, before);
      PartMore(img, Members(before), c);
    }
  }

  lemma PartEnds(img: Image)
    ensures Part(img, {}) == NewProjection().(generation := Max(0, img.generation))
            && Part(img, img.commands.Keys) == Rebuilt(img)
  {
    assert Chosen(img.commands, {}) == map[] && Chosen(img.commands, img.commands.Keys) == img.commands;
  }

  lemma PartMore(img: Image, done: set<string>, c: string)
    requires c in img.commands && c !in done
    ensures Part(img, done + {c}) == WithEntry(Part(img, done), c, img.commands[c])
  {
    var p, q := Part(img, done), Part(img, done + {c});
    var x := img.commands[c];
    assert q.entries == p.entries[c := x];
    assert q.seenEvents == p.seenEvents + AsSet(x.lastEvent) by {
      forall id | id in p.seenEvents ensures id in q.seenEvents {
        var d :| d in p.entries && p.entries[d].lastEvent == Some(id);
        assert d in q.entries;
      }
      assert c in q.entries;
    }
    assert q.seenReceipts == p.seenReceipts + AsSet(x.receipt) by {
      forall id | id in p.seenReceipts ensures id in q.seenReceipts {
        var d :| d in p.entries && p.entries[d].receipt == Some(id);
        assert d in q.entries;
      }
      assert c in q.entries;
    }
  }
}
