/** The outbound event as far as delivery looks at it. */
module Events {
  import opened EventKeys

  /** `timestamp` 0 stands for the zero time; `payload` for what delivery never reads. */
  datatype Event = Event(kind: string, ref: Ref, key: string, timestamp: int, payload: int)
}

/** The bounded outbound buffer: overflow dropping, batch extraction, requeue on a failed post. */
module Batcher {
  import opened Events

  const DEFAULT_MAX_BATCH := 100
  const DEFAULT_MAX_BUFFER := 1000

  datatype Buffer = Buffer(
    events: seq<Event>, maxBatch: int, maxBuffer: int, overflowActive: bool, overflowDropped: int)
  {
    function BatchLimit(): (r: int)
      ensures r > 0
    {
      if maxBatch <= 0 then DEFAULT_MAX_BATCH else maxBatch
    }

    function Limit(): (r: int)
      ensures r > 0
    {
      if maxBuffer <= 0 then DEFAULT_MAX_BUFFER else maxBuffer
    }

    function RecordOverflow(dropped: int): Buffer {
      if dropped <= 0 then this
      else this.(overflowActive := true, overflowDropped := overflowDropped + dropped)
    }

    /** How many of the oldest events an enqueue drops to make room. */
    function EnqueueDrop(): (d: nat)
      ensures d <= |events|
    {
      if |events| >= Limit() then |events| - Limit() + 1 else 0
    }

    function Enqueue(e: Event, now: int): Buffer {
      RecordOverflow(EnqueueDrop()).(events := events[EnqueueDrop()..] + [Stamp(e, now)])
    }

    function BatchSize(): (n: nat)
      ensures n <= |events|
    {
      if |events| <= BatchLimit() then |events| else BatchLimit()
    }

    function Batch(): seq<Event> {
      events[..BatchSize()]
    }

    function Take(): Buffer {
      this.(events := events[BatchSize()..])
    }

    function RequeueDrop(batch: seq<Event>): (d: nat)
      ensures d <= |batch + events|
    {
      if |batch + events| > Limit() then |batch + events| - Limit() else 0
    }

    function Requeue(batch: seq<Event>): Buffer {
      RecordOverflow(RequeueDrop(batch)).(events := (batch + events)[RequeueDrop(batch)..])
    }

    /** The closing section of a flush whose batch was accepted. */
    function Close(): Buffer {
      if events == [] then this.(overflowActive := false, overflowDropped := 0) else this
    }

    predicate HasKey(key: string) {
      key != "" && exists i :: 0 <= i < |events| && events[i].key == key
    }
  }

  function Stamp(e: Event, now: int): Event {
    if e.timestamp == 0 then e.(timestamp := now) else e
  }

  function NewBuffer(maxBatch: int, maxBuffer: int): Buffer {
    Buffer([], maxBatch, maxBuffer, false, 0)
  }

  // ---------- The class the program runs ----------

  class EventBatcher {
    var events: seq<Event>
    var maxBatch: int
    var maxBuffer: int
    var overflowActive: bool
    var overflowDropped: int

    function View(): Buffer
      reads this
    {
      Buffer(events, maxBatch, maxBuffer, overflowActive, overflowDropped)
    }

    constructor ()
      ensures View() == NewBuffer(DEFAULT_MAX_BATCH, DEFAULT_MAX_BUFFER)
    {
      events := [];
      maxBatch, maxBuffer := DEFAULT_MAX_BATCH, DEFAULT_MAX_BUFFER;
      overflowActive, overflowDropped := false, 0;
    }

    method HasEventKey(key: string) returns (found: bool)
      ensures found <==> View().HasKey(key)
      ensures found <==> key != "" && exists i :: 0 <= i < |events| && events[i].key == key
    {
      if key == "" {
        return false;
      }
      for i := 0 to |events|
        invariant forall j :: 0 <= j < i ==> events[j].key != key
      {
        if events[i].key == key {
          return true;
        }
      }
      return false;
    }

    method RecordOverflow(dropped: int)
      modifies this
      ensures View() == old(View()).RecordOverflow(dropped)
    {
      if dropped <= 0 {
        return;
      }
      overflowActive := true;
      overflowDropped := overflowDropped + dropped;
    }

    /** The event goes last, stamped; of the longer list the newest up to the limit are kept. */
    method Enqueue(event: Event, now: int)
      modifies this
      ensures View() == old(View()).Enqueue(event, now)
      ensures var all := old(events) + [if event.timestamp == 0 then event.(timestamp := now) else event];
        var limit := if maxBuffer <= 0 then 1000 else maxBuffer;
        events == if |all| <= limit then all else all[|all| - limit..]
    {
      var e := event;
      if e.timestamp == 0 {
        e := e.(timestamp := now);
      }
      var limit := maxBuffer;
      if limit <= 0 {
        limit := DEFAULT_MAX_BUFFER;
      }
      if |events| >= limit {
        var drop := |events| - limit + 1;
        events := events[drop..];
        RecordOverflow(drop);
      }
      events := events + [e];
    }

    /** The first critical section of Flush. An empty batch means there was nothing to send. */
    method TakeBatch() returns (batch: seq<Event>)
      modifies this
      ensures batch == old(View()).Batch() && View() == old(View()).Take()
      ensures batch == [] <==> old(events) == []
      ensures batch + events == old(events)
      ensures var limit := if maxBatch <= 0 then 100 else maxBatch;
        |batch| == if |old(events)| <= limit then |old(events)| else limit
    {
      if |events| == 0 {
        return [];
      }
      var limit := maxBatch;
      if limit <= 0 {
        limit := DEFAULT_MAX_BATCH;
      }
      var end := if |events| <= limit then |events| else limit;
      batch := events[..end];
      events := events[end..];
    }

    /** The batch goes back in front; of the longer list the newest up to the limit are kept. */
    method Requeue(batch: seq<Event>)
      modifies this
      ensures View() == old(View()).Requeue(batch)
      ensures var all := batch + old(events);
        var limit := if maxBuffer <= 0 then 1000 else maxBuffer;
        events == if |all| <= limit then all else all[|all| - limit..]
    {
      var limit := maxBuffer;
      if limit <= 0 {
        limit := DEFAULT_MAX_BUFFER;
      }
      var combined := batch + events;
      if |combined| > limit {
        var drop := |combined| - limit;
        combined := combined[drop..];
        RecordOverflow(drop);
      }
      events := combined;
    }

    /** The last critical section of Flush. */
    method CloseFlush()
      modifies this
      ensures View() == old(View()).Close()
    {
      if |events| == 0 {
        overflowActive := false;
        overflowDropped := 0;
      }
    }

    /** One whole flush with nothing in between; `hasClient` and `posted` are what the client does. */
    method Flush(hasClient: bool, posted: bool) returns (batch: seq<Event>)
      modifies this
      ensures batch == old(View()).Batch()
      ensures View() ==
        if batch == [] then old(View())
        else if !hasClient then old(View()).Take()
        else if !posted then old(View()).Take().Requeue(batch)
        else old(View()).Take().Close()
    {
      batch := TakeBatch();
      if batch == [] || !hasClient {
        return;
      }
      if !posted {
        Requeue(batch);
        return;
      }
      CloseFlush();
    }
  }

  /** An enqueue keeps the newest events up to the limit, the stamped one last, and counts exactly the
      dropped ones. Without a configured limit the limit is 1000. */
  lemma EnqueueKeepsNewest(b: Buffer, e: Event, now: int)
    ensures var all := b.events + [if e.timestamp == 0 then e.(timestamp := now) else e];
      var limit := if b.maxBuffer <= 0 then 1000 else b.maxBuffer;
      var kept := if |all| <= limit then |all| else limit;
      b.Enqueue(e, now) == b.(
        events := all[|all| - kept..],
        overflowActive := b.overflowActive || kept < |all|,
        overflowDropped := b.overflowDropped + (|all| - kept))
  {
    var stamped := Stamp(e, now);
    var d := b.EnqueueDrop();
    assert (b.events + [stamped])[d..] == b.events[d..] + [stamped];
  }

  /** A requeue puts the batch in front and keeps the newest up to the limit. */
  lemma RequeueKeepsNewest(b: Buffer, batch: seq<Event>)
    ensures var all := batch + b.events;
      var limit := if b.maxBuffer <= 0 then 1000 else b.maxBuffer;
      var kept := if |all| <= limit then |all| else limit;
      b.Requeue(batch) == b.(
        events := all[|all| - kept..],
        overflowActive := b.overflowActive || kept < |all|,
        overflowDropped := b.overflowDropped + (|all| - kept))
  {
    var all := batch + b.events;
    assert all[0..] == all;
  }

  /** A flush takes the oldest events, at most 100 without a configured batch size, and leaves the rest. */
  lemma TakesOldest(b: Buffer)
    ensures var limit := if b.maxBatch <= 0 then 100 else b.maxBatch;
      |b.Batch()| == (if |b.events| <= limit then |b.events| else limit)
      && b.Batch() + b.Take().events == b.events
      && b.Take() == b.(events := b.Take().events)
  {
    assert b.events[..b.BatchSize()] + b.events[b.BatchSize()..] == b.events;
  }

  /** A batch that could not be posted goes back where it came from: nothing is lost or reordered
      as long as the buffer had not overgrown its limit. */
  lemma FailedFlushRestores(b: Buffer)
    requires |b.events| <= b.Limit()
    ensures b.Take().Requeue(b.Batch()) == b
  {
    assert b.Batch() + b.Take().events == b.events;
  }
}

/** Every interleaving of enqueues with one flusher's critical sections, with the history of what
    was enqueued, accepted, dropped, discarded and lost. */
module BatcherRuns {
  import opened Events
  import opened Batcher

  /** Where the flusher is: between flushes, holding a batch, or past an accepted post but not yet
      through its closing section. */
  datatype Stage = Idle | Holding | Delivered

  datatype Line = Line(
    buf: Buffer, stage: Stage, inFlight: seq<Event>,
    enqueued: seq<Event>, accepted: seq<Event>, dropped: seq<Event>,
    discarded: seq<Event>, lost: seq<Event>, drainMark: nat)
  {
    /** What was accepted, then what is in flight, then what is buffered. */
    function Order(): seq<Event> {
      accepted + inFlight + buf.events
    }
  }

  datatype Action =
    | Enqueue(e: Event, now: int)
    | Take
    | Discard            // flush found no client
    | Accept             // PostEvents succeeded
    | Requeue            // PostEvents failed
    | Close
    | Crash              // the process restarts with an empty buffer

  function Start(maxBatch: int, maxBuffer: int): Line {
    Line(NewBuffer(maxBatch, maxBuffer), Idle, [], [], [], [], [], [], 0)
  }

  predicate Enabled(l: Line, a: Action) {
    match a
    case Enqueue(_, _) => true
    case Take => l.stage.Idle? && l.buf.events != []
    case Discard => l.stage.Holding?
    case Accept => l.stage.Holding?
    case Requeue => l.stage.Holding?
    case Close => l.stage.Delivered?
    case Crash => true
  }

  function Do(l: Line, a: Action): Line {
    if !Enabled(l, a) then l
    else
      match a
      case Enqueue(e, now) =>
        l.(buf := l.buf.Enqueue(e, now), enqueued := l.enqueued + [Stamp(e, now)],
           dropped := l.dropped + l.buf.events[..l.buf.EnqueueDrop()])
      case Take =>
        l.(buf := l.buf.Take(), inFlight := l.buf.Batch(), stage := Holding)
      case Discard =>
        l.(stage := Idle, inFlight := [], discarded := l.discarded + l.inFlight)
      case Accept =>
        l.(stage := Delivered, inFlight := [], accepted := l.accepted + l.inFlight)
      case Requeue =>
        l.(stage := Idle, inFlight := [], buf := l.buf.Requeue(l.inFlight),
           dropped := l.dropped + (l.inFlight + l.buf.events)[..l.buf.RequeueDrop(l.inFlight)])
      case Close =>
        l.(stage := Idle, buf := l.buf.Close(),
           drainMark := if l.buf.events == [] then |l.dropped| else l.drainMark)
      case Crash =>
        l.(stage := Idle, inFlight := [], buf := NewBuffer(l.buf.maxBatch, l.buf.maxBuffer),
           lost := l.lost + l.inFlight + l.buf.events, drainMark := |l.dropped|)
  }

  function Run(l: Line, actions: seq<Action>): Line
    decreases |actions|
  {
    if actions == [] then l else Run(Do(l, actions[0]), actions[1..])
  }

  // ---------- Order ----------

  /** `pos` says at which enqueue each event of `line` came in; the positions strictly increase, so
      `line` keeps the enqueue order and names no enqueue twice. */
  ghost predicate Embeds(pos: seq<nat>, line: seq<Event>, enqueued: seq<Event>) {
    && |pos| == |line|
    && (forall i :: 0 <= i < |pos| ==> pos[i] < |enqueued| && line[i] == enqueued[pos[i]])
    && (forall i, j :: 0 <= i < j < |pos| ==> pos[i] < pos[j])
  }

  ghost predicate InOrder(line: seq<Event>, enqueued: seq<Event>) {
    exists pos :: Embeds(pos, line, enqueued)
  }

  lemma InOrderAppend(line: seq<Event>, enqueued: seq<Event>, e: Event)
    requires InOrder(line, enqueued)
    ensures InOrder(line + [e], enqueued + [e])
  {
    var pos :| Embeds(pos, line, enqueued);
    var n: nat := |enqueued|;
    assert Embeds(pos + [n], line + [e], enqueued + [e]);
  }

  lemma InOrderCut(a: seq<Event>, cut: seq<Event>, c: seq<Event>, enqueued: seq<Event>)
    requires InOrder(a + cut + c, enqueued)
    ensures InOrder(a + c, enqueued)
  {
    var pos :| Embeds(pos, a + cut + c, enqueued);
    var p := pos[..|a|] + pos[|a| + |cut|..];
    forall i | 0 <= i < |p|
      ensures p[i] < |enqueued| && (a + c)[i] == enqueued[p[i]]
    {
      var k := if i < |a| then i else i + |cut|;
      assert p[i] == pos[k] && (a + c)[i] == (a + cut + c)[k];
    }
    assert Embeds(p, a + c, enqueued);
  }

  // ---------- The invariant ----------

  ghost predicate Conserved(l: Line) {
    multiset(l.enqueued) == multiset(l.accepted) + multiset(l.inFlight) + multiset(l.buf.events)
                          + multiset(l.dropped) + multiset(l.discarded) + multiset(l.lost)
  }

  predicate OverflowExact(l: Line) {
    && l.drainMark <= |l.dropped|
    && l.buf.overflowDropped == |l.dropped| - l.drainMark
    && (l.buf.overflowActive <==> l.buf.overflowDropped > 0)
  }

  ghost predicate Inv(l: Line) {
    && |l.buf.events| <= l.buf.Limit()
    && |l.inFlight| <= l.buf.BatchLimit()
    && (!l.stage.Holding? ==> l.inFlight == [])
    && InOrder(l.Order(), l.enqueued)
    && Conserved(l)
    && OverflowExact(l)
  }

  lemma StartInv(maxBatch: int, maxBuffer: int)
    ensures Inv(Start(maxBatch, maxBuffer))
  {
    var l := Start(maxBatch, maxBuffer);
    assert Embeds([], l.Order(), l.enqueued);
  }

  lemma EnqueueOrder(l: Line, e: Event, now: int)
    requires InOrder(l.Order(), l.enqueued)
    ensures var l' := Do(l, Enqueue(e, now)); InOrder(l'.Order(), l'.enqueued)
  {
    hide InOrder;
    var l' := Do(l, Enqueue(e, now));
    var d := l.buf.EnqueueDrop();
    var cut, kept, s := l.buf.events[..d], l.buf.events[d..], Stamp(e, now);
    assert l.buf.events == cut + kept;
    assert l.Order() == (l.accepted + l.inFlight) + cut + kept;
    InOrderCut(l.accepted + l.inFlight, cut, kept, l.enqueued);
    InOrderAppend(l.accepted + l.inFlight + kept, l.enqueued, s);
    assert l'.Order() == l.accepted + l.inFlight + kept + [s];
  }

  lemma EnqueueConserves(l: Line, e: Event, now: int)
    requires Conserved(l)
    ensures Conserved(Do(l, Enqueue(e, now)))
  {
    var d := l.buf.EnqueueDrop();
    assert l.buf.events == l.buf.events[..d] + l.buf.events[d..];
  }

  lemma EnqueueInv(l: Line, e: Event, now: int)
    requires Inv(l)
    ensures Inv(Do(l, Enqueue(e, now)))
  {
    hide InOrder, Conserved;
    EnqueueOrder(l, e, now);
    EnqueueConserves(l, e, now);
  }

  lemma TakeSplits(b: Buffer)
    ensures b.events == b.Batch() + b.Take().events
  {
    var n := b.BatchSize();
    assert b.events == b.events[..n] + b.events[n..];
  }

  lemma TakeOrder(l: Line)
    requires Enabled(l, Take) && l.inFlight == []
    ensures Do(l, Take).Order() == l.Order()
  {
    TakeSplits(l.buf);
  }

  lemma TakeConserves(l: Line)
    requires Enabled(l, Take) && l.inFlight == [] && Conserved(l)
    ensures Conserved(Do(l, Take))
  {
    TakeSplits(l.buf);
    assert multiset(l.buf.events) == multiset(l.buf.Batch()) + multiset(l.buf.Take().events);
  }

  lemma TakeInv(l: Line)
    requires Inv(l) && Enabled(l, Take)
    ensures Inv(Do(l, Take))
  {
    hide InOrder, Conserved;
    TakeOrder(l);
    TakeConserves(l);
  }

  /** The batch in flight, and perhaps the buffer, leave the line. */
  lemma LeaveOrder(l: Line, a: Action)
    requires InOrder(l.Order(), l.enqueued) && (a.Discard? || a.Accept? || a.Close? || a.Crash?)
    requires Enabled(l, a)
    ensures InOrder(Do(l, a).Order(), l.enqueued)
  {
    hide InOrder;
    var l' := Do(l, a);
    match a
    case Discard =>
      InOrderCut(l.accepted, l.inFlight, l.buf.events, l.enqueued);
      assert l'.Order() == l.accepted + l.buf.events;
    case Accept => assert l'.Order() == l.Order();
    case Close => assert l'.Order() == l.Order();
    case Crash =>
      assert l.Order() == l.accepted + (l.inFlight + l.buf.events) + [];
      InOrderCut(l.accepted, l.inFlight + l.buf.events, [], l.enqueued);
      assert l'.Order() == l.accepted + [];
  }

  lemma LeaveConserves(l: Line, a: Action)
    requires Conserved(l) && (a.Discard? || a.Accept? || a.Close? || a.Crash?) && Enabled(l, a)
    ensures Conserved(Do(l, a))
  {
  }

  lemma LeaveInv(l: Line, a: Action)
    requires Inv(l) && Enabled(l, a) && (a.Discard? || a.Accept? || a.Close? || a.Crash?)
    ensures Inv(Do(l, a))
  {
    hide InOrder, Conserved;
    LeaveOrder(l, a);
    LeaveConserves(l, a);
  }

  lemma RequeueInv(l: Line)
    requires Inv(l) && Enabled(l, Requeue)
    ensures Inv(Do(l, Requeue))
  {
    RequeueOrder(l);
    RequeueConserves(l);
  }

  lemma RequeueOrder(l: Line)
    requires InOrder(l.Order(), l.enqueued) && Enabled(l, Requeue)
    ensures InOrder(Do(l, Requeue).Order(), l.enqueued)
  {
    var all := l.inFlight + l.buf.events;
    var d := l.buf.RequeueDrop(l.inFlight);
    assert l.Order() == l.accepted + all[..d] + all[d..];
    InOrderCut(l.accepted, all[..d], all[d..], l.enqueued);
    assert Do(l, Requeue).Order() == l.accepted + all[d..];
  }

  lemma RequeueConserves(l: Line)
    requires Conserved(l) && Enabled(l, Requeue)
    ensures Conserved(Do(l, Requeue))
  {
    var l' := Do(l, Requeue);
    var all := l.inFlight + l.buf.events;
    var d := l.buf.RequeueDrop(l.inFlight);
    assert all == all[..d] + all[d..];
    assert multiset(l.inFlight) + multiset(l.buf.events) == multiset(all) == multiset(all[..d]) + multiset(all[d..]);
    assert multiset(l'.dropped) == multiset(l.dropped) + multiset(all[..d]);
    assert l'.buf.events == all[d..] && l'.inFlight == [];
    Shuffle(multiset(l.accepted), multiset(l.inFlight), multiset(l.buf.events), multiset(all[..d]),
            multiset(all[d..]), multiset(l.dropped), multiset(l.discarded), multiset(l.lost));
  }

  lemma Shuffle(accepted: multiset<Event>, inFlight: multiset<Event>, buffered: multiset<Event>, cut: multiset<Event>,
                kept: multiset<Event>, dropped: multiset<Event>, discarded: multiset<Event>, lost: multiset<Event>)
    requires inFlight + buffered == cut + kept
    ensures accepted + inFlight + buffered + dropped + discarded + lost
         == accepted + multiset{} + kept + (dropped + cut) + discarded + lost
  {
    var a := accepted + inFlight + buffered + dropped + discarded + lost;
    var b := accepted + multiset{} + kept + (dropped + cut) + discarded + lost;
    forall e: Event
      ensures a[e] == b[e]
    {
      assert (inFlight + buffered)[e] == (cut + kept)[e];
    }
    assert a == b;
  }

  lemma StepInv(l: Line, a: Action)
    requires Inv(l)
    ensures Inv(Do(l, a))
  {
    if Enabled(l, a) {
      match a
      case Enqueue(e, now) => EnqueueInv(l, e, now);
      case Take => TakeInv(l);
      case Requeue => RequeueInv(l);
      case Discard => LeaveInv(l, a);
      case Accept => LeaveInv(l, a);
      case Close => LeaveInv(l, a);
      case Crash => LeaveInv(l, a);
    }
  }

  lemma {:induction false} RunInv(l: Line, actions: seq<Action>)
    requires Inv(l)
    ensures Inv(Run(l, actions))
    decreases |actions|
  {
    if actions != [] {
      StepInv(l, actions[0]);
      RunInv(Do(l, actions[0]), actions[1..]);
    }
  }

  /** In every run: accepted batches, the batch in flight and the buffer follow the enqueue order
      with no event twice; every enqueued event is in exactly one place; the buffer stays within
      its limit; and the overflow counters say how many events were dropped since a flush last
      found the buffer empty after an accepted post. */
  lemma EveryRun(maxBatch: int, maxBuffer: int, actions: seq<Action>)
    ensures var l := Run(Start(maxBatch, maxBuffer), actions);
      && InOrder(l.Order(), l.enqueued)
      && Conserved(l)
      && |l.enqueued| == |l.accepted| + |l.inFlight| + |l.buf.events| + |l.dropped| + |l.discarded| + |l.lost|
      && |l.buf.events| <= l.buf.Limit()
      && |l.inFlight| <= l.buf.BatchLimit()
      && OverflowExact(l)
  {
    StartInv(maxBatch, maxBuffer);
    RunInv(Start(maxBatch, maxBuffer), actions);
    var l := Run(Start(maxBatch, maxBuffer), actions);
    assert |multiset(l.enqueued)| == |l.enqueued|;
  }

  lemma {:induction false} LimitsFixed(l: Line, actions: seq<Action>)
    ensures Run(l, actions).buf.maxBatch == l.buf.maxBatch && Run(l, actions).buf.maxBuffer == l.buf.maxBuffer
    decreases |actions|
  {
    if actions != [] { LimitsFixed(Do(l, actions[0]), actions[1..]); }
  }

  /** Events are dropped only for want of room: in every run, a step that drops any is an enqueue or a
      requeue, drops the oldest, and leaves the buffer exactly full. */
  lemma DropsOnlyWhenFull(maxBatch: int, maxBuffer: int, actions: seq<Action>, a: Action)
    ensures var l := Run(Start(maxBatch, maxBuffer), actions);
      var l' := Do(l, a);
      |l'.dropped| != |l.dropped| ==>
        && (a.Enqueue? || a.Requeue?)
        && |l'.buf.events| == (if maxBuffer <= 0 then 1000 else maxBuffer)
        && l.dropped <= l'.dropped
        && (if a.Enqueue? then l'.dropped[|l.dropped|..] + l'.buf.events == l.buf.events + [Stamp(a.e, a.now)]
            else l'.dropped[|l.dropped|..] + l'.buf.events == l.inFlight + l.buf.events)
  {
    var l := Run(Start(maxBatch, maxBuffer), actions);
    EveryRun(maxBatch, maxBuffer, actions);
    LimitsFixed(Start(maxBatch, maxBuffer), actions);
    hide Run, Conserved, InOrder, OverflowExact;
    if a.Enqueue? { EnqueueKeepsNewest(l.buf, a.e, a.now); }
    if a.Requeue? { RequeueKeepsNewest(l.buf, l.inFlight); }
  }

  /** As long as no more events were enqueued than the buffer holds, none was dropped. */
  lemma {:induction false} NothingDroppedWithinLimit(maxBatch: int, maxBuffer: int, actions: seq<Action>)
    ensures var l := Run(Start(maxBatch, maxBuffer), actions);
      |l.enqueued| <= (if maxBuffer <= 0 then 1000 else maxBuffer) ==> l.dropped == []
    decreases |actions|
  {
    if actions != [] {
      var n := |actions| - 1;
      var l := Run(Start(maxBatch, maxBuffer), actions[..n]);
      RunSnoc(Start(maxBatch, maxBuffer), actions[..n], actions[n]);
      assert actions == actions[..n] + [actions[n]];
      NothingDroppedWithinLimit(maxBatch, maxBuffer, actions[..n]);
      DropsOnlyWhenFull(maxBatch, maxBuffer, actions[..n], actions[n]);
      EveryRun(maxBatch, maxBuffer, actions);
      EnqueuedGrows(l, actions[n]);
    }
  }

  lemma EnqueuedGrows(l: Line, a: Action)
    ensures |l.enqueued| <= |Do(l, a).enqueued|
  {
  }

  lemma {:induction false} RunSnoc(l: Line, actions: seq<Action>, a: Action)
    ensures Run(l, actions + [a]) == Do(Run(l, actions), a)
    decreases |actions|
  {
    if actions == [] {
      assert [a][1..] == [];
    } else {
      assert (actions + [a])[1..] == actions[1..] + [a];
      RunSnoc(Do(l, actions[0]), actions[1..], a);
    }
  }
}
