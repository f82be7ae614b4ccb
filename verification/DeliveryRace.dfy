/** Why the schedule of DeliveryOnce is needed. Runs from the start, for every instance and key, into each
    kind of misled look and into a second copy: the acknowledgement overtakes a reconcile between its
    looks, a reconcile looks in a gap around a post, a failed post returns between two looks. And runs
    with a stale read, with rotated credentials and with a restart. */
module DeliveryRace {
  import opened Text
  import opened EventKeys
  import opened Events
  import opened Delivery
  import opened DeliverySafety
  import opened DeliveryProgress
  import opened DeliveryOnce
  import Runs = BatcherRuns
  import Batcher

  const CALM := Env(Ok, 0, true, 1, 0)

  lemma Extend(steps: seq<Step>, s: State, step: Step) returns (steps': seq<Step>, s': State)
    requires s == Run(Start(0, 0), steps)
    ensures s' == Run(Start(0, 0), steps') && s' == Do(s, step)
  {
    steps', s' := steps + [step], Do(s, step);
    RunAppend(Start(0, 0), steps, [step]);
    assert [step][1..] == [];
  }

  lemma Nothing() returns (steps: seq<Step>, s: State)
    ensures s == Start(0, 0) == Run(Start(0, 0), steps)
  {
    steps, s := [], Start(0, 0);
  }

  /** A first reconcile sends the event. */
  lemma FirstSend(r: Ref, k: string) returns (steps: seq<Step>, s: State)
    requires Plain(r, k)
    ensures s == Run(Start(0, 0), steps)
    ensures s.line == Runs.Do(Runs.Start(0, 0), Runs.Enqueue(StorageEvent(r, k, 1, 0), 1))
    ensures s.mem == Memory(map[r := k], map[], map[]) && s.Current(r) == Annotations("", k, "")
    ensures s.flusher.Idle? && s.locals == map[]
  {
    hide ManagedStorageEventKey, Run;
    steps, s := Nothing();
    steps, s := Extend(steps, s, Begin(r, k, 0));
    steps, s := Extend(steps, s, Reconcile(r, CALM));
    steps, s := Extend(steps, s, Reconcile(r, CALM));
    assert s.locals[r] == Local(Buffered, k, BARE);
    steps, s := Extend(steps, s, Reconcile(r, CALM));
    assert s.locals[r] == Local(Claim, k, BARE);
    steps, s := Extend(steps, s, Reconcile(r, CALM));
    assert s.locals[r] == Local(Report, k, Annotations("", k, ""));
    steps, s := Extend(steps, s, Reconcile(r, CALM));
    steps, s := Extend(steps, s, Reconcile(r, CALM));
    assert s.locals == map[];
  }

  // ---------- The gaps ----------

  /** The only event is in the flusher's hands, unmarked, and was never accepted. */
  ghost predicate InGap(steps: seq<Step>, s: State, r: Ref, k: string) {
    && s == Run(Start(0, 0), steps) && r !in s.locals && Gap(s, r, k)
    && s.line.accepted == [] && s.line.buf.events == []
  }

  lemma OneEvent(r: Ref, k: string)
    requires Plain(r, k)
    ensures Copies([StorageEvent(r, k, 1, 0)], r, k) == 1
  {
    StorageEventWellKeyed(r, k, 1, 0);
    assert [StorageEvent(r, k, 1, 0)][1..] == [];
  }

  /** One event enqueued in an empty buffer, and extracted. */
  lemma OneExtracted(e: Event)
    ensures var l := Runs.Do(Runs.Start(0, 0), Runs.Enqueue(e, 1));
      var taken := Runs.Do(l, Runs.Take);
      && l.buf.events == [Batcher.Stamp(e, 1)] && l.buf.Batch() == [Batcher.Stamp(e, 1)] && l.accepted == []
      && l.buf.maxBuffer == 0
      && taken.inFlight == [Batcher.Stamp(e, 1)] && taken.buf.events == [] && taken.accepted == []
      && taken.stage.Holding? && taken.buf.maxBuffer == 0
  {
    var l0 := Runs.Start(0, 0);
    assert l0.buf.EnqueueDrop() == 0 && l0.buf.events[0..] == [];
    var l := Runs.Do(l0, Runs.Enqueue(e, 1));
    var s := Batcher.Stamp(e, 1);
    assert l.buf.events == [s];
    assert l.buf.BatchSize() == 1;
    assert [s][..1] == [s] && [s][1..] == [];
  }

  /** Extracted and not prepared. */
  lemma ExtractGap(r: Ref, k: string) returns (steps: seq<Step>, s: State)
    requires Plain(r, k)
    ensures InGap(steps, s, r, k) && s.flusher == Taken([StorageEvent(r, k, 1, 0)]) && s.locals == map[]
    ensures s.line.stage.Holding? && s.line.inFlight == s.flusher.batch && s.line.buf.maxBuffer == 0
    ensures s.mem == Memory(map[r := k], map[], map[]) && s.Current(r) == Annotations("", k, "")
  {
    hide ManagedStorageEventKey, ManagedStorageReportKeyFromEventKey, EndpointsReportKeyFromEventKey, Run;
    OneEvent(r, k);
    steps, s := FirstSend(r, k);
    OneExtracted(StorageEvent(r, k, 1, 0));
    hide Runs.Do;
    steps, s := Extend(steps, s, Flush(CALM));
  }

  /** The batch is prepared and on its way to PostEvents. */
  lemma PostGoesOut(r: Ref, k: string) returns (steps: seq<Step>, s: State)
    requires Plain(r, k)
    ensures s == Run(Start(0, 0), steps) && s.flusher == Posting([StorageEvent(r, k, 1, 0)]) && s.locals == map[]
    ensures s.line.accepted == [] && s.line.buf.events == [] && s.line.buf.maxBuffer == 0
    ensures s.line.stage.Holding? && s.line.inFlight == s.flusher.batch
    ensures s.mem == Memory(map[r := k], map[r := k], map[]) && s.Current(r) == Annotations("", k, "")
  {
    hide ManagedStorageEventKey, ManagedStorageReportKeyFromEventKey, EndpointsReportKeyFromEventKey, Run;
    StorageEventWellKeyed(r, k, 1, 0);
    steps, s := ExtractGap(r, k);
    steps, s := Extend(steps, s, Flush(CALM));
    steps, s := Extend(steps, s, Flush(CALM));
    assert s.mem.posting == map[r := k];
    steps, s := Extend(steps, s, Flush(CALM));
  }

  /** The post failed, the mark is cleared and the batch is not yet put back. */
  lemma AbortGap(r: Ref, k: string) returns (steps: seq<Step>, s: State)
    requires Plain(r, k)
    ensures InGap(steps, s, r, k) && s.flusher == Aborting([StorageEvent(r, k, 1, 0)], 1)
  {
    hide ManagedStorageEventKey, ManagedStorageReportKeyFromEventKey, EndpointsReportKeyFromEventKey, Run;
    OneEvent(r, k);
    StorageEventWellKeyed(r, k, 1, 0);
    steps, s := PostGoesOut(r, k);
    steps, s := Extend(steps, s, Flush(CALM.(outcome := Fail)));
    assert s.flusher == Aborting([StorageEvent(r, k, 1, 0)], 0);
    steps, s := Extend(steps, s, Flush(CALM));
    assert r !in s.mem.posting;
  }

  /** For every instance and key, a reconcile that begins after the extraction, and one that begins
      after a failed post before the batch is back, puts a second copy on its way; no call of either
      fails. */
  lemma GapsSendTwice(r: Ref, k: string) returns (extracted: seq<Step>, aborted: seq<Step>)
    requires Plain(r, k)
    ensures OnItsWay(Run(Start(0, 0), extracted), r, k) >= 2
    ensures OnItsWay(Run(Start(0, 0), aborted), r, k) >= 2
  {
    hide Run, Copies, Delivered, Among;
    var s: State;
    extracted, s := ExtractGap(r, k);
    extracted := SendAgain(extracted, s, r, k);
    aborted, s := AbortGap(r, k);
    aborted := SendAgain(aborted, s, r, k);
  }

  lemma SendAgain(steps: seq<Step>, s: State, r: Ref, k: string) returns (steps': seq<Step>)
    requires Plain(r, k) && InGap(steps, s, r, k)
    ensures OnItsWay(Run(Start(0, 0), steps'), r, k) >= 2
  {
    hide Run, Copies;
    var rest := [Begin(r, k, 0)] + Repeat(Reconcile(r, CALM), ENOUGH);
    GapSendsAgain(0, 0, steps, r, k, CALM);
    RunAppend(Start(0, 0), steps, rest);
    steps' := steps + rest;
  }

  // ---------- Stale reads and rotated keys ----------

  /** The event was accepted, and the callback has marked it and read the annotations. */
  lemma Accepted(r: Ref, k: string) returns (steps: seq<Step>, s: State)
    requires Plain(r, k)
    ensures s == Run(Start(0, 0), steps) && s.locals == map[]
    ensures s.flusher == Acking([StorageEvent(r, k, 1, 0)], 0, PatchPosted(Annotations("", k, "")))
    ensures s.line.accepted == [StorageEvent(r, k, 1, 0)] && s.line.buf.events == [] && s.line.buf.maxBuffer == 0
    ensures s.mem == Memory(map[], map[], map[r := k]) && s.Current(r) == Annotations("", k, "")
  {
    hide ManagedStorageEventKey, ManagedStorageReportKeyFromEventKey, EndpointsReportKeyFromEventKey, Run;
    StorageEventWellKeyed(r, k, 1, 0);
    steps, s := PostGoesOut(r, k);
    steps, s := Extend(steps, s, Flush(CALM));
    assert s.line.accepted == [StorageEvent(r, k, 1, 0)];
    steps, s := Extend(steps, s, Flush(CALM));
    assert s.mem.ackPending == map[r := k];
    steps, s := Extend(steps, s, Flush(CALM));
    assert s.mem.inFlight == map[];
    steps, s := Extend(steps, s, Flush(CALM));
    assert s.mem.posting == map[];
    steps, s := Extend(steps, s, Flush(CALM));
  }

  /** The acknowledgement goes through and the callback is done with the event. */
  lemma Acknowledged(r: Ref, k: string) returns (steps: seq<Step>, s: State)
    requires Plain(r, k)
    ensures s == Run(Start(0, 0), steps) && s.locals == map[] && s.mem == FRESH_MEMORY
    ensures s.line.accepted == [StorageEvent(r, k, 1, 0)] && s.line.buf.events == [] && s.line.buf.maxBuffer == 0
    ensures s.Current(r).reported == k && s.Snapshot(r, 2) == Annotations("", k, "")
  {
    hide ManagedStorageEventKey, ManagedStorageReportKeyFromEventKey, EndpointsReportKeyFromEventKey, Run;
    StorageEventWellKeyed(r, k, 1, 0);
    steps, s := Accepted(r, k);
    steps, s := Extend(steps, s, Flush(CALM));
    assert s.Current(r) == Annotations("", k, k) && s.Snapshot(r, 1) == Annotations("", k, "");
    steps, s := Extend(steps, s, Flush(CALM));
    steps, s := Extend(steps, s, Flush(CALM));
    assert s.Current(r) == Annotations(k, "", "") && s.Snapshot(r, 2) == Annotations("", k, "");
    steps, s := Extend(steps, s, Flush(CALM));
    assert s.mem == FRESH_MEMORY;
  }

  /** A read that lags behind the acknowledgement sends an accepted event again. */
  lemma StaleReadSendsAgain(r: Ref, k: string) returns (steps: seq<Step>)
    requires Plain(r, k)
    ensures var s := Run(Start(0, 0), steps);
      Copies(s.line.accepted, r, k) == 1 && OnItsWay(s, r, k) >= 1
  {
    hide ManagedStorageEventKey, ManagedStorageReportKeyFromEventKey, EndpointsReportKeyFromEventKey, Run;
    OneEvent(r, k);
    var s: State;
    steps, s := Acknowledged(r, k);
    steps, s := Extend(steps, s, Begin(r, k, 2));
    assert s.locals[r] == Local(ReadPending, k, Annotations("", k, ""));
    steps, s := Extend(steps, s, Reconcile(r, CALM));
    steps, s := Extend(steps, s, Reconcile(r, CALM));
    assert s.locals[r].pc.Buffered?;
    steps, s := Extend(steps, s, Reconcile(r, CALM));
    assert s.locals[r].pc.Report?;
    steps, s := Extend(steps, s, Reconcile(r, CALM));
    assert s.line.buf.events[|s.line.buf.events| - 1] == StorageEvent(r, k, 1, 0);
    LastCopy(s.line.buf.events, r, k, CALM);
  }

  /** A reconcile for `key` that finds a claim and an in-flight mark of another key, and no event of its
      own in the buffer, drops both and comes to claim for itself. */
  lemma Turned(steps: seq<Step>, s: State, r: Ref, key: string, other: string) returns (steps': seq<Step>, s': State)
    requires Plain(r, key) && other != key && other != "" && r !in s.locals && s == Run(Start(0, 0), steps)
    requires s.Current(r) == Annotations("", other, "") && Holds(s.mem.inFlight, r, other) && r !in s.mem.ackPending
    requires !s.line.buf.HasKey(StorageKey(r, key))
    ensures s' == Run(Start(0, 0), steps') && s'.line == s.line && s'.mem == s.mem.ClearInFlight(r)
      && s'.flusher == s.flusher
    ensures s'.Current(r) == BARE && s'.locals == s.locals[r := Local(Claim, key, BARE)]
  {
    hide ManagedStorageEventKey, Run, Runs.Do;
    steps', s' := Extend(steps, s, Begin(r, key, 0));
    assert s'.locals[r] == Local(DropClaim, key, Annotations("", other, ""));
    steps', s' := Extend(steps', s', Reconcile(r, CALM));
    assert s'.locals[r] == Local(ReadPending, key, BARE) && s'.Current(r) == BARE;
    steps', s' := Extend(steps', s', Reconcile(r, CALM));
    steps', s' := Extend(steps', s', Reconcile(r, CALM));
    assert s'.locals[r] == Local(DropInFlight, key, BARE);
    steps', s' := Extend(steps', s', Reconcile(r, CALM));
    steps', s' := Extend(steps', s', Reconcile(r, CALM));
  }

  /** From its claim on, the reconcile sends. */
  lemma Claims(steps: seq<Step>, s: State, r: Ref, key: string) returns (steps': seq<Step>, s': State)
    requires Plain(r, key) && s == Run(Start(0, 0), steps) && s.Current(r) == BARE
    requires r in s.locals && s.locals[r] == Local(Claim, key, BARE)
    ensures s' == Run(Start(0, 0), steps') && s'.line == Runs.Do(s.line, Runs.Enqueue(StorageEvent(r, key, 1, 0), 1))
    ensures s'.mem == s.mem.MarkInFlight(r, key) && s'.flusher == s.flusher
    ensures s'.Current(r) == Annotations("", key, "") && s'.locals == s.locals - {r}
  {
    hide ManagedStorageEventKey, Run, Runs.Do;
    steps', s' := Extend(steps, s, Reconcile(r, CALM));
    assert s'.locals[r] == Local(Report, key, Annotations("", key, "")) && s'.Current(r) == Annotations("", key, "");
    steps', s' := Extend(steps', s', Reconcile(r, CALM));
    steps', s' := Extend(steps', s', Reconcile(r, CALM));
  }

  lemma OtherKey(r: Ref, k: string, k': string)
    requires Plain(r, k) && Plain(r, k') && k != k'
    ensures StorageKey(r, k) != StorageKey(r, k')
  {
    StorageEventWellKeyed(r, k, 0, 0);
    StorageEventWellKeyed(r, k', 0, 0);
  }

  /** Credentials rotated away and back while a batch is being posted send the key a second time. */
  lemma RotationSendsTwice(r: Ref, k: string, k': string) returns (steps: seq<Step>)
    requires Plain(r, k) && Plain(r, k') && k != k'
    ensures OnItsWay(Run(Start(0, 0), steps), r, k) >= 2
  {
    hide ManagedStorageEventKey, ManagedStorageReportKeyFromEventKey, Run, Copies;
    OneEvent(r, k);
    OtherKey(r, k, k');
    var s: State;
    steps, s := PostGoesOut(r, k);
    steps, s := Turned(steps, s, r, k', k);
    steps, s := Claims(steps, s, r, k');
    assert s.line.buf.events == [StorageEvent(r, k', 1, 0)];
    steps, s := Turned(steps, s, r, k, k');
    steps, s := Claims(steps, s, r, k);
    assert s.line.buf.events == [StorageEvent(r, k', 1, 0), StorageEvent(r, k, 1, 0)];
    LastCopy(s.line.buf.events, r, k, CALM);
  }

  /** A restart between the post and its acknowledgement sends an accepted event again. */
  lemma RestartSendsAgain(r: Ref, k: string) returns (steps: seq<Step>)
    requires Plain(r, k)
    ensures var s := Run(Start(0, 0), steps);
      Copies(s.line.accepted, r, k) == 1 && OnItsWay(s, r, k) >= 1
  {
    hide ManagedStorageEventKey, ManagedStorageReportKeyFromEventKey, EndpointsReportKeyFromEventKey, Run;
    OneEvent(r, k);
    var s: State;
    steps, s := Accepted(r, k);
    steps, s := Extend(steps, s, Restart(false));
    assert s.line.accepted == [StorageEvent(r, k, 1, 0)] && s.line.buf.events == [];
    steps, s := Extend(steps, s, Begin(r, k, 0));
    assert s.locals[r] == Local(ReadPending, k, Annotations("", k, ""));
    steps, s := Extend(steps, s, Reconcile(r, CALM));
    steps, s := Extend(steps, s, Reconcile(r, CALM));
    steps, s := Extend(steps, s, Reconcile(r, CALM));
    assert s.locals[r].pc.Report?;
    steps, s := Extend(steps, s, Reconcile(r, CALM));
    assert s.line.buf.events[|s.line.buf.events| - 1] == StorageEvent(r, k, 1, 0);
    LastCopy(s.line.buf.events, r, k, CALM);
  }

  // ---------- Misled looks ----------

  /** A reconcile that is misled now sends another copy. */
  lemma Resend(steps: seq<Step>, s: State, r: Ref, k: string) returns (steps': seq<Step>)
    requires s == Run(Start(0, 0), steps) && Plain(r, k) && Misled(s, r, k)
    requires s.locals[r].key == k && Untold(s.locals[r].app, k) && s.line.buf.events == []
    ensures var s' := Run(Start(0, 0), steps');
      s'.line.accepted == s.line.accepted && Copies(s'.line.buf.events, r, k) >= 1
  {
    hide Run, Copies, Misled, Delivered;
    MisledSendsAgain(0, 0, steps, r, k, CALM);
    var rest := Repeat(Reconcile(r, CALM), ENOUGH);
    RunAppend(Start(0, 0), steps, rest);
    steps' := steps + rest;
    LastCopy(Run(s, rest).line.buf.events, r, k, CALM);
  }

  /** A reconcile begins while the batch is being posted and finds no pending ack; the post succeeds. */
  lemma FoundNoAck(r: Ref, k: string) returns (steps: seq<Step>, s: State)
    requires Plain(r, k)
    ensures s == Run(Start(0, 0), steps) && s.line.accepted == [] && s.line.buf.events == []
    ensures s.line.stage.Holding? && s.line.inFlight == [StorageEvent(r, k, 1, 0)]
    ensures s.flusher == Posting([StorageEvent(r, k, 1, 0)]) && s.mem == Memory(map[r := k], map[r := k], map[])
    ensures r in s.locals && s.locals[r] == Local(ReadInFlight, k, Annotations("", k, ""))
  {
    hide ManagedStorageEventKey, ManagedStorageReportKeyFromEventKey, EndpointsReportKeyFromEventKey, Run;
    steps, s := PostGoesOut(r, k);
    steps, s := Extend(steps, s, Begin(r, k, 0));
    steps, s := Extend(steps, s, Reconcile(r, CALM));
  }

  /** The acknowledgement overtakes a reconcile before its look at the in-flight mark: the key was
      accepted and another copy of it is buffered. */
  lemma SecondCopy(r: Ref, k: string) returns (steps: seq<Step>)
    requires Plain(r, k)
    ensures var s := Run(Start(0, 0), steps);
      Copies(s.line.accepted, r, k) == 1 && OnItsWay(s, r, k) >= 1
  {
    hide ManagedStorageEventKey, ManagedStorageReportKeyFromEventKey, EndpointsReportKeyFromEventKey, Run;
    OneEvent(r, k);
    StorageEventWellKeyed(r, k, 1, 0);
    var s: State;
    steps, s := FoundNoAck(r, k);
    steps, s := Extend(steps, s, Flush(CALM));
    assert s.line.accepted == [StorageEvent(r, k, 1, 0)];
    steps, s := Extend(steps, s, Flush(CALM));
    assert s.mem.ackPending == map[r := k];
    steps, s := Extend(steps, s, Flush(CALM));
    assert s.mem.inFlight == map[] && Misled(s, r, k);
    steps := Resend(steps, s, r, k);
  }

  /** The reconcile has found its event gone from the buffer and is about to look whether it is being
      posted. */
  lemma FoundNotBuffered(r: Ref, k: string) returns (steps: seq<Step>, s: State)
    requires Plain(r, k)
    ensures s == Run(Start(0, 0), steps) && s.line.accepted == [] && s.line.buf.events == []
    ensures s.line.stage.Holding? && s.line.inFlight == [StorageEvent(r, k, 1, 0)] && s.line.buf.maxBuffer == 0
    ensures s.flusher == Posting([StorageEvent(r, k, 1, 0)]) && s.mem == Memory(map[r := k], map[r := k], map[])
    ensures s.locals == map[r := Local(FlightPosting, k, Annotations("", k, ""))]
    ensures s.Current(r) == Annotations("", k, "")
  {
    hide ManagedStorageEventKey, ManagedStorageReportKeyFromEventKey, EndpointsReportKeyFromEventKey, Run;
    steps, s := PostGoesOut(r, k);
    steps, s := Extend(steps, s, Begin(r, k, 0));
    steps, s := Extend(steps, s, Reconcile(r, CALM));
    steps, s := Extend(steps, s, Reconcile(r, CALM));
    assert s.locals[r].pc.FlightBuffered?;
    steps, s := Extend(steps, s, Reconcile(r, CALM));
  }

  /** The acknowledgement overtakes a reconcile before its look at the posting mark. */
  lemma SecondCopyAtPosting(r: Ref, k: string) returns (steps: seq<Step>)
    requires Plain(r, k)
    ensures var s := Run(Start(0, 0), steps);
      Copies(s.line.accepted, r, k) == 1 && OnItsWay(s, r, k) >= 1
  {
    hide ManagedStorageEventKey, ManagedStorageReportKeyFromEventKey, EndpointsReportKeyFromEventKey, Run;
    OneEvent(r, k);
    StorageEventWellKeyed(r, k, 1, 0);
    var s: State;
    steps, s := FoundNotBuffered(r, k);
    steps, s := Extend(steps, s, Flush(CALM));
    assert s.line.accepted == [StorageEvent(r, k, 1, 0)];
    steps, s := Extend(steps, s, Flush(CALM));
    assert s.mem.ackPending == map[r := k];
    steps, s := Extend(steps, s, Flush(CALM));
    steps, s := Extend(steps, s, Flush(CALM));
    assert s.mem.posting == map[] && Misled(s, r, k);
    steps := Resend(steps, s, r, k);
  }

  /** The post fails and the batch is back in the buffer between the two looks. */
  lemma Returned(r: Ref, k: string) returns (steps: seq<Step>, s: State)
    requires Plain(r, k)
    ensures s == Run(Start(0, 0), steps) && s.flusher.Idle? && s.line.stage.Idle?
    ensures s.line.buf.events == [StorageEvent(r, k, 1, 0)] && s.line.buf.maxBuffer == 0
    ensures s.mem == Memory(map[r := k], map[], map[]) && s.Current(r) == Annotations("", k, "")
    ensures s.locals == map[r := Local(FlightPosting, k, Annotations("", k, ""))]
  {
    hide ManagedStorageEventKey, ManagedStorageReportKeyFromEventKey, EndpointsReportKeyFromEventKey, Run;
    StorageEventWellKeyed(r, k, 1, 0);
    steps, s := FoundNotBuffered(r, k);
    steps, s := Extend(steps, s, Flush(CALM.(outcome := Fail)));
    steps, s := Extend(steps, s, Flush(CALM));
    assert s.mem.posting == map[] && s.flusher == Aborting([StorageEvent(r, k, 1, 0)], 1);
    steps, s := Extend(steps, s, Flush(CALM));
    steps, s := PutBack(steps, s, r, k);
  }

  /** The reconcile drops the in-flight mark of the buffered event. */
  lemma MarkLost(r: Ref, k: string) returns (steps: seq<Step>, s: State)
    requires Plain(r, k)
    ensures s == Run(Start(0, 0), steps) && s.flusher.Idle? && s.line.stage.Idle?
    ensures s.line.buf.events == [StorageEvent(r, k, 1, 0)] && s.line.buf.maxBuffer == 0
    ensures s.locals == map[] && s.mem == FRESH_MEMORY && s.Current(r) == Annotations("", k, "")
  {
    hide ManagedStorageEventKey, Run, Runs.Do;
    KeyNotEmpty(r, k);
    steps, s := Returned(r, k);
    steps, s := Extend(steps, s, Reconcile(r, CALM));
    steps, s := Extend(steps, s, Reconcile(r, CALM));
    assert s.mem.inFlight == map[] && s.locals[r].pc.Buffered?;
    assert s.line.buf.events[0].key == StorageKey(r, k);
    steps, s := Extend(steps, s, Reconcile(r, CALM));
  }

  lemma KeyNotEmpty(r: Ref, k: string)
    ensures StorageKey(r, k) != ""
  {
    assert StorageKey(r, k)[0] == 'm';
  }

  lemma PutBack(steps: seq<Step>, s: State, r: Ref, k: string) returns (steps': seq<Step>, s': State)
    requires s == Run(Start(0, 0), steps) && s.flusher == Aborted([StorageEvent(r, k, 1, 0)])
    requires s.line.inFlight == s.flusher.batch && s.line.buf.events == [] && s.line.stage.Holding?
      && s.line.buf.maxBuffer == 0
    ensures s' == Run(Start(0, 0), steps') && s'.flusher.Idle? && s'.line.stage.Idle?
    ensures s'.line.buf.events == [StorageEvent(r, k, 1, 0)] && s'.line.buf.maxBuffer == 0
    ensures s'.locals == s.locals && s'.mem == s.mem && s'.history == s.history
  {
    hide ManagedStorageEventKey, Run;
    var e := StorageEvent(r, k, 1, 0);
    assert s.line.inFlight + s.line.buf.events == [e] && s.line.buf.RequeueDrop([e]) == 0 && [e][0..] == [e];
    steps', s' := Extend(steps, s, Flush(CALM));
  }

  lemma ExtractAgain(steps: seq<Step>, s: State, r: Ref, k: string) returns (steps': seq<Step>, s': State)
    requires s == Run(Start(0, 0), steps) && s.flusher.Idle? && s.line.stage.Idle?
    requires s.line.buf.events == [StorageEvent(r, k, 1, 0)]
    ensures s' == Run(Start(0, 0), steps') && s'.line.inFlight == [StorageEvent(r, k, 1, 0)] && s'.line.buf.events == []
    ensures s'.line.buf.maxBuffer == s.line.buf.maxBuffer
    ensures s'.locals == s.locals && s'.mem == s.mem && s'.history == s.history
  {
    hide ManagedStorageEventKey, Run;
    var e := StorageEvent(r, k, 1, 0);
    assert s.line.buf.BatchSize() == 1 && [e][..1] == [e] && [e][1..] == [];
    steps', s' := Extend(steps, s, Flush(CALM));
  }

  /** Then the next reconcile, after the next extraction, sends a second copy. */
  lemma LostMarkSendsTwice(r: Ref, k: string) returns (steps: seq<Step>)
    requires Plain(r, k)
    ensures OnItsWay(Run(Start(0, 0), steps), r, k) >= 2
  {
    hide ManagedStorageEventKey, Run, Copies;
    OneEvent(r, k);
    var s: State;
    steps, s := MarkLost(r, k);
    steps, s := ExtractAgain(steps, s, r, k);
    steps, s := Extend(steps, s, Begin(r, k, 0));
    assert s.locals[r] == Local(ReadPending, k, Annotations("", k, ""));
    steps, s := Extend(steps, s, Reconcile(r, CALM));
    steps, s := Extend(steps, s, Reconcile(r, CALM));
    assert s.locals[r].pc.Buffered?;
    steps, s := Extend(steps, s, Reconcile(r, CALM));
    assert s.locals[r].pc.Report?;
    steps, s := Extend(steps, s, Reconcile(r, CALM));
    assert s.line.buf.events[|s.line.buf.events| - 1] == StorageEvent(r, k, 1, 0);
    LastCopy(s.line.buf.events, r, k, CALM);
  }
}
