/** No stuck delivery: whatever state overflow, lost posts, restarts and rotations left behind, one
    undisturbed reconcile sends a report key that is neither delivered nor on its way. */
module DeliveryProgress {
  import opened Text
  import opened EventKeys
  import opened Events
  import opened Delivery
  import opened DeliverySafety
  import Runs = BatcherRuns

  // ---------- A reconcile on its own ----------

  predicate Smooth(env: Env) {
    env.outcome.Ok? && env.age == 0
  }

  /** How many more steps a reconcile can take when every call succeeds. */
  function Rank(pc: Pc): nat {
    match pc
    case WipeState => 0
    case MarkFlight => 0
    case Report => 1
    case Claim => 2
    case Ack(a) => (match a case Clear => 0 case Patch(_, _) => 1 case Get(_) => 2)
    case Remark => 3
    case Buffered => 4
    case DropInFlight => 5
    case FlightPosting => 6
    case FlightBuffered => 7
    case ReadInFlight => 8
    case DropPending => 9
    case ReadPending => 10
    case DropClaim => 11
  }

  const ENOUGH := 12

  lemma SmoothStep(s: State, r: Ref, env: Env)
    requires r in s.locals && Smooth(env)
    ensures var s' := ReconcileStep(s, r, env);
      r in s'.locals ==> Rank(s'.locals[r].pc) < Rank(s.locals[r].pc)
  {
    hide ManagedStorageEventKey, Runs.Do, MergePatch, Patched;
  }

  /** The reconcile of `r` runs to its end with no other step in between. */
  function RunToEnd(s: State, r: Ref, env: Env): State
    requires Smooth(env)
    decreases if r in s.locals then Rank(s.locals[r].pc) + 1 else 0
  {
    if r !in s.locals then s
    else
      SmoothStep(s, r, env);
      RunToEnd(ReconcileStep(s, r, env), r, env)
  }

  function Repeat(step: Step, n: nat): seq<Step> {
    if n == 0 then [] else [step] + Repeat(step, n - 1)
  }

  /** Running to the end is a run of the system; steps after the end change nothing. */
  lemma {:induction false} EndIsRun(s: State, r: Ref, env: Env, n: nat)
    requires Smooth(env)
    requires r in s.locals ==> Rank(s.locals[r].pc) < n
    ensures Run(s, Repeat(Reconcile(r, env), n)) == RunToEnd(s, r, env)
    decreases n
  {
    hide ReconcileStep;
    var steps := Repeat(Reconcile(r, env), n);
    if n != 0 {
      assert steps[0] == Reconcile(r, env) && steps[1..] == Repeat(Reconcile(r, env), n - 1);
      if r in s.locals { SmoothStep(s, r, env); }
      EndIsRun(Do(s, Reconcile(r, env)), r, env, n - 1);
    }
  }

  // ---------- Progress ----------

  /** Nothing of this key is delivered, buffered or marked as being posted. */
  ghost predicate Undelivered(s: State, r: Ref, key: string) {
    && Inv(s)
    && !Delivered(s.line.accepted, r, key)
    && !Among(s.line.buf.events, r, key)
    && !Holds(s.mem.posting, r, key)
  }

  ghost predicate Sent(s: State, s': State, r: Ref, key: string, env: Env) {
    && r !in s'.locals
    && Holds(s'.mem.inFlight, r, key)
    && s'.line == Runs.Do(s.line, Runs.Enqueue(StorageEvent(r, key, env.now, env.payload), env.now))
    && s'.line.enqueued == s.line.enqueued + [StorageEvent(r, key, env.now, env.payload)]
    && |s'.line.buf.events| > 0
    && s'.line.buf.events[|s'.line.buf.events| - 1] == StorageEvent(r, key, env.now, env.payload)
  }

  /** The buffer check sees exactly the events of this instance and key. */
  lemma BufferCheckExact(s: State, r: Ref, key: string)
    requires Shaped(s) && Plain(r, key)
    ensures s.line.buf.HasKey(StorageKey(r, key)) <==> Among(s.line.buf.events, r, key)
  {
    var es := s.line.buf.events;
    StorageEventWellKeyed(r, key, 0, 0);
    assert ManagedStorageReportKeyFromEventKey(StorageKey(r, key)) == Some(key);
    assert StorageKey(r, key) != "" by { assert StorageKey(r, key)[0] == 'm'; }
    if i :| 0 <= i < |es| && es[i].key == StorageKey(r, key) {
      assert WellKeyed(es[i]);
      SameKeySameRef(es[i], r, key);
      assert Carries(es[i], r, key);
    }
    if i :| 0 <= i < |es| && Carries(es[i], r, key) {
      assert WellKeyed(es[i]);
    }
  }

  lemma SameKeySameRef(e: Event, r: Ref, key: string)
    requires Plain(r, key) && e.key == StorageKey(r, key) == StorageKey(e.ref, key)
    requires ManagedStorageReportKeyFromEventKey(e.key) == Some(key)
    ensures e.ref == r
  {
    assert SLASH !in READY && SLASH !in TRUE_STATUS;
    ManagedStorageKeyParses(e.ref, READY, TRUE_STATUS, key);
    ManagedStorageKeyInjective(r, READY, TRUE_STATUS, key, e.ref, READY, TRUE_STATUS, key);
  }

  predicate OnTheWay(pc: Pc) {
    !pc.WipeState? && !pc.Ack? && !pc.Remark? && !pc.MarkFlight?
  }

  /** One step of an undelivered key's reconcile short of the report keeps it undelivered and on the
      way to the report. */
  lemma NotDeterred(s: State, r: Ref, env: Env)
    requires r in s.locals && Undelivered(s, r, s.locals[r].key) && Smooth(env)
    requires OnTheWay(s.locals[r].pc) && !s.locals[r].pc.Report?
    ensures var s' := ReconcileStep(s, r, env);
      && r in s'.locals && s'.locals[r].key == s.locals[r].key
      && OnTheWay(s'.locals[r].pc) && Undelivered(s', r, s.locals[r].key) && s'.line == s.line
  {
    var key := s.locals[r].key;
    var s' := ReconcileStep(s, r, env);
    ReconcileInv(s, r, env);
    ReconcileFrame(s, r, env);
    NotAcked(s, r);
    BufferCheckExact(s, r, key);
    StaysOnTheWay(s, r, env);
  }

  lemma NotAcked(s: State, r: Ref)
    requires r in s.locals && Undelivered(s, r, s.locals[r].key)
    ensures Plain(r, s.locals[r].key)
    ensures !Holds(s.mem.ackPending, r, s.locals[r].key)
    ensures s.locals[r].app.reported != s.locals[r].key && s.locals[r].app.posted != s.locals[r].key
  {
    assert HonestLocal(s.line.accepted, r, s.locals[r]);
  }

  lemma StaysOnTheWay(s: State, r: Ref, env: Env)
    requires r in s.locals && Smooth(env) && OnTheWay(s.locals[r].pc) && !s.locals[r].pc.Report?
    requires var key := s.locals[r].key;
      && !Holds(s.mem.ackPending, r, key) && !Holds(s.mem.posting, r, key)
      && s.locals[r].app.reported != key && s.locals[r].app.posted != key
      && !s.line.buf.HasKey(StorageKey(r, key))
    ensures var s' := ReconcileStep(s, r, env);
      r in s'.locals && s'.locals[r].key == s.locals[r].key && OnTheWay(s'.locals[r].pc)
  {
    hide ManagedStorageEventKey, Runs.Do, MergePatch;
  }

  lemma ReportSends(s: State, r: Ref, env: Env)
    requires r in s.locals && s.locals[r].pc.Report? && Smooth(env) && Plain(r, s.locals[r].key)
    ensures Sent(s, RunToEnd(s, r, env), r, s.locals[r].key, env)
  {
    var key := s.locals[r].key;
    var e := StorageEvent(r, key, env.now, env.payload);
    var s1 := ReconcileStep(s, r, env);
    assert s1.line.buf.events[|s1.line.buf.events| - 1] == e;
    SmoothStep(s, r, env);
    var s2 := ReconcileStep(s1, r, env);
    assert RunToEnd(s1, r, env) == RunToEnd(s2, r, env) == s2;
  }

  lemma {:induction false} Progress(s: State, r: Ref, env: Env)
    requires r in s.locals && Undelivered(s, r, s.locals[r].key) && OnTheWay(s.locals[r].pc) && Smooth(env)
    ensures Sent(s, RunToEnd(s, r, env), r, s.locals[r].key, env)
    decreases Rank(s.locals[r].pc)
  {
    hide Undelivered, Sent, ReconcileStep;
    if s.locals[r].pc.Report? {
      KeyPlain(s, r);
      ReportSends(s, r, env);
    } else {
      var s' := ReconcileStep(s, r, env);
      SmoothStep(s, r, env);
      NotDeterred(s, r, env);
      Progress(s', r, env);
      SentSame(s, s', RunToEnd(s', r, env), r, s.locals[r].key, env);
    }
  }

  lemma KeyPlain(s: State, r: Ref)
    requires r in s.locals && Undelivered(s, r, s.locals[r].key)
    ensures Plain(r, s.locals[r].key)
  {
  }

  lemma SentSame(s: State, s1: State, s2: State, r: Ref, key: string, env: Env)
    requires Sent(s1, s2, r, key, env) && s1.line == s.line
    ensures Sent(s, s2, r, key, env)
  {
  }

  /** A posting mark stands for an event that was just accepted or is in flight. */
  lemma MarkExplained(s: State, r: Ref)
    requires Inv(s) && r in s.mem.posting
    ensures Delivered(s.line.accepted, r, s.mem.posting[r]) || Among(s.line.inFlight, r, s.mem.posting[r])
  {
    var k, b := s.mem.posting[r], s.flusher.batch;
    MarkInBatch(s.flusher, r, k);
    if s.flusher.Acking? {
      var j :| 0 <= j < |b| && Carries(b[j], r, k);
      hide EndpointsReportKeyFromEventKey, ManagedStorageReportKeyFromEventKey;
      AckKeyAgrees(b[j]);
      assert HonestAt(s.line.accepted, b[j], AckAt.MarkPending);
    }
  }

  lemma BeginUndelivered(s: State, r: Ref, key: string)
    requires Undelivered(s, r, key) && r !in s.locals && Plain(r, key)
    ensures var s1 := Do(s, Begin(r, key, 0));
      && r in s1.locals && s1.locals[r].key == key && s1.line == s.line
      && Undelivered(s1, r, key) && OnTheWay(s1.locals[r].pc)
  {
    ReadsHonest(s, r, 0);
    BeginInv(s, r, key, 0);
  }

  /** From any reachable state in which no reconcile of the instance is running and the current
      report key was never accepted, is not buffered and is not in the batch being sent, one
      reconcile that reads the current annotations and whose patches succeed enqueues exactly the
      instance's event for that key and marks it in flight, whatever claims, in-flight marks,
      pending acks or overflow the run left behind. */
  lemma NoStuckDelivery(maxBatch: int, maxBuffer: int, steps: seq<Step>, r: Ref, key: string, env: Env)
    requires Plain(r, key) && Smooth(env)
    requires var s := Run(Start(maxBatch, maxBuffer), steps);
      && r !in s.locals
      && !Delivered(s.line.accepted, r, key)
      && !Among(s.line.buf.events, r, key)
      && !Among(s.line.inFlight, r, key)
    ensures var s := Run(Start(maxBatch, maxBuffer), steps);
      Sent(s, Run(s, [Begin(r, key, 0)] + Repeat(Reconcile(r, env), ENOUGH)), r, key, env)
  {
    hide Sent, RunToEnd, Among, Delivered;
    var s := Run(Start(maxBatch, maxBuffer), steps);
    Reachable(maxBatch, maxBuffer, steps);
    if r in s.mem.posting { MarkExplained(s, r); }
    UndeliveredSent(s, r, key, env);
  }

  /** The same from any state of the invariant in which the key is not marked as being posted. */
  lemma UndeliveredSent(s: State, r: Ref, key: string, env: Env)
    requires Undelivered(s, r, key) && r !in s.locals && Plain(r, key) && Smooth(env)
    ensures Sent(s, Run(s, [Begin(r, key, 0)] + Repeat(Reconcile(r, env), ENOUGH)), r, key, env)
  {
    hide Sent, RunToEnd, Undelivered;
    BeginUndelivered(s, r, key);
    var s1 := Do(s, Begin(r, key, 0));
    Progress(s1, r, env);
    EndIsRun(s1, r, env, ENOUGH);
    SentSame(s, s1, RunToEnd(s1, r, env), r, key, env);
    var rest := Repeat(Reconcile(r, env), ENOUGH);
    assert ([Begin(r, key, 0)] + rest)[1..] == rest;
  }
}
