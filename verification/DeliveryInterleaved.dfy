/** No stuck delivery with everything else going on: while a reconcile whose calls succeed makes its
    steps, the flusher, other reporters and the reconciles of other instances make theirs, in any order
    and with any outcome. */
module DeliveryInterleaved {
  import opened Text
  import opened EventKeys
  import opened Events
  import opened Delivery
  import opened DeliverySafety
  import opened DeliveryProgress
  import opened DeliveryOnce
  import Runs = BatcherRuns
  import Batcher

  /** The reconcile of `r` is on its way to report a key of which there is no copy anywhere. */
  ghost predicate Waiting(s: State, r: Ref, key: string) {
    && Inv(s) && r in s.locals && s.locals[r].key == key && OnTheWay(s.locals[r].pc)
    && Alive(s.line, r, key) == 0
  }

  /** Copies that were accepted, are in flight or are buffered. */
  function Alive(l: Runs.Line, r: Ref, k: string): nat {
    Copies(l.accepted, r, k) + Copies(l.inFlight, r, k) + Copies(l.buf.events, r, k)
  }

  /** The event was enqueued after the first `n` enqueues. */
  ghost predicate EnqueuedSince(s: State, n: nat, r: Ref, k: string) {
    exists i :: n <= i < |s.line.enqueued| && Carries(s.line.enqueued[i], r, k)
  }

  predicate OwnStepOf(step: Step, r: Ref) {
    step.Reconcile? && step.r == r
  }

  /** The process does not restart, and the calls of the reconcile of `r` succeed. */
  predicate Fair(step: Step, r: Ref) {
    !step.Restart? && (OwnStepOf(step, r) ==> Smooth(step.env))
  }

  predicate AllFair(steps: seq<Step>, r: Ref) {
    forall i :: 0 <= i < |steps| ==> Fair(steps[i], r)
  }

  function OwnSteps(steps: seq<Step>, r: Ref): nat {
    if steps == [] then 0 else (if OwnStepOf(steps[0], r) then 1 else 0) + OwnSteps(steps[1..], r)
  }

  // ---------- Steps of the others ----------

  lemma LineAlive(l: Runs.Line, a: Runs.Action, r: Ref, k: string)
    requires a.Enqueue? ==> Copies([a.e], r, k) == 0
    ensures Alive(Runs.Do(l, a), r, k) <= Alive(l, r, k) && l.enqueued <= Runs.Do(l, a).enqueued
  {
    LineCopies(l, a, r, k);
    NoneAmong(r, k);
    hide Copies;
  }

  lemma FlushAlive(s: State, env: Env, r: Ref, k: string)
    ensures var s' := FlushStep(s, env);
      Alive(s'.line, r, k) <= Alive(s.line, r, k) && s.line.enqueued <= s'.line.enqueued && s'.locals == s.locals
  {
    hide Copies, Runs.Do, AckEventStep, PrepareOne, AbortOne, Alive;
    LineAlive(s.line, Runs.Take, r, k);
    LineAlive(s.line, Runs.Discard, r, k);
    LineAlive(s.line, Runs.Accept, r, k);
    LineAlive(s.line, Runs.Requeue, r, k);
    LineAlive(s.line, Runs.Close, r, k);
    if s.flusher.Acking? && s.flusher.n < |s.flusher.batch| { AckEventFrame(s, env); }
  }

  lemma OtherReconcileAlive(s: State, q: Ref, env: Env, r: Ref, k: string)
    requires q in s.locals && q != r
    ensures var s' := ReconcileStep(s, q, env);
      && Alive(s'.line, r, k) <= Alive(s.line, r, k) && s.line.enqueued <= s'.line.enqueued
      && (r in s.locals ==> r in s'.locals && s'.locals[r] == s.locals[r])
  {
    hide ReconcileStep, Copies, Runs.Do, ManagedStorageEventKey, ManagedStorageReportKeyFromEventKey, Alive;
    ReconcileFrame(s, q, env);
    ReconcileElsewhere(s, q, r, env);
    var e := StorageEvent(q, s.locals[q].key, env.now, env.payload);
    NoCopy(e, r, k);
    LineAlive(s.line, Runs.Enqueue(e, env.now), r, k);
  }

  /** Nothing the others do takes the reconcile off its way. */
  lemma OthersLetWait(s: State, step: Step, r: Ref, key: string)
    requires Waiting(s, r, key) && Fair(step, r) && !OwnStepOf(step, r)
    ensures Waiting(Do(s, step), r, key) && Do(s, step).locals[r] == s.locals[r]
    ensures s.line.enqueued <= Do(s, step).line.enqueued
  {
    hide Inv, FlushStep, ReconcileStep, Copies, Runs.Do, ManagedStorageReportKeyFromEventKey, Alive;
    StepInv(s, step);
    match step
    case Others(e, now) =>
      if Enabled(s, step) {
        NoCopy(e, r, key);
        LineAlive(s.line, Runs.Enqueue(e, now), r, key);
      }
    case Flush(env) => FlushAlive(s, env, r, key);
    case Begin(q, k, age) =>
    case Reconcile(q, env) =>
      if q in s.locals { OtherReconcileAlive(s, q, env, r, key); }
  }

  // ---------- Steps of its own ----------

  lemma WaitingUndelivered(s: State, r: Ref, key: string)
    requires Waiting(s, r, key)
    ensures Undelivered(s, r, key)
  {
    CopiesAmong(s.line.accepted, r, key);
    CopiesAmong(s.line.inFlight, r, key);
    CopiesAmong(s.line.buf.events, r, key);
    hide Copies, Carries;
    if r in s.mem.posting { MarkExplained(s, r); }
  }

  lemma OwnGoesOn(s: State, r: Ref, key: string, env: Env)
    requires Waiting(s, r, key) && Smooth(env) && !s.locals[r].pc.Report?
    ensures var s' := ReconcileStep(s, r, env);
      Waiting(s', r, key) && Rank(s'.locals[r].pc) < Rank(s.locals[r].pc) && s'.line == s.line
  {
    hide Inv, ReconcileStep, Undelivered, Copies;
    WaitingUndelivered(s, r, key);
    NotDeterred(s, r, env);
    SmoothStep(s, r, env);
    ReconcileInv(s, r, env);
  }

  lemma OwnReports(s: State, r: Ref, key: string, env: Env, n: nat)
    requires Waiting(s, r, key) && Smooth(env) && s.locals[r].pc.Report? && n <= |s.line.enqueued|
    ensures EnqueuedSince(ReconcileStep(s, r, env), n, r, key)
  {
    var e := StorageEvent(r, key, env.now, env.payload);
    assert Plain(r, key);
    StorageEventWellKeyed(r, key, env.now, env.payload);
    hide ManagedStorageEventKey, ManagedStorageReportKeyFromEventKey;
    var s' := ReconcileStep(s, r, env);
    assert s'.line.enqueued == s.line.enqueued + [Batcher.Stamp(e, env.now)];
    assert Carries(s'.line.enqueued[|s.line.enqueued|], r, key);
  }

  // ---------- Whole runs ----------

  lemma StepGrows(s: State, step: Step)
    ensures s.line.enqueued <= Do(s, step).line.enqueued
  {
    hide FlushStep, ReconcileStep, Runs.Do, ManagedStorageReportKeyFromEventKey;
    match step
    case Others(e, now) => ActionGrows(s.line, Runs.Enqueue(e, now));
    case Flush(env) => FlushAlive(s, env, Ref("", ""), "");
    case Begin(_, _, _) =>
    case Reconcile(r, env) =>
      if r in s.locals {
        ReconcileFrame(s, r, env);
        ActionGrows(s.line, Runs.Enqueue(StorageEvent(r, s.locals[r].key, env.now, env.payload), env.now));
      }
    case Restart(_) => ActionGrows(s.line, Runs.Crash);
  }

  lemma ActionGrows(l: Runs.Line, a: Runs.Action)
    ensures l.enqueued <= Runs.Do(l, a).enqueued
  {
  }

  lemma {:induction false} StaysEnqueued(s: State, steps: seq<Step>, n: nat, r: Ref, key: string)
    requires EnqueuedSince(s, n, r, key)
    ensures EnqueuedSince(Run(s, steps), n, r, key)
    decreases |steps|
  {
    hide Do, Carries;
    if steps != [] {
      StepGrows(s, steps[0]);
      var i :| n <= i < |s.line.enqueued| && Carries(s.line.enqueued[i], r, key);
      assert Do(s, steps[0]).line.enqueued[i] == s.line.enqueued[i];
      StaysEnqueued(Do(s, steps[0]), steps[1..], n, r, key);
    }
  }

  lemma {:induction false} WaitingSends(s: State, steps: seq<Step>, n: nat, r: Ref, key: string)
    requires Waiting(s, r, key) && n <= |s.line.enqueued| && AllFair(steps, r)
      && Rank(s.locals[r].pc) < OwnSteps(steps, r)
    ensures EnqueuedSince(Run(s, steps), n, r, key)
    decreases |steps|
  {
    hide Inv, ReconcileStep, Carries, EnqueuedSince, Rank, Alive;
    var step := steps[0];
    assert Fair(step, r);
    if !OwnStepOf(step, r) {
      OthersLetWait(s, step, r, key);
      hide Do;
      WaitingSends(Do(s, step), steps[1..], n, r, key);
    } else if s.locals[r].pc.Report? {
      OwnReports(s, r, key, step.env, n);
      StaysEnqueued(Do(s, step), steps[1..], n, r, key);
    } else {
      OwnGoesOn(s, r, key, step.env);
      WaitingSends(Do(s, step), steps[1..], n, r, key);
    }
  }

  lemma NotReported(s: State, r: Ref, key: string, age: nat)
    requires Inv(s) && Plain(r, key) && Copies(s.line.accepted, r, key) == 0
    ensures s.Snapshot(r, age).reported != key
  {
    CopiesAmong(s.line.accepted, r, key);
    ReadsHonest(s, r, age);
  }

  lemma BeginsWaiting(s: State, r: Ref, key: string, age: nat)
    requires Inv(s) && r !in s.locals && Plain(r, key) && Alive(s.line, r, key) == 0
    ensures var s1 := Do(s, Begin(r, key, age));
      Waiting(s1, r, key) && s1.line == s.line && Rank(s1.locals[r].pc) < ENOUGH
  {
    hide Inv, Copies, Plain;
    NotReported(s, r, key, age);
    BeginInv(s, r, key, age);
  }

  /** From any reachable state in which no reconcile of the instance is running and the key was never
      accepted, is not buffered and is not in the batch being sent: once a reconcile of the instance,
      from a current or an outdated read, has made at most twelve steps with its calls succeeding, its
      event for the key has been enqueued, whatever the flusher, other reporters and other instances'
      reconciles did in between. */
  lemma NoStuckInterleaved(maxBatch: int, maxBuffer: int, before: seq<Step>, r: Ref, key: string, age: nat,
      steps: seq<Step>)
    requires Plain(r, key) && AllFair(steps, r) && OwnSteps(steps, r) >= ENOUGH
    requires var s := Run(Start(maxBatch, maxBuffer), before);
      && r !in s.locals
      && !Delivered(s.line.accepted, r, key)
      && !Among(s.line.buf.events, r, key)
      && !Among(s.line.inFlight, r, key)
    ensures var s := Run(Start(maxBatch, maxBuffer), before);
      EnqueuedSince(Run(Do(s, Begin(r, key, age)), steps), |s.line.enqueued|, r, key)
  {
    var s := Run(Start(maxBatch, maxBuffer), before);
    CopiesAmong(s.line.accepted, r, key);
    CopiesAmong(s.line.inFlight, r, key);
    CopiesAmong(s.line.buf.events, r, key);
    assert !Among(s.line.accepted, r, key);
    Reachable(maxBatch, maxBuffer, before);
    hide Inv, Do, Copies, Among, EnqueuedSince, Waiting;
    BeginsWaiting(s, r, key, age);
    OnlyLocal(s, r, key, age);
    WaitingSends(Do(s, Begin(r, key, age)), steps, |s.line.enqueued|, r, key);
  }

  lemma OnlyLocal(s: State, r: Ref, key: string, age: nat)
    requires r !in s.locals && Plain(r, key)
    ensures r in Do(s, Begin(r, key, age)).locals
  {
  }
}
