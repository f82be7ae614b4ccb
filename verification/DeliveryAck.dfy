/** Acknowledgement progress: what one undisturbed reconcile whose calls succeed comes to in every
    state, and when it makes a delivered key the reported one. */
module DeliveryAck {
  import opened Text
  import opened EventKeys
  import opened Events
  import opened Delivery
  import opened DeliverySafety
  import opened DeliveryProgress
  import opened DeliveryOnce
  import Race = DeliveryRace
  import Runs = BatcherRuns

  // ---------- One undisturbed reconcile ----------

  /** The key is reported and nothing of its delivery is remembered. */
  predicate Acknowledged(s: State, r: Ref, k: string) {
    && s.Current(r).reported == k
    && r !in s.mem.inFlight && r !in s.mem.posting && r !in s.mem.ackPending
  }

  /** A copy is buffered, or marked in flight and as being posted. */
  predicate CopyKnown(s: State, r: Ref, k: string) {
    s.line.buf.HasKey(StorageKey(r, k)) || (Holds(s.mem.inFlight, r, k) && Holds(s.mem.posting, r, k))
  }

  /** What a reconcile that went through comes to: it waits for a copy on its way, acknowledges, or
      claims and sends. */
  ghost predicate WentThrough(s: State, s': State, r: Ref, k: string, env: Env, waits: bool, acknowledges: bool) {
    && r !in s'.locals
    && (waits ==> s'.line == s.line && s'.Current(r) == s.Current(r))
    && (!waits && acknowledges ==>
          Acknowledged(s', r, k) && s'.line == s.line && s'.Current(r) == Annotations(k, "", ""))
    && (!waits && !acknowledges ==> Sent(s, s', r, k, env) && s'.Current(r) == s.Current(r).(claim := k))
  }

  /** The reconcile stands at `pc` with the annotations as they are. */
  predicate Upto(s: State, r: Ref, k: string, pc: Pc) {
    r in s.locals && s.locals[r] == Local(pc, k, s.Current(r))
  }

  lemma AckEnds(s: State, r: Ref, k: string, env: Env)
    requires Upto(s, r, k, Ack(Get(0))) && Smooth(env) && s.Current(r).reported != k
    ensures var s' := RunToEnd(s, r, env);
      Acknowledged(s', r, k) && s'.line == s.line && r !in s'.locals && s'.Current(r) == Annotations(k, "", "")
  {
    hide ManagedStorageEventKey, Runs.Do;
    var s1 := ReconcileStep(s, r, env);
    SmoothStep(s, r, env);
    var s2 := ReconcileStep(s1, r, env);
    SmoothStep(s1, r, env);
    assert s2.Current(r) == Annotations(k, "", "");
    ClearEnds(s2, r, k, env);
  }

  lemma ClearEnds(s: State, r: Ref, k: string, env: Env)
    requires r in s.locals && s.locals[r].pc == Ack(Clear) && s.Current(r).reported == k && Smooth(env)
    ensures var s' := RunToEnd(s, r, env);
      Acknowledged(s', r, k) && s'.line == s.line && r !in s'.locals && s'.Current(r) == s.Current(r)
  {
    hide ManagedStorageEventKey, Runs.Do;
    SmoothStep(s, r, env);
    assert RunToEnd(s, r, env) == ReconcileStep(s, r, env);
  }

  lemma RemarkEnds(s: State, r: Ref, k: string, env: Env)
    requires Upto(s, r, k, Remark) && Smooth(env) && s.Current(r).reported != k
    ensures var s' := RunToEnd(s, r, env);
      Acknowledged(s', r, k) && s'.line == s.line && r !in s'.locals && s'.Current(r) == Annotations(k, "", "")
  {
    hide ManagedStorageEventKey, Runs.Do, MergePatch, Patched;
    var s1 := ReconcileStep(s, r, env);
    SmoothStep(s, r, env);
    AckEnds(s1, r, k, env);
  }

  lemma ReportEnds(s: State, r: Ref, k: string, env: Env)
    requires Upto(s, r, k, Report) && Smooth(env) && Plain(r, k)
    ensures var s' := RunToEnd(s, r, env); Sent(s, s', r, k, env) && s'.Current(r) == s.Current(r)
  {
    ReportSends(s, r, env);
    hide ManagedStorageEventKey, Runs.Do, MergePatch, Patched, Sent;
    var s1 := ReconcileStep(s, r, env);
    SmoothStep(s, r, env);
    var s2 := ReconcileStep(s1, r, env);
    assert RunToEnd(s1, r, env) == RunToEnd(s2, r, env) == s2;
  }

  lemma ClaimEnds(s: State, r: Ref, k: string, env: Env)
    requires Upto(s, r, k, Pc.Claim) && Smooth(env) && Plain(r, k) && s.Current(r).claim != k
    ensures var s' := RunToEnd(s, r, env); Sent(s, s', r, k, env) && s'.Current(r) == s.Current(r).(claim := k)
  {
    hide ManagedStorageEventKey, Runs.Do, Sent;
    var s1 := ReconcileStep(s, r, env);
    SmoothStep(s, r, env);
    assert s1.Current(r) == s.Current(r).(claim := k) && s1.line == s.line;
    ReportEnds(s1, r, k, env);
    SentSame(s, s1, RunToEnd(s1, r, env), r, k, env);
  }

  lemma BufferedEnds(s: State, r: Ref, k: string, env: Env)
    requires Upto(s, r, k, Buffered) && Smooth(env) && Plain(r, k) && s.Current(r).reported != k
    ensures WentThrough(s, RunToEnd(s, r, env), r, k, env,
      s.line.buf.HasKey(StorageKey(r, k)), s.Current(r).posted == k)
  {
    hide ManagedStorageEventKey, Runs.Do, MergePatch, Patched, Sent;
    var s1 := ReconcileStep(s, r, env);
    SmoothStep(s, r, env);
    if s.line.buf.HasKey(StorageKey(r, k)) {
      assert RunToEnd(s1, r, env) == s1;
    } else if s.Current(r).posted == k {
      RemarkEnds(s1, r, k, env);
    } else if s.Current(r).claim == k {
      ReportEnds(s1, r, k, env);
      SentSame(s, s1, RunToEnd(s1, r, env), r, k, env);
      SentEnds(s, RunToEnd(s1, r, env), r, k, env);
    } else {
      ClaimEnds(s1, r, k, env);
      SentSame(s, s1, RunToEnd(s1, r, env), r, k, env);
      SentEnds(s, RunToEnd(s1, r, env), r, k, env);
    }
  }

  lemma SentEnds(s: State, s': State, r: Ref, k: string, env: Env)
    requires Sent(s, s', r, k, env)
    ensures r !in s'.locals
  {
  }

  /** What is settled from a later state is settled from an earlier one that looks the same. */
  lemma SameOutcome(s: State, s1: State, s': State, r: Ref, k: string, env: Env, waits: bool, acknowledges: bool)
    requires WentThrough(s1, s', r, k, env, waits, acknowledges)
    requires s1.line == s.line && s1.Current(r) == s.Current(r)
    ensures WentThrough(s, s', r, k, env, waits, acknowledges)
  {
    if !waits && !acknowledges { SentSame(s, s1, s', r, k, env); }
  }

  lemma ForgottenEnds(s: State, r: Ref, k: string, env: Env)
    requires Upto(s, r, k, DropInFlight) && Smooth(env) && Plain(r, k) && s.Current(r).reported != k
    ensures WentThrough(s, RunToEnd(s, r, env), r, k, env,
      s.line.buf.HasKey(StorageKey(r, k)), s.Current(r).posted == k)
  {
    var s1 := ReconcileStep(s, r, env);
    SmoothStep(s, r, env);
    BufferedEnds(s1, r, k, env);
    hide WentThrough;
    SameOutcome(s, s1, RunToEnd(s1, r, env), r, k, env, s.line.buf.HasKey(StorageKey(r, k)), s.Current(r).posted == k);
  }

  lemma WaitEnds(s: State, s': State, r: Ref, k: string, env: Env, acknowledges: bool)
    requires s' == s.Finish(r)
    ensures WentThrough(s, s', r, k, env, true, acknowledges)
  {
  }

  lemma FlightEnds(s: State, r: Ref, k: string, env: Env)
    requires Upto(s, r, k, ReadInFlight) && Smooth(env) && Plain(r, k) && s.Current(r).reported != k
    ensures WentThrough(s, RunToEnd(s, r, env), r, k, env, CopyKnown(s, r, k), s.Current(r).posted == k)
  {
    hide ManagedStorageEventKey, Runs.Do, MergePatch, Patched, WentThrough;
    var posted, buffered := s.Current(r).posted == k, s.line.buf.HasKey(StorageKey(r, k));
    var s1 := ReconcileStep(s, r, env);
    SmoothStep(s, r, env);
    if r !in s.mem.inFlight {
      BufferedEnds(s1, r, k, env);
      SameOutcome(s, s1, RunToEnd(s1, r, env), r, k, env, buffered, posted);
    } else if s.mem.inFlight[r] != k {
      ForgottenEnds(s1, r, k, env);
      SameOutcome(s, s1, RunToEnd(s1, r, env), r, k, env, buffered, posted);
    } else {
      MarkedEnds(s1, r, k, env);
      SameOutcome(s, s1, RunToEnd(s1, r, env), r, k, env, CopyKnown(s, r, k), posted);
    }
  }

  lemma MarkedEnds(s: State, r: Ref, k: string, env: Env)
    requires Upto(s, r, k, FlightBuffered) && Smooth(env) && Plain(r, k) && s.Current(r).reported != k
    requires Holds(s.mem.inFlight, r, k)
    ensures WentThrough(s, RunToEnd(s, r, env), r, k, env, CopyKnown(s, r, k), s.Current(r).posted == k)
  {
    hide ManagedStorageEventKey, Runs.Do, MergePatch, Patched, WentThrough;
    var posted := s.Current(r).posted == k;
    var s1 := ReconcileStep(s, r, env);
    SmoothStep(s, r, env);
    if s.line.buf.HasKey(StorageKey(r, k)) {
      WaitEnds(s, s1, r, k, env, posted);
      assert RunToEnd(s1, r, env) == s1;
    } else {
      var s2 := ReconcileStep(s1, r, env);
      SmoothStep(s1, r, env);
      if Holds(s.mem.posting, r, k) {
        WaitEnds(s, s2, r, k, env, posted);
        assert RunToEnd(s2, r, env) == s2;
      } else {
        ForgottenEnds(s2, r, k, env);
        SameOutcome(s, s2, RunToEnd(s2, r, env), r, k, env, false, posted);
      }
    }
  }

  lemma PendingEnds(s: State, r: Ref, k: string, env: Env)
    requires Upto(s, r, k, ReadPending) && Smooth(env) && Plain(r, k) && s.Current(r).reported != k
    ensures var pending := Holds(s.mem.ackPending, r, k);
      WentThrough(s, RunToEnd(s, r, env), r, k, env,
        !pending && CopyKnown(s, r, k), pending || s.Current(r).posted == k)
  {
    hide ManagedStorageEventKey, Runs.Do, MergePatch, Patched, Sent;
    var posted := s.Current(r).posted == k;
    var s1 := ReconcileStep(s, r, env);
    SmoothStep(s, r, env);
    if Holds(s.mem.ackPending, r, k) {
      AckEnds(s1, r, k, env);
    } else if r !in s.mem.ackPending {
      FlightEnds(s1, r, k, env);
      SameOutcome(s, s1, RunToEnd(s1, r, env), r, k, env, CopyKnown(s, r, k), posted);
    } else {
      var s2 := ReconcileStep(s1, r, env);
      SmoothStep(s1, r, env);
      FlightEnds(s2, r, k, env);
      SameOutcome(s, s2, RunToEnd(s2, r, env), r, k, env, CopyKnown(s, r, k), posted);
    }
  }

  /** One whole reconcile, from the read of the instance on. */
  function Reconciled(s: State, r: Ref, k: string, env: Env): State {
    Run(s, [Begin(r, k, 0)] + Repeat(Reconcile(r, env), ENOUGH))
  }

  /** What one reconcile comes to, case by case. A key that is reported, or whose acknowledgement is
      pending, ends reported with nothing remembered and neither claim nor post left on the instance.
      Otherwise a copy on its way is waited for. Otherwise a recorded post is acknowledged. Otherwise the
      event is claimed and sent. A claim of another key is gone in the end. */
  ghost predicate Decided(s: State, s': State, r: Ref, k: string, env: Env, copy: bool) {
    var a, a' := s.Current(r), s'.Current(r);
    && r !in s'.locals
    && if a.reported == k then Acknowledged(s', r, k) && s'.line == s.line && a' == a
       else if Holds(s.mem.ackPending, r, k) then
         Acknowledged(s', r, k) && s'.line == s.line && a' == Annotations(k, "", "")
       else if copy then
         s'.line == s.line && a'.reported == a.reported && a'.posted == a.posted
         && a'.claim == (if a.claim == k then k else "")
       else if a.posted == k then Acknowledged(s', r, k) && s'.line == s.line && a' == Annotations(k, "", "")
       else Sent(s, s', r, k, env) && a' == a.(claim := k)
  }

  lemma BegunEnds(s: State, s1: State, r: Ref, k: string, env: Env)
    requires Plain(r, k) && Smooth(env) && r !in s.locals && s1 == Do(s, Begin(r, k, 0))
    ensures r in s1.locals && Decided(s, RunToEnd(s1, r, env), r, k, env, CopyKnown(s, r, k))
  {
    hide ManagedStorageEventKey, Runs.Do, Sent;
    var a := s.Current(r);
    if a.reported == k {
      SmoothStep(s1, r, env);
      assert RunToEnd(s1, r, env) == ReconcileStep(s1, r, env);
    } else if a.claim == "" || a.claim == k {
      PendingEnds(s1, r, k, env);
      if Sent(s1, RunToEnd(s1, r, env), r, k, env) { SentSame(s, s1, RunToEnd(s1, r, env), r, k, env); }
    } else {
      SmoothStep(s1, r, env);
      var s2 := ReconcileStep(s1, r, env);
      assert s2.Current(r) == a.(claim := "");
      PendingEnds(s2, r, k, env);
      if Sent(s2, RunToEnd(s2, r, env), r, k, env) { SentSame(s, s2, RunToEnd(s2, r, env), r, k, env); }
    }
  }

  /** In every state without a running reconcile of the instance. */
  lemma ReconcileDecides(s: State, r: Ref, k: string, env: Env)
    requires Plain(r, k) && Smooth(env) && r !in s.locals
    ensures Decided(s, Reconciled(s, r, k, env), r, k, env, CopyKnown(s, r, k))
  {
    var s1 := Do(s, Begin(r, k, 0));
    BegunEnds(s, s1, r, k, env);
    hide Decided, RunToEnd, CopyKnown, Do;
    AnyRank(s1.locals[r].pc);
    EndIsRun(s1, r, env, ENOUGH);
    var rest := Repeat(Reconcile(r, env), ENOUGH);
    assert ([Begin(r, k, 0)] + rest)[1..] == rest;
  }

  /** A copy is buffered, or it is marked in flight and as being posted. */
  predicate CopyOnItsWay(s: State, r: Ref, k: string) {
    Among(s.line.buf.events, r, k) || (Holds(s.mem.inFlight, r, k) && Holds(s.mem.posting, r, k))
  }

  /** From any reachable state in which no reconcile of the instance is running: one reconcile for the
      key whose calls succeed ends with the key reported and the instance in none of the three maps
      exactly when the key is reported already, its acknowledgement is pending, or its post is recorded
      and no copy is on its way. */
  lemma AcknowledgementProgress(maxBatch: int, maxBuffer: int, steps: seq<Step>, r: Ref, k: string, env: Env)
    requires Plain(r, k) && Smooth(env) && r !in Run(Start(maxBatch, maxBuffer), steps).locals
    ensures var s := Run(Start(maxBatch, maxBuffer), steps);
      var s' := Reconciled(s, r, k, env);
      && Decided(s, s', r, k, env, CopyOnItsWay(s, r, k))
      && (Acknowledged(s', r, k) <==>
            || s.Current(r).reported == k
            || Holds(s.mem.ackPending, r, k)
            || (s.Current(r).posted == k && !CopyOnItsWay(s, r, k)))
  {
    hide Run, Sent, Among, Truthful, Stored, Runs.Inv;
    var s := Run(Start(maxBatch, maxBuffer), steps);
    Reachable(maxBatch, maxBuffer, steps);
    BufferCheckExact(s, r, k);
    ReconcileDecides(s, r, k, env);
  }

  /** A post is recorded, the confirmation is cut short by a restart, and a read from before the record
      begins a reconcile. */
  lemma RecordedAndForgotten(r: Ref, k: string) returns (steps: seq<Step>, s: State)
    requires Plain(r, k)
    ensures s == Run(Start(0, 0), steps) && s.Current(r) == Annotations("", k, k) && s.mem == FRESH_MEMORY
    ensures s.line.buf.events == [] && s.line.buf.maxBuffer == 0
    ensures r in s.locals && s.locals[r] == Local(ReadPending, k, Annotations("", k, ""))
  {
    hide ManagedStorageEventKey, ManagedStorageReportKeyFromEventKey, EndpointsReportKeyFromEventKey, Run;
    StorageEventWellKeyed(r, k, 1, 0);
    steps, s := Race.Accepted(r, k);
    steps, s := Race.Extend(steps, s, Flush(Race.CALM));
    assert s.Current(r) == Annotations("", k, k) && s.Snapshot(r, 1) == Annotations("", k, "");
    steps, s := Race.Extend(steps, s, Restart(false));
    steps, s := Race.Extend(steps, s, Begin(r, k, 1));
  }

  /** The last condition is not idle: for every instance and key there is a run to a state in which the
      post is recorded and no acknowledgement is pending, with another copy buffered. A reconcile waits
      there. */
  lemma RecordedPostMayWait(r: Ref, k: string) returns (steps: seq<Step>)
    requires Plain(r, k)
    ensures var s := Run(Start(0, 0), steps);
      && r !in s.locals && s.Current(r).posted == k && s.Current(r).reported != k
      && r !in s.mem.ackPending && Among(s.line.buf.events, r, k)
  {
    hide ManagedStorageEventKey, ManagedStorageReportKeyFromEventKey, Run, MergePatch, Patched;
    StorageEventWellKeyed(r, k, 1, 0);
    var s: State;
    steps, s := RecordedAndForgotten(r, k);
    steps, s := Race.Extend(steps, s, Reconcile(r, Race.CALM));
    steps, s := Race.Extend(steps, s, Reconcile(r, Race.CALM));
    steps, s := Race.Extend(steps, s, Reconcile(r, Race.CALM));
    assert s.locals[r].pc.Report?;
    steps, s := Race.Extend(steps, s, Reconcile(r, Race.CALM));
    assert s.line.buf.events[|s.line.buf.events| - 1] == StorageEvent(r, k, 1, 0);
    steps, s := Race.Extend(steps, s, Reconcile(r, Race.CALM));
  }

  // ---------- Claims ----------

  /** Past the drop of a stale claim the reconcile holds its own or none; it reports only with its own. */
  predicate ClaimSettled(l: Local) {
    match l.pc
    case WipeState => true
    case DropClaim => l.app.claim != "" && l.app.claim != l.key
    case Claim => l.app.claim == ""
    case Report => l.app.claim == l.key
    case MarkFlight => l.app.claim == l.key
    case _ => l.app.claim == "" || l.app.claim == l.key
  }

  ghost predicate ClaimsSettled(s: State) {
    forall r :: r in s.locals ==> s.locals[r].key != "" && ClaimSettled(s.locals[r])
  }

  lemma OwnClaimSettled(s: State, r: Ref, env: Env)
    requires r in s.locals && s.locals[r].key != "" && ClaimSettled(s.locals[r])
    ensures var s' := ReconcileStep(s, r, env);
      r in s'.locals ==> s'.locals[r].key != "" && ClaimSettled(s'.locals[r])
  {
    hide ManagedStorageEventKey, Runs.Do, Patched, MergePatch, AckStep;
    var Local(pc, key, app) := s.locals[r];
    if pc.DropClaim? { ClaimWritten(s, r, env.outcome, app, ""); }
    if pc.Claim? { ClaimWritten(s, r, env.outcome, app, key); }
  }

  /** A claim patch that succeeds leaves the claim on the server. */
  lemma ClaimWritten(s: State, r: Ref, outcome: Outcome, app: Annotations, claim: string)
    requires app.claim != claim
    ensures outcome.Ok? ==> Patched(s, r, outcome, app, app.(claim := claim)).Current(r).claim == claim
  {
  }

  lemma StepClaims(s: State, step: Step)
    requires ClaimsSettled(s)
    ensures ClaimsSettled(Do(s, step))
  {
    hide ReconcileStep, FlushStep, ClaimSettled, ManagedStorageReportKeyFromEventKey, Runs.Do;
    var s' := Do(s, step);
    if Enabled(s, step) {
      match step
      case Others(_, _) =>
      case Flush(env) => FlushLocals(s, env);
      case Begin(r, k, age) =>
        assert ClaimSettled(s'.locals[r]) by { BeginClaim(k, s.Snapshot(r, age)); }
      case Reconcile(r, env) =>
        OwnClaimSettled(s, r, env);
        ReconcileFrame(s, r, env);
        forall q | q in s'.locals
          ensures s'.locals[q].key != "" && ClaimSettled(s'.locals[q])
        {
          if q != r { ReconcileElsewhere(s, r, q, env); }
        }
      case Restart(_) =>
    }
  }

  lemma BeginClaim(k: string, app: Annotations)
    ensures ClaimSettled(Local(AfterRead(k, app), k, app))
  {
  }

  lemma FlushLocals(s: State, env: Env)
    ensures FlushStep(s, env).locals == s.locals
  {
    hide Runs.Do, AckEventStep;
    if s.flusher.Acking? && s.flusher.n < |s.flusher.batch| { AckEventFrame(s, env); }
  }

  lemma {:induction false} RunClaims(s: State, steps: seq<Step>)
    requires ClaimsSettled(s)
    ensures ClaimsSettled(Run(s, steps))
    decreases |steps|
  {
    hide Do, ClaimsSettled;
    if steps != [] {
      StepClaims(s, steps[0]);
      RunClaims(Do(s, steps[0]), steps[1..]);
    }
  }

  /** In every run, whichever patches fail: a reconcile enqueues its event only when the annotations it
      holds carry its own claim, and it goes past its first checks only when no other claim is left. */
  lemma ClaimedBeforeSent(maxBatch: int, maxBuffer: int, steps: seq<Step>, r: Ref)
    ensures var s := Run(Start(maxBatch, maxBuffer), steps);
      r in s.locals ==>
        var Local(pc, key, app) := s.locals[r];
        && (pc.Report? || pc.MarkFlight? ==> app.claim == key)
        && (!pc.WipeState? && !pc.DropClaim? ==> app.claim == "" || app.claim == key)
  {
    RunClaims(Start(maxBatch, maxBuffer), steps);
  }
}
