/** When an operation is started, kept, failed or pushed back, exactly; and what never ends: two
    pending operations that block each other. */
module OperationsLife {
  import opened Text
  import opened Conditions
  import opened Concurrency
  import opened Approvals
  import opened Operations
  import opened OperationsSafety

  ghost predicate Current(w: World, id: Id, env: Env) {
    KeyedById(w.ops) && (env.listing.Some? ==> Lists(env.listing.value, w.ops, id.namespace))
  }

  /** The operation is there, adopted by the controller and not being deleted. */
  predicate Managed(w: World, id: Id) {
    id in w.ops && w.ops[id].finalizer && !w.ops[id].deleting
  }

  /** Everything that can be read is read. */
  predicate Readable(env: Env) {
    env.readOk && !env.target.ReadError? && env.listing.Some?
  }

  predicate AllWritten(env: Env) {
    && env.metaWrite.Written? && env.blockWrite.Written? && env.startWrite.Written?
    && env.backfillWrite.Written? && env.endWrite.Written?
  }

  ghost predicate MayStart(cfg: Config, w: World, id: Id, env: Env)
    requires id in w.ops
  {
    var op := w.ops[id];
    && NeedsApprovalCheck(op)
    && (AsksApproval(op) ==> Trim(cfg.secret) != "" && Approved(cfg.crypto, op, cfg.secret, env.now))
  }

  /** The gates, said without their order. */
  lemma GatesExact(cfg: Config, w: World, id: Id, env: Env)
    requires Current(w, id, env) && id in w.ops
    ensures Gates(cfg, w.ops[id], env).Open? <==>
      && env.valid && env.target.Found? && env.listing.Some? && env.hasEngine
      && Clear(w.ops, w.ops[id]) && (NeedsApprovalCheck(w.ops[id]) ==> MayStart(cfg, w, id, env))
    ensures Gates(cfg, w.ops[id], env).Broken? ==> env.target.ReadError? || env.listing.None?
  {
    hide Lists, BlockReason, FormatConflict, Approved, Clear;
    BlockReasonExact(cfg.crypto, w.ops[id], cfg.secret, env.now, env.error);
    if env.listing.Some? {
      assert w.ops[id].id == id;
      ListingDecides(env.listing.value, w.ops, w.ops[id]);
    }
  }

  /** No operation of the namespace is in the way. */
  predicate WayIsFree(ops: map<Id, Operation>, op: Operation) {
    forall id :: id in ops && id.namespace == op.id.namespace ==> !InTheWay(ops[id], op)
  }

  lemma ClearExact(ops: map<Id, Operation>, op: Operation)
    ensures Clear(ops, op) <==> WayIsFree(ops, op)
  {
    forall id | id in ops ensures Rival(ops[id], op) == InTheWay(ops[id], op) { RivalExact(ops[id], op); }
  }

  /** A reconcile calls Materialize exactly when the operation has not started, is valid, its target and
      engine are there, nothing in flight conflicts, and it is approved if it is a Velero restore or
      asks for approval; and then once. */
  lemma StartsExactlyWhen(cfg: Config, w: World, id: Id, env: Env)
    requires Current(w, id, env)
    ensures var w' := Reconcile(cfg, w, id, env);
      var starting := && Managed(w, id) && env.readOk && env.valid && env.target.Found? && env.listing.Some?
        && env.hasEngine && WayIsFree(w.ops, w.ops[id])
        && (w.ops[id].status.phase == Unset || w.ops[id].status.phase == Pending)
        && (AsksApproval(w.ops[id]) ==> Trim(cfg.secret) != "" && Approved(cfg.crypto, w.ops[id], cfg.secret, env.now));
      w'.starts == w.starts + if starting then [Start(w.ops, id, env.now)] else []
  {
    hide Clear, WayIsFree, Approved, AsksApproval, Drive, Gates, Set;
    assert w.starts + [] == w.starts;
    if Managed(w, id) && env.readOk {
      GatesExact(cfg, w, id, env);
      ClearExact(w.ops, w.ops[id]);
      DriveGrown(w, id, env);
    }
  }

  /** Every other operation on the target has come to a final phase. */
  predicate OnlyFinishedBeside(ops: map<Id, Operation>, id: Id)
    requires id in ops
  {
    forall x :: x in ops && x != id && x.namespace == id.namespace && ops[x].spec.target == ops[id].spec.target ==>
      ops[x].status.phase in {Succeeded, Failed, Cancelled}
  }

  /** In every run: an operation that is no Velero restore and does not ask for approval is started
      without any claim, and one beside finished operations only is not held up by them: once such an
      operation that has not started is reconciled, valid and with its target and engine there, its
      engine is called. */
  lemma StartsUnapprovedBesideFinished(cfg: Config, steps: seq<Step>, id: Id, env: Env)
    ensures var w := Run(cfg, EMPTY, steps);
      && Managed(w, id) && Current(w, id, env) && env.readOk && env.valid && env.target.Found? && env.listing.Some?
      && env.hasEngine
      && (w.ops[id].status.phase == Unset || w.ops[id].status.phase == Pending)
      && !(w.ops[id].spec.verb == Restore && w.ops[id].spec.engine == Velero)
      && !(w.ops[id].spec.approvals.Some? && w.ops[id].spec.approvals.value.required)
      && OnlyFinishedBeside(w.ops, id)
      ==> Reconcile(cfg, w, id, env).starts == w.starts + [Start(w.ops, id, env.now)]
  {
    hide Run, Reconcile, Approved, Lists;
    var w := Run(cfg, EMPTY, steps);
    if Managed(w, id) && Current(w, id, env) { StartsExactlyWhen(cfg, w, id, env); }
  }

  /** A start whose engine reports progress is persisted as running, accepted and unblocked. */
  lemma StartIsRecorded(cfg: Config, w: World, id: Id, env: Env)
    requires Current(w, id, env) && Managed(w, id) && AllWritten(env) && env.readOk
    requires Gates(cfg, w.ops[id], env).Open? && NeedsApprovalCheck(w.ops[id]) && env.materialize.None?
    requires env.engine.Report? && !env.engine.done && env.engine.phase.Running?
    ensures var s := Reconcile(cfg, w, id, env).ops[id].status;
      && s.phase.Running? && s.startedAt == Some(env.now) && s.engineRef
      && IsTrue(s.conditions, ACCEPTED) && IsTrue(s.conditions, RUNNING)
      && StatusOf(s.conditions, BLOCKED) == Some(FALSE)
  {
    hide Set, StatusOf, Gates;
    StartedConditions(w.ops[id].status, env.now);
  }

  lemma StartedConditions(s: Status, now: int)
    ensures var cs := StartedStatus(s, now).conditions;
      IsTrue(cs, ACCEPTED) && IsTrue(cs, RUNNING) && StatusOf(cs, BLOCKED) == Some(FALSE)
  {
    hide Set, StatusOf;
    var c1 := Set(s.conditions, ACCEPTED, TRUE, "AdmissionPassed", "Operation accepted", now);
    var c2 := Set(c1, RUNNING, TRUE, "EngineStarted", "Engine is running", now);
    Distinct();
    SetStatus(s.conditions, ACCEPTED, TRUE, "AdmissionPassed", "Operation accepted", now, ACCEPTED);
    SetStatus(c1, RUNNING, TRUE, "EngineStarted", "Engine is running", now, ACCEPTED);
    SetStatus(c1, RUNNING, TRUE, "EngineStarted", "Engine is running", now, RUNNING);
    SetStatus(c2, BLOCKED, FALSE, "Unblocked", "Operation started", now, ACCEPTED);
    SetStatus(c2, BLOCKED, FALSE, "Unblocked", "Operation started", now, RUNNING);
    SetStatus(c2, BLOCKED, FALSE, "Unblocked", "Operation started", now, BLOCKED);
  }

  lemma Distinct()
    ensures ACCEPTED != RUNNING && ACCEPTED != BLOCKED && RUNNING != BLOCKED
  {
    assert |ACCEPTED| == 8 && |RUNNING| == 7 && |BLOCKED| == 7 && RUNNING[0] != BLOCKED[0];
  }

  /** An engine that reports the end settles the status: its phase, how it ended, no longer running,
      when, and its outputs. */
  lemma FinishIsRecorded(cfg: Config, w: World, id: Id, env: Env)
    requires Current(w, id, env) && Managed(w, id) && AllWritten(env) && env.readOk
    requires Gates(cfg, w.ops[id], env).Open? && env.materialize.None? && env.engine.Report? && env.engine.done
    ensures var s := Reconcile(cfg, w, id, env).ops[id].status;
      && s.phase == env.engine.phase && s.finishedAt == Some(env.later)
      && IsTrue(s.conditions, if env.engine.failed then FAILED else SUCCEEDED)
      && StatusOf(s.conditions, RUNNING) == Some(FALSE)
      && (env.engine.outputs.Some? ==> s.outputs == env.engine.outputs)
  {
    hide Set, StatusOf, Gates, DoneStatus, StartedStatus;
    DoneConditions(w.ops[id].status, env.engine, env.later);
    var started := if NeedsApprovalCheck(w.ops[id]) then StartedStatus(w.ops[id].status, env.now) else w.ops[id].status;
    DoneConditions(BackfilledStatus(started, w.ops[id].spec.engine, env.now), env.engine, env.later);
    DoneConditions(started, env.engine, env.later);
  }

  lemma DoneConditions(s: Status, r: EngineStatus, now: int)
    requires r.Report?
    ensures var d := DoneStatus(s, r, now);
      && d.phase == r.phase && d.finishedAt == Some(now) && (r.outputs.Some? ==> d.outputs == r.outputs)
      && IsTrue(d.conditions, if r.failed then FAILED else SUCCEEDED) && StatusOf(d.conditions, RUNNING) == Some(FALSE)
  {
    hide Set, StatusOf;
    var t := if r.failed then FAILED else SUCCEEDED;
    assert t[0] != RUNNING[0];
    var c1 := Set(s.conditions, t, TRUE, r.reason, r.message, now);
    var text := if r.failed then "Engine finished with failure" else "Engine completed";
    SetStatus(s.conditions, t, TRUE, r.reason, r.message, now, t);
    SetStatus(c1, RUNNING, FALSE, "EngineNotStarted", text, now, t);
    SetStatus(c1, RUNNING, FALSE, "EngineNotStarted", text, now, RUNNING);
  }

  /** The gate that stops an operation, of those that would, the first. */
  ghost function Why(cfg: Config, w: World, id: Id, env: Env): string
    requires id in w.ops
  {
    if !env.valid then "ValidationFailed"
    else if !env.target.Found? then "TargetNotReady"
    else if NeedsApprovalCheck(w.ops[id]) && !MayStart(cfg, w, id, env) then "AwaitingApproval"
    else if !WayIsFree(w.ops, w.ops[id]) then "ConflictingOperation"
    else "DependencyMissing"
  }

  /** An operation that is not let through is Pending, Blocked and not Accepted, and both conditions
      tell why; nothing else of its status changes. */
  lemma BlockTellsWhy(cfg: Config, w: World, id: Id, env: Env)
    requires Current(w, id, env) && Managed(w, id) && Readable(env) && !env.blockWrite.Refused?
    requires !Gates(cfg, w.ops[id], env).Open?
    ensures var s := Reconcile(cfg, w, id, env).ops[id].status;
      var blocked, accepted := Get(s.conditions, BLOCKED), Get(s.conditions, ACCEPTED);
      && s.phase.Pending? && blocked.Some? && accepted.Some?
      && blocked.value.status == TRUE && accepted.value.status == FALSE
      && blocked.value.reason == accepted.value.reason == Why(cfg, w, id, env)
    ensures var s, s' := w.ops[id].status, Reconcile(cfg, w, id, env).ops[id].status;
      && s'.startedAt == s.startedAt && s'.finishedAt == s.finishedAt && s'.engineRef == s.engineRef
      && s'.outputs == s.outputs
      && (forall u :: u != "Blocked" && u != "Accepted" ==> Get(s'.conditions, u) == Get(s.conditions, u))
  {
    GateTellsWhy(cfg, w, id, env);
    hide Gates, Set, Get, Why, Clear, MayStart, Lists;
    var gate := Gates(cfg, w.ops[id], env);
    var s := w.ops[id].status;
    var c1 := Set(s.conditions, BLOCKED, TRUE, gate.reason, gate.message, env.now);
    Distinct();
    SetGet(s.conditions, BLOCKED, TRUE, gate.reason, gate.message, env.now, BLOCKED);
    SetGet(c1, ACCEPTED, FALSE, gate.reason, gate.message, env.now, BLOCKED);
    SetGet(c1, ACCEPTED, FALSE, gate.reason, gate.message, env.now, ACCEPTED);
    forall u | u != "Blocked" && u != "Accepted"
      ensures Get(Set(c1, ACCEPTED, FALSE, gate.reason, gate.message, env.now), u) == Get(s.conditions, u)
    {
      SetGet(s.conditions, BLOCKED, TRUE, gate.reason, gate.message, env.now, u);
      SetGet(c1, ACCEPTED, FALSE, gate.reason, gate.message, env.now, u);
    }
  }

  lemma GateTellsWhy(cfg: Config, w: World, id: Id, env: Env)
    requires Current(w, id, env) && id in w.ops && Readable(env) && !Gates(cfg, w.ops[id], env).Open?
    ensures Gates(cfg, w.ops[id], env).Blocked? && Gates(cfg, w.ops[id], env).reason == Why(cfg, w, id, env)
  {
    hide Lists, BlockReason, FormatConflict, Approved, Clear;
    BlockReasonExact(cfg.crypto, w.ops[id], cfg.secret, env.now, env.error);
    assert w.ops[id].id == id;
    ListingDecides(env.listing.value, w.ops, w.ops[id]);
    ClearExact(w.ops, w.ops[id]);
  }

  // ---------- Phases are not stable ----------

  /** An operation that has started or finished, and whose engine still says so, keeps its phase
      exactly when it is valid, its target and engine are there and nothing in flight conflicts with
      it. Otherwise it goes back to Pending, from Running and from every final phase alike. */
  lemma PhaseKeptExactlyWhen(cfg: Config, w: World, id: Id, env: Env)
    requires Current(w, id, env) && Managed(w, id) && Readable(env) && AllWritten(env)
    requires !NeedsApprovalCheck(w.ops[id]) && env.engine.Report? && env.engine.phase == w.ops[id].status.phase
    ensures var w' := Reconcile(cfg, w, id, env);
      var kept := env.valid && env.target.Found? && env.hasEngine && WayIsFree(w.ops, w.ops[id]);
      id in w'.ops && w'.ops[id].status.phase == if kept then w.ops[id].status.phase else Pending
  {
    hide Clear, WayIsFree, MayStart, Gates, Set;
    GatesExact(cfg, w, id, env);
    ClearExact(w.ops, w.ops[id]);
  }

  /** An operation whose workload is missing fails exactly when it is not Running, or started at
      least sixty seconds ago; an unknown start counts from this reconcile. */
  lemma MissingWorkloadGrace(cfg: Config, w: World, id: Id, env: Env)
    requires Current(w, id, env) && Managed(w, id) && env.readOk && AllWritten(env)
    requires Gates(cfg, w.ops[id], env).Open? && !NeedsApprovalCheck(w.ops[id]) && env.engine.Missing?
    ensures var s, s' := w.ops[id].status, Reconcile(cfg, w, id, env).ops[id].status;
      var since := if s.startedAt.Some? then s.startedAt.value else env.now;
      if s.phase.Running? && env.later - since < 60
      then s'.phase.Running? && s'.startedAt == Some(since)
      else s'.phase.Failed? && s'.finishedAt == Some(env.later)
  {
    hide Gates, Set;
  }

  // ---------- Mutual blocking ----------

  ghost predicate Rivals(w: World, a: Id, b: Id) {
    && Managed(w, a) && Managed(w, b)
    && SameTarget(w.ops[a], w.ops[b]) && Exclusive(w.ops[a].spec.verb, w.ops[b].spec.verb)
  }

  /** Two operations that block each other, both Pending. */
  ghost predicate Stuck(w: World, a: Id, b: Id) {
    Rivals(w, a, b) && w.ops[a].status.phase.Pending? && w.ops[b].status.phase.Pending?
  }

  /** A rival in flight: the reconcile writes Pending or nothing. */
  lemma RivalBlocks(cfg: Config, w: World, a: Id, b: Id, env: Env)
    requires Current(w, a, env) && Rivals(w, a, b) && InFlight(w.ops[b])
    ensures var w' := Reconcile(cfg, w, a, env);
      && w'.starts == w.starts && Restatus(w.ops, w'.ops, a)
      && (w'.ops[a].status == w.ops[a].status || w'.ops[a].status.phase.Pending?)
      && (Readable(env) && !env.blockWrite.Refused? ==> w'.ops[a].status.phase.Pending?)
  {
    assert Rival(w.ops[b], w.ops[a]);
    GatesExact(cfg, w, a, env);
    hide Gates, Set, MayStart, Lists;
  }

  lemma StuckReconcile(cfg: Config, w: World, a: Id, b: Id, id: Id, env: Env)
    requires Current(w, id, env) && Stuck(w, a, b)
    ensures var w' := Reconcile(cfg, w, id, env);
      Stuck(w', a, b) && w.starts <= w'.starts
      && forall k :: |w.starts| <= k < |w'.starts| ==> w'.starts[k].id != a && w'.starts[k].id != b
  {
    if id == a {
      RivalBlocks(cfg, w, a, b, env);
    } else if id == b {
      RivalBlocks(cfg, w, b, a, env);
    } else {
      OthersUntouched(cfg, w, id, env);
      hide Clear, MayStart, Reconcile;
      StartsExactlyWhen(cfg, w, id, env);
    }
  }

  lemma OthersUntouched(cfg: Config, w: World, id: Id, env: Env)
    ensures var w' := Reconcile(cfg, w, id, env);
      forall x :: x in w.ops && x != id ==> x in w'.ops && w'.ops[x] == w.ops[x]
  {
    hide Drive, Gates, Set;
    if id in w.ops {
      DriveGrown(w, id, env);
    }
  }

  ghost predicate Spares(steps: seq<Step>, a: Id, b: Id) {
    forall i :: 0 <= i < |steps| ==> steps[i] != Delete(a) && steps[i] != Delete(b)
  }

  lemma StuckStep(cfg: Config, w: World, a: Id, b: Id, step: Step)
    requires KeyedById(w.ops) && Stuck(w, a, b) && step != Delete(a) && step != Delete(b)
    ensures var w' := Do(cfg, w, step);
      KeyedById(w'.ops) && Stuck(w', a, b) && w.starts <= w'.starts
      && forall k :: |w.starts| <= k < |w'.starts| ==> w'.starts[k].id != a && w'.starts[k].id != b
  {
    hide Reconcile, Lists;
    if step.Reconciled? && (step.env.listing.Some? ==> Lists(step.env.listing.value, w.ops, step.id.namespace)) {
      StuckReconcile(cfg, w, a, b, step.id, step.env);
      ReconcileKeyed(cfg, w, step.id, step.env);
    }
  }

  lemma ReconcileKeyed(cfg: Config, w: World, id: Id, env: Env)
    requires KeyedById(w.ops)
    ensures KeyedById(Reconcile(cfg, w, id, env).ops)
  {
    hide Drive, Gates, Set;
    if id in w.ops {
      DriveGrown(w, id, env);
    }
  }

  /** Deadlock: whatever happens short of deleting one of them, two pending operations that block
      each other stay Pending and neither is ever materialized. */
  lemma {:induction false} StuckForever(cfg: Config, w: World, a: Id, b: Id, steps: seq<Step>)
    requires KeyedById(w.ops) && Stuck(w, a, b) && Spares(steps, a, b)
    ensures var w' := Run(cfg, w, steps);
      Stuck(w', a, b) && w.starts <= w'.starts
      && forall k :: |w.starts| <= k < |w'.starts| ==> w'.starts[k].id != a && w'.starts[k].id != b
    decreases |steps|
  {
    if steps != [] {
      var w1 := Do(cfg, w, steps[0]);
      StuckStep(cfg, w, a, b, steps[0]);
      hide Do, Stuck, KeyedById;
      StuckForever(cfg, w1, a, b, steps[1..]);
    }
  }

  /** The deadlock is one reconcile each away. While `a` is Running, reconciling any operation `b`
      that excludes it, even a finished one, and then `a`, leaves both Pending; and so they stay. */
  lemma NewcomerStopsBoth(cfg: Config, w: World, a: Id, b: Id, envB: Env, envA: Env, steps: seq<Step>)
    requires Rivals(w, a, b) && w.ops[a].status.phase.Running?
    requires Current(w, b, envB) && Readable(envB) && !envB.blockWrite.Refused?
    requires Current(Reconcile(cfg, w, b, envB), a, envA) && Readable(envA) && !envA.blockWrite.Refused?
    requires Spares(steps, a, b)
    ensures Stuck(Run(cfg, w, [Reconciled(b, envB), Reconciled(a, envA)] + steps), a, b)
  {
    hide Reconcile, Lists, Stuck, Rivals, KeyedById;
    var w1 := Reconcile(cfg, w, b, envB);
    var w2 := Reconcile(cfg, w1, a, envA);
    BothPending(cfg, w, a, b, envB, envA);
    StuckForever(cfg, w2, a, b, steps);
    var all := [Reconciled(b, envB), Reconciled(a, envA)] + steps;
    assert all[1..] == [Reconciled(a, envA)] + steps && all[1..][1..] == steps;
    assert Do(cfg, w, all[0]) == w1 && Do(cfg, w1, all[1]) == w2;
    assert Run(cfg, w, all) == Run(cfg, w1, all[1..]) == Run(cfg, w2, steps);
  }

  lemma BothPending(cfg: Config, w: World, a: Id, b: Id, envB: Env, envA: Env)
    requires Rivals(w, a, b) && w.ops[a].status.phase.Running?
    requires Current(w, b, envB) && Readable(envB) && !envB.blockWrite.Refused?
    requires Current(Reconcile(cfg, w, b, envB), a, envA) && Readable(envA) && !envA.blockWrite.Refused?
    ensures var w2 := Reconcile(cfg, Reconcile(cfg, w, b, envB), a, envA);
      KeyedById(w2.ops) && Stuck(w2, a, b)
  {
    hide Reconcile, Lists;
    var w1 := Reconcile(cfg, w, b, envB);
    RivalBlocks(cfg, w, b, a, envB);
    assert Rivals(w1, a, b) && InFlight(w1.ops[b]);
    RivalBlocks(cfg, w1, a, b, envA);
    ReconcileKeyed(cfg, w1, a, envA);
  }

  /** The matrix is one-directional for upgrades and restores: an upgrade that nothing else blocks is
      started on the target of a running restore, and the restore's next reconcile loses its phase. */
  lemma UpgradeJoinsRestore(cfg: Config, w: World, u: Id, r: Id, envU: Env, envR: Env)
    requires Managed(w, u) && Managed(w, r) && SameTarget(w.ops[u], w.ops[r])
    requires w.ops[u].spec.verb.Upgrade? && w.ops[r].spec.verb.Restore? && w.ops[r].status.phase.Running?
    requires Current(w, u, envU) && envU.readOk && AllWritten(envU)
    requires Gates(cfg, w.ops[u], envU).Open? && NeedsApprovalCheck(w.ops[u]) && envU.materialize.None?
    requires envU.engine.Report? && !envU.engine.done && envU.engine.phase.Running?
    requires Current(Reconcile(cfg, w, u, envU), r, envR) && Readable(envR) && !envR.blockWrite.Refused?
    ensures var w1 := Reconcile(cfg, w, u, envU);
      var w2 := Reconcile(cfg, w1, r, envR);
      && u in w1.ops && r in w1.ops && w1.ops[u].status.phase.Running? && w1.ops[r].status.phase.Running?
      && r in w2.ops && w2.ops[r].status.phase.Pending?
  {
    hide Gates, Set, MayStart, Lists, Drive, Approved, BlockReason;
    var w1 := Reconcile(cfg, w, u, envU);
    assert w.ops[r].id == r && w.ops[u].id == u;
    StartIsRecorded(cfg, w, u, envU);
    OthersUntouched(cfg, w, u, envU);
    DriveGrown(w, u, envU);
    assert Restatus(w.ops, w1.ops, u);
    assert Rival(w1.ops[u], w1.ops[r]);
    GatesExact(cfg, w1, r, envR);
  }
}
