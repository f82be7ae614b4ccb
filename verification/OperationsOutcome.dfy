/** What one reconcile of an operation writes down, case by case, in terms of the status it found and of
    what the engine said. */
module OperationsOutcome {
  import opened Text
  import opened Conditions
  import opened Concurrency
  import opened Approvals
  import opened Operations
  import opened OperationsSafety
  import opened OperationsLife

  /** The operation is let through all gates. */
  ghost predicate LetThrough(cfg: Config, w: World, id: Id, env: Env) {
    Current(w, id, env) && Managed(w, id) && env.readOk && Gates(cfg, w.ops[id], env).Open?
  }

  /** The status after the reconcile. */
  ghost function After(cfg: Config, w: World, id: Id, env: Env): Status
    requires LetThrough(cfg, w, id, env)
  {
    StillThere(cfg, w, id, env);
    Reconcile(cfg, w, id, env).ops[id].status
  }

  lemma StillThere(cfg: Config, w: World, id: Id, env: Env)
    requires LetThrough(cfg, w, id, env)
    ensures id in Reconcile(cfg, w, id, env).ops && Reconcile(cfg, w, id, env) == Drive(w, id, env)
  {
    hide Gates, Drive, Grown;
    DriveKeeps(w, id, env);
  }

  lemma DriveKeeps(w: World, id: Id, env: Env)
    requires id in w.ops
    ensures id in Drive(w, id, env).ops
  {
    DriveGrown(w, id, env);
  }

  /** The condition of this type, with this status, reason and message. */
  predicate Says(cs: seq<Condition>, t: string, status: string, reason: string, message: string) {
    var c := Get(cs, t);
    c.Some? && c.value.status == status && c.value.reason == reason && c.value.message == message
  }

  lemma SetSays(cs: seq<Condition>, t: string, status: string, reason: string, message: string, now: int)
    ensures Says(Set(cs, t, status, reason, message, now), t, status, reason, message)
    ensures forall u :: u != t ==> Get(Set(cs, t, status, reason, message, now), u) == Get(cs, u)
  {
    hide Get, Set;
    SetGet(cs, t, status, reason, message, now, t);
    forall u | u != t
      ensures Get(Set(cs, t, status, reason, message, now), u) == Get(cs, u)
    {
      SetGet(cs, t, status, reason, message, now, u);
    }
  }

  lemma FailedSays(s: Status, message: string, now: int)
    ensures var f := FailedStatus(s, message, now);
      && f.phase == Failed && f.finishedAt == Some(now)
      && Says(f.conditions, "Failed", "True", "EngineFailed", message)
      && (forall u :: u != "Failed" ==> Get(f.conditions, u) == Get(s.conditions, u))
      && f.startedAt == s.startedAt && f.engineRef == s.engineRef && f.outputs == s.outputs
  {
    hide Get, Set, Says;
    SetSays(s.conditions, FAILED, TRUE, "EngineFailed", message, now);
  }

  /** An operation has failed with this message, at this time; nothing else of its status changed. */
  ghost predicate FailedWith(s: Status, s': Status, message: string, now: int) {
    && s'.phase == Failed && s'.finishedAt == Some(now)
    && Says(s'.conditions, "Failed", "True", "EngineFailed", message)
    && (forall u :: u != "Failed" ==> Get(s'.conditions, u) == Get(s.conditions, u))
    && s'.startedAt == s.startedAt && s'.engineRef == s.engineRef && s'.outputs == s.outputs
  }

  /** A failed Materialize ends the operation as Failed, with the engine's message, never started. */
  lemma FailedMaterializeFails(cfg: Config, w: World, id: Id, env: Env)
    requires LetThrough(cfg, w, id, env) && !env.endWrite.Refused? && env.materialize.Some?
    requires w.ops[id].status.phase == Unset || w.ops[id].status.phase == Pending
    ensures FailedWith(w.ops[id].status, After(cfg, w, id, env), env.materialize.value, env.later)
    ensures Reconcile(cfg, w, id, env).starts == w.starts + [Start(w.ops, id, env.now)]
  {
    StillThere(cfg, w, id, env);
    FailedSays(w.ops[id].status, env.materialize.value, env.later);
    hide Gates, Get, Says, Set;
  }

  /** What the start writes down besides Accepted, Running and Blocked: nothing. */
  lemma StartedSays(s: Status, now: int)
    ensures var f := StartedStatus(s, now);
      && Says(f.conditions, "Accepted", "True", "AdmissionPassed", "Operation accepted")
      && Says(f.conditions, "Running", "True", "EngineStarted", "Engine is running")
      && Says(f.conditions, "Blocked", "False", "Unblocked", "Operation started")
      && f.phase == Running && f.startedAt == Some(now) && f.engineRef
      && f.finishedAt == s.finishedAt && f.outputs == s.outputs
  {
    hide Get, Set, Says;
    Distinct();
    var c1 := Set(s.conditions, ACCEPTED, TRUE, "AdmissionPassed", "Operation accepted", now);
    var c2 := Set(c1, RUNNING, TRUE, "EngineStarted", "Engine is running", now);
    var c3 := Set(c2, BLOCKED, FALSE, "Unblocked", "Operation started", now);
    SetSays(s.conditions, ACCEPTED, TRUE, "AdmissionPassed", "Operation accepted", now);
    SetSays(c1, RUNNING, TRUE, "EngineStarted", "Engine is running", now);
    SetSays(c2, BLOCKED, FALSE, "Unblocked", "Operation started", now);
    SaysSame(c1, c2, ACCEPTED, TRUE, "AdmissionPassed", "Operation accepted");
    SaysSame(c2, c3, ACCEPTED, TRUE, "AdmissionPassed", "Operation accepted");
    SaysSame(c2, c3, RUNNING, TRUE, "EngineStarted", "Engine is running");
  }

  lemma SaysSame(a: seq<Condition>, b: seq<Condition>, t: string, status: string, reason: string, message: string)
    requires Says(a, t, status, reason, message) && Get(b, t) == Get(a, t)
    ensures Says(b, t, status, reason, message)
  {
  }

  /** A start that is followed by an engine error other than the known ones leaves what the start wrote. */
  lemma StartIsWritten(cfg: Config, w: World, id: Id, env: Env)
    requires LetThrough(cfg, w, id, env) && AllWritten(env) && env.materialize.None? && env.engine.OtherError?
    requires w.ops[id].status.phase == Unset || w.ops[id].status.phase == Pending
    ensures var s, s' := w.ops[id].status, After(cfg, w, id, env);
      && Says(s'.conditions, "Accepted", "True", "AdmissionPassed", "Operation accepted")
      && Says(s'.conditions, "Running", "True", "EngineStarted", "Engine is running")
      && Says(s'.conditions, "Blocked", "False", "Unblocked", "Operation started")
      && s'.phase == Running && s'.startedAt == Some(env.now) && s'.engineRef
      && s'.finishedAt == s.finishedAt && s'.outputs == s.outputs
  {
    StillThere(cfg, w, id, env);
    StartedSays(w.ops[id].status, env.now);
    hide Gates, Get, Says, Set;
  }

  // ---------- An operation that has started ----------

  /** The operation has started, all writes go through. */
  ghost predicate Followed(cfg: Config, w: World, id: Id, env: Env) {
    && LetThrough(cfg, w, id, env) && AllWritten(env)
    && w.ops[id].status.phase != Unset && w.ops[id].status.phase != Pending
  }

  /** Whatever the engine says: a running operation without a start time gets one, an engine that keeps a
      job of its own is referred to, and neither is ever changed otherwise. */
  lemma StartIsBackfilled(cfg: Config, w: World, id: Id, env: Env)
    requires Followed(cfg, w, id, env)
    ensures var s, s' := w.ops[id].status, After(cfg, w, id, env);
      && s'.startedAt == (if s.phase == Running && s.startedAt.None? then Some(env.now) else s.startedAt)
      && s'.engineRef ==
           (s.engineRef || (s.phase == Running && w.ops[id].spec.engine in {Engine.Job, Workflow, HelmHookJob}))
  {
    StillThere(cfg, w, id, env);
    hide Gates, Set;
  }

  /** An engine that disowns the workload, or finds several, fails the operation with its message. An
      error it does not explain changes nothing else. */
  lemma EngineErrors(cfg: Config, w: World, id: Id, env: Env)
    requires Followed(cfg, w, id, env) && !env.engine.Report?
    ensures var s, s' := w.ops[id].status, After(cfg, w, id, env);
      && (env.engine.Ownership? || env.engine.Ambiguous? ==>
            s'.phase == Failed && s'.finishedAt == Some(env.later) && s'.outputs == s.outputs
            && Says(s'.conditions, "Failed", "True", "EngineFailed", env.engine.error))
      && (env.engine.OtherError? ==>
            s'.phase == s.phase && s'.finishedAt == s.finishedAt && s'.outputs == s.outputs
            && s'.conditions == s.conditions)
  {
    StillThere(cfg, w, id, env);
    if env.engine.Ownership? || env.engine.Ambiguous? {
      var s := BackfilledStatus(w.ops[id].status, w.ops[id].spec.engine, env.now);
      FailedSays(s, env.engine.error, env.later);
      FailedSays(w.ops[id].status, env.engine.error, env.later);
    }
    hide Gates, Get, Says, Set;
  }

  /** A report of progress is written as the phase and as nothing else. */
  lemma ProgressIsWritten(cfg: Config, w: World, id: Id, env: Env)
    requires Followed(cfg, w, id, env) && env.engine.Report? && !env.engine.done
    ensures var s, s' := w.ops[id].status, After(cfg, w, id, env);
      s'.phase == env.engine.phase && s'.finishedAt == s.finishedAt && s'.outputs == s.outputs
      && s'.conditions == s.conditions
  {
    StillThere(cfg, w, id, env);
    hide Gates, Set;
  }

  lemma DoneSays(s: Status, r: EngineStatus, now: int)
    requires r.Report?
    ensures var d := DoneStatus(s, r, now);
      && d.phase == r.phase && d.finishedAt == Some(now)
      && d.outputs == (if r.outputs.Some? then r.outputs else s.outputs)
      && Says(d.conditions, if r.failed then "Failed" else "Succeeded", "True", r.reason, r.message)
      && Says(d.conditions, "Running", "False", "EngineNotStarted",
           if r.failed then "Engine finished with failure" else "Engine completed")
  {
    hide Get, Set, Says;
    var t := if r.failed then FAILED else SUCCEEDED;
    assert t[0] != RUNNING[0];
    var c1 := Set(s.conditions, t, TRUE, r.reason, r.message, now);
    var text := if r.failed then "Engine finished with failure" else "Engine completed";
    SetSays(s.conditions, t, TRUE, r.reason, r.message, now);
    SetSays(c1, RUNNING, FALSE, "EngineNotStarted", text, now);
    SaysSame(c1, Set(c1, RUNNING, FALSE, "EngineNotStarted", text, now), t, TRUE, r.reason, r.message);
  }

  /** A report of the end is written as phase, time, outcome with the engine's reason and message, and
      outputs; outputs that are not reported stay. */
  lemma EndIsWritten(cfg: Config, w: World, id: Id, env: Env)
    requires Followed(cfg, w, id, env) && env.engine.Report? && env.engine.done
    ensures var s, s', r := w.ops[id].status, After(cfg, w, id, env), env.engine;
      && s'.phase == r.phase && s'.finishedAt == Some(env.later)
      && s'.outputs == (if r.outputs.Some? then r.outputs else s.outputs)
      && Says(s'.conditions, if r.failed then "Failed" else "Succeeded", "True", r.reason, r.message)
      && Says(s'.conditions, "Running", "False", "EngineNotStarted",
           if r.failed then "Engine finished with failure" else "Engine completed")
  {
    StillThere(cfg, w, id, env);
    DoneSays(BackfilledStatus(w.ops[id].status, w.ops[id].spec.engine, env.now), env.engine, env.later);
    DoneSays(w.ops[id].status, env.engine, env.later);
    hide Gates, Get, Says, Set, DoneStatus;
  }

  // ---------- Adoption and deletion ----------

  /** An operation that the controller has not adopted gets its finalizer and nothing else. One that is
      being deleted goes exactly when its engine, if there is one, has cancelled the workload and the
      finalizer can be removed; otherwise nothing happens. Neither is ever started. */
  lemma AdoptionAndDeletion(cfg: Config, w: World, id: Id, env: Env)
    requires id in w.ops && env.readOk
    ensures var w', op := Reconcile(cfg, w, id, env), w.ops[id];
      && (!op.finalizer ==>
            w' == if env.metaWrite.Refused? then w else w.(ops := w.ops[id := op.(finalizer := true)]))
      && (op.finalizer && op.deleting ==>
            && (id !in w'.ops <==> (!env.hasEngine || env.cancelOk) && !env.metaWrite.Refused?)
            && (id in w'.ops ==> w' == w)
            && w'.writes == w.writes && w'.starts == w.starts
            && (forall x :: x != id ==> (x in w'.ops <==> x in w.ops) && (x in w.ops ==> w'.ops[x] == w.ops[x])))
  {
    hide Gates, Drive, Set;
  }

  /** The operation carries no claim, or a blank one. */
  predicate NoClaim(op: Operation) {
    op.spec.approvals.None? || Trim(op.spec.approvals.value.claim) == ""
  }

  /** A read that fails changes nothing: that of the operation, that of its target, and, once the approval
      is settled, the listing. */
  lemma FailedReadsChangeNothing(cfg: Config, w: World, id: Id, env: Env)
    requires Managed(w, id)
    ensures !env.readOk ==> Reconcile(cfg, w, id, env) == w
    ensures env.valid && env.target.ReadError? ==> Reconcile(cfg, w, id, env) == w
    ensures env.valid && env.target.Found? && env.listing.None? && !AsksApproval(w.ops[id]) ==>
      Reconcile(cfg, w, id, env) == w
    ensures env.valid && env.target.Found? && env.listing.None? && w.ops[id].status.phase == Running ==>
      Reconcile(cfg, w, id, env) == w
  {
    hide Drive, Set;
    BlockReasonExact(cfg.crypto, w.ops[id], cfg.secret, env.now, env.error);
    hide BlockReason, Approved;
  }

  /** What a block says: both conditions carry the message of the gate, and a conflict names an operation
      that is in the way. */
  lemma BlockMessage(cfg: Config, w: World, id: Id, env: Env)
    requires Current(w, id, env) && Managed(w, id) && Readable(env) && !env.blockWrite.Refused?
    requires !Gates(cfg, w.ops[id], env).Open?
    ensures id in Reconcile(cfg, w, id, env).ops
    ensures var cs, why := Reconcile(cfg, w, id, env).ops[id].status.conditions, Why(cfg, w, id, env);
      var blocked, accepted := Get(cs, "Blocked"), Get(cs, "Accepted");
      && blocked.Some? && accepted.Some? && blocked.value.message == accepted.value.message
      && (why == "TargetNotReady" ==> blocked.value.message == "target ApplicationInstance not found")
      && (why == "ConflictingOperation" ==>
            exists x :: x in w.ops && x.namespace == id.namespace && InTheWay(w.ops[x], w.ops[id])
              && blocked.value.message == "conflicts with operation \"" + x.name + "\" (" + VerbName(w.ops[x].spec.verb)
                 + ")")
      && (why == "AwaitingApproval" && NoClaim(w.ops[id]) ==> blocked.value.message == "approval claim required")
  {
    GateTellsWhy(cfg, w, id, env);
    var gate := Gates(cfg, w.ops[id], env);
    GateMessage(cfg, w, id, env);
    hide Gates, Set, Get, Why, Clear, MayStart, Lists, InTheWay, NoClaim;
    Distinct();
    var s := w.ops[id].status;
    var c1 := Set(s.conditions, BLOCKED, TRUE, gate.reason, gate.message, env.now);
    SetSays(s.conditions, BLOCKED, TRUE, gate.reason, gate.message, env.now);
    SetSays(c1, ACCEPTED, FALSE, gate.reason, gate.message, env.now);
  }

  lemma GateMessage(cfg: Config, w: World, id: Id, env: Env)
    requires Current(w, id, env) && id in w.ops && Readable(env)
    requires Gates(cfg, w.ops[id], env).Blocked?
    ensures var gate := Gates(cfg, w.ops[id], env);
      && (gate.reason == "TargetNotReady" ==> gate.message == "target ApplicationInstance not found")
      && (gate.reason == "ConflictingOperation" ==>
            exists x :: x in w.ops && x.namespace == id.namespace && InTheWay(w.ops[x], w.ops[id])
              && gate.message == "conflicts with operation \"" + x.name + "\" (" + VerbName(w.ops[x].spec.verb) + ")")
      && (gate.reason == "AwaitingApproval" && NoClaim(w.ops[id]) ==> gate.message == "approval claim required")
  {
    ReasonsDiffer();
    hide VerbName, Clear, Trim;
    var list := env.listing.value;
    var i := FirstRival(list, w.ops[id]);
    if i < |list| {
      RivalExact(list[i], w.ops[id]);
      var x := list[i].id;
      assert w.ops[x] == list[i] && x.namespace == id.namespace && x.name == list[i].id.name;
      assert FormatConflict(list[i])
        == "conflicts with operation \"" + x.name + "\" (" + VerbName(w.ops[x].spec.verb) + ")";
    }
  }

  lemma ReasonsDiffer()
    ensures "ValidationFailed" != "TargetNotReady" && "ValidationFailed" != "ConflictingOperation"
      && "ValidationFailed" != "AwaitingApproval" && "DependencyMissing" != "TargetNotReady"
      && "DependencyMissing" != "ConflictingOperation" && "DependencyMissing" != "AwaitingApproval"
      && "TargetNotReady" != "ConflictingOperation" && "TargetNotReady" != "AwaitingApproval"
      && "ConflictingOperation" != "AwaitingApproval"
  {
    assert "ValidationFailed"[0] == 'V' && "TargetNotReady"[0] == 'T' && "ConflictingOperation"[0] == 'C'
      && "AwaitingApproval"[0] == 'A' && "DependencyMissing"[0] == 'D';
  }
}
