/** The operation controller. One reconcile reads the operation, lets it through a row of gates, starts
    its engine and follows the engine's status; every status write may be refused or its reply lost. */
module Operations {
  import opened Text
  import opened Conditions
  import opened Concurrency
  import opened Approvals
  import Claim = ApprovalClaim

  datatype Config = Config(crypto: Claim.Crypto, secret: string)

  /** A persisted status, with the operations as they were just before. */
  datatype Record = Record(before: map<Id, Operation>, id: Id, status: Status)

  /** A call of an engine's Materialize. */
  datatype Start = Start(before: map<Id, Operation>, id: Id, now: int)

  datatype World = World(ops: map<Id, Operation>, writes: seq<Record>, starts: seq<Start>)

  // ---------- The environment ----------

  datatype Write = Written | Refused | ReplyLost

  datatype Read = Found | NotFound | ReadError

  datatype EngineStatus =
    | Ownership(error: string) | Ambiguous(error: string) | Missing(error: string) | OtherError
    | Report(done: bool, failed: bool, phase: Phase, reason: string, message: string, outputs: Option<string>)

  datatype Env = Env(
    readOk: bool, valid: bool, target: Read,
    listing: Option<seq<Operation>>,   // None: the list call fails
    hasEngine: bool, materialize: Option<string>, cancelOk: bool, engine: EngineStatus,
    metaWrite: Write, blockWrite: Write, startWrite: Write, backfillWrite: Write, endWrite: Write,
    error: string, now: int, later: int)

  const GRACE := 60

  // ---------- Statuses ----------

  function BlockedStatus(s: Status, reason: string, message: string, now: int): Status {
    var c1 := Set(s.conditions, BLOCKED, TRUE, reason, message, now);
    s.(phase := Pending, conditions := Set(c1, ACCEPTED, FALSE, reason, message, now))
  }

  function FailedStatus(s: Status, message: string, now: int): Status {
    s.(phase := Failed, finishedAt := Some(now),
      conditions := Set(s.conditions, FAILED, TRUE, "EngineFailed", message, now))
  }

  function StartedStatus(s: Status, now: int): Status {
    var c1 := Set(s.conditions, ACCEPTED, TRUE, "AdmissionPassed", "Operation accepted", now);
    var c2 := Set(c1, RUNNING, TRUE, "EngineStarted", "Engine is running", now);
    var c3 := Set(c2, BLOCKED, FALSE, "Unblocked", "Operation started", now);
    s.(phase := Running, startedAt := Some(now), engineRef := true, conditions := c3)
  }

  predicate SupportsEngineRef(e: Engine) {
    e.Job? || e.Workflow? || e.HelmHookJob?
  }

  function BackfilledStatus(s: Status, e: Engine, now: int): Status {
    if !s.phase.Running? then s
    else s.(
      startedAt := if s.startedAt.None? then Some(now) else s.startedAt,
      engineRef := s.engineRef || SupportsEngineRef(e))
  }

  function DoneStatus(s: Status, r: EngineStatus, now: int): Status
    requires r.Report?
  {
    var c1 := Set(s.conditions, if r.failed then FAILED else SUCCEEDED, TRUE, r.reason, r.message, now);
    var c2 := Set(c1, RUNNING, FALSE, "EngineNotStarted",
      if r.failed then "Engine finished with failure" else "Engine completed", now);
    s.(phase := r.phase, finishedAt := Some(now), conditions := c2,
       outputs := if r.outputs.Some? then r.outputs else s.outputs)
  }

  // ---------- One reconcile ----------

  function Put(w: World, id: Id, s: Status, how: Write): World
    requires id in w.ops
  {
    if how.Refused? then w
    else World(w.ops[id := w.ops[id].(status := s)], w.writes + [Record(w.ops, id, s)], w.starts)
  }

  function Block(w: World, id: Id, reason: string, message: string, env: Env): World
    requires id in w.ops
  {
    Put(w, id, BlockedStatus(w.ops[id].status, reason, message, env.now), env.blockWrite)
  }

  function Fail(w: World, id: Id, message: string, env: Env): World
    requires id in w.ops
  {
    Put(w, id, FailedStatus(w.ops[id].status, message, env.later), env.endWrite)
  }

  function Finalize(w: World, id: Id, env: Env): World
    requires id in w.ops
  {
    if (env.hasEngine && !env.cancelOk) || env.metaWrite.Refused? then w
    else w.(ops := w.ops - {id})
  }

  function OnStatusError(w: World, id: Id, env: Env): World
    requires id in w.ops && !env.engine.Report?
  {
    var s := w.ops[id].status;
    match env.engine
    case Ownership(e) => Fail(w, id, e, env)
    case Ambiguous(e) => Fail(w, id, e, env)
    case Missing(e) =>
      if !s.phase.Running? then Fail(w, id, e, env)
      else if s.startedAt.None? then Put(w, id, s.(startedAt := Some(env.later)), env.endWrite)
      else if env.later - s.startedAt.value < GRACE then w
      else Fail(w, id, e, env)
    case _ => w
  }

  /** Asks the engine and writes down what it says. */
  function Check(w: World, id: Id, env: Env): World
    requires id in w.ops
  {
    var s := w.ops[id].status;
    if !env.engine.Report? then OnStatusError(w, id, env)
    else if env.engine.done then Put(w, id, DoneStatus(s, env.engine, env.later), env.endWrite)
    else Put(w, id, s.(phase := env.engine.phase), env.endWrite)
  }

  function Follow(w: World, id: Id, env: Env): World
    requires id in w.ops
  {
    var op := w.ops[id];
    var s := BackfilledStatus(op.status, op.spec.engine, env.now);
    if s == op.status then Check(w, id, env)
    else
      var w' := Put(w, id, s, env.backfillWrite);
      if env.backfillWrite.Written? then Check(w', id, env) else w'
  }

  function Drive(w: World, id: Id, env: Env): World
    requires id in w.ops
  {
    if !NeedsApprovalCheck(w.ops[id]) then Follow(w, id, env)
    else
      var w1 := w.(starts := w.starts + [Start(w.ops, id, env.now)]);
      if env.materialize.Some? then Fail(w1, id, env.materialize.value, env)
      else
        var w2 := Put(w1, id, StartedStatus(w.ops[id].status, env.now), env.startWrite);
        if env.startWrite.Written? then Follow(w2, id, env) else w2
  }

  datatype Gate = Open | Broken | Blocked(reason: string, message: string)

  function VerbName(v: Verb): string {
    match v
    case Backup => "Backup" case Restore => "Restore" case Upgrade => "Upgrade" case Migration => "Migration"
    case RunCommand => "RunCommand" case Runbook => "Runbook" case OtherVerb(name) => name
  }

  function FormatConflict(rival: Operation): string {
    "conflicts with operation \"" + rival.id.name + "\" (" + VerbName(rival.spec.verb) + ")"
  }

  /** The gates before the engine, in order. */
  function Gates(cfg: Config, op: Operation, env: Env): Gate {
    if !env.valid then Blocked("ValidationFailed", env.error)
    else if env.target.NotFound? then Blocked("TargetNotReady", "target ApplicationInstance not found")
    else if env.target.ReadError? then Broken
    else
      var why := if NeedsApprovalCheck(op) then BlockReason(cfg.crypto, op, cfg.secret, env.now, env.error) else None;
      if why.Some? then Blocked("AwaitingApproval", why.value)
      else if env.listing.None? then Broken
      else
        var list := env.listing.value;
        var i := FirstRival(list, op);
        if i < |list| then Blocked("ConflictingOperation", FormatConflict(list[i]))
        else if !env.hasEngine then Blocked("DependencyMissing", env.error)
        else Open
  }

  function Reconcile(cfg: Config, w: World, id: Id, env: Env): World {
    if id !in w.ops || !env.readOk then w
    else if !w.ops[id].finalizer then
      if env.metaWrite.Refused? then w else w.(ops := w.ops[id := w.ops[id].(finalizer := true)])
    else if w.ops[id].deleting then Finalize(w, id, env)
    else match Gates(cfg, w.ops[id], env)
      case Blocked(reason, message) => Block(w, id, reason, message, env)
      case Broken => w
      case Open => Drive(w, id, env)
  }

  // ---------- Runs ----------

  datatype Step =
    | Create(id: Id, spec: Spec)
    | Edit(id: Id, engine: Engine, approvals: Option<ApprovalSpec>)  // verb and target stay
    | Delete(id: Id)
    | Reconciled(id: Id, env: Env)

  const FRESH := Status(Unset, None, None, false, None, [])

  function Do(cfg: Config, w: World, step: Step): World {
    match step
    case Create(id, spec) =>
      if id in w.ops then w else w.(ops := w.ops[id := Operation(id, false, false, spec, FRESH)])
    case Edit(id, engine, approvals) =>
      if id !in w.ops then w
      else w.(ops := w.ops[id := w.ops[id].(spec := w.ops[id].spec.(engine := engine, approvals := approvals))])
    case Delete(id) =>
      if id !in w.ops then w
      else if w.ops[id].finalizer then w.(ops := w.ops[id := w.ops[id].(deleting := true)])
      else w.(ops := w.ops - {id})
    case Reconciled(id, env) =>
      // lists are current
      if env.listing.Some? && !Lists(env.listing.value, w.ops, id.namespace) then w
      else Reconcile(cfg, w, id, env)
  }

  function Run(cfg: Config, w: World, steps: seq<Step>): World
    decreases |steps|
  {
    if steps == [] then w else Run(cfg, Do(cfg, w, steps[0]), steps[1..])
  }

  const EMPTY := World(map[], [], [])

  // ---------- The code ----------

  class OperationReconciler {
    var ops: map<Id, Operation>
    ghost var writes: seq<Record>
    ghost var starts: seq<Start>
    const cfg: Config

    ghost function View(): World
      reads this
    {
      World(ops, writes, starts)
    }

    constructor (cfg: Config)
      ensures View() == EMPTY && this.cfg == cfg
    {
      ops, writes, starts, this.cfg := map[], [], [], cfg;
    }

    method StatusUpdate(op: Operation, how: Write) returns (ok: bool)
      requires op.id in ops && op == ops[op.id].(status := op.status)
      modifies this
      ensures View() == Put(old(View()), op.id, op.status, how)
      ensures ok == how.Written?
    {
      if !how.Refused? {
        writes := writes + [Record(ops, op.id, op.status)];
        ops := ops[op.id := op];
      }
      ok := how.Written?;
    }

    method BlockOperation(stored: Operation, reason: string, message: string, env: Env)
      requires stored.id in ops && stored == ops[stored.id]
      modifies this
      ensures View() == Block(old(View()), stored.id, reason, message, env)
    {
      var op := stored;
      op := op.(status := op.status.(phase := Pending));
      op := op.(status := op.status.(conditions := Set(op.status.conditions, BLOCKED, TRUE, reason, message, env.now)));
      op := op.(status := op.status.(conditions := Set(op.status.conditions, ACCEPTED, FALSE, reason, message,
        env.now)));
      var _ := StatusUpdate(op, env.blockWrite);
    }

    method FailOperation(stored: Operation, message: string, env: Env)
      requires stored.id in ops && stored == ops[stored.id]
      modifies this
      ensures View() == Fail(old(View()), stored.id, message, env)
    {
      var op := stored;
      op := op.(status := op.status.(phase := Failed, finishedAt := Some(env.later)));
      op := op.(status := op.status.(conditions := Set(op.status.conditions, FAILED, TRUE, "EngineFailed", message,
        env.later)));
      var _ := StatusUpdate(op, env.endWrite);
    }

    method BackfillEngineRefIfNeeded(stored: Operation, env: Env) returns (ok: bool, op: Operation)
      requires stored.id in ops && stored == ops[stored.id]
      modifies this
      ensures op == stored.(status := BackfilledStatus(stored.status, stored.spec.engine, env.now))
      ensures View() == if op == stored then old(View()) else Put(old(View()), op.id, op.status, env.backfillWrite)
      ensures ok == (op == stored || env.backfillWrite.Written?)
    {
      op := stored;
      if !op.status.phase.Running? { return true, op; }
      var patch := false;
      if op.status.startedAt.None? {
        op := op.(status := op.status.(startedAt := Some(env.now)));
        patch := true;
      }
      if !op.status.engineRef && SupportsEngineRef(op.spec.engine) {
        op := op.(status := op.status.(engineRef := true));
        patch := true;
      }
      if !patch { return true, op; }
      ok := StatusUpdate(op, env.backfillWrite);
    }

    method HandleEngineStatusError(op: Operation, env: Env)
      requires op.id in ops && op == ops[op.id] && !env.engine.Report?
      modifies this
      ensures View() == OnStatusError(old(View()), op.id, env)
    {
      if env.engine.Ownership? || env.engine.Ambiguous? {
        FailOperation(op, env.engine.error, env);
      } else if env.engine.Missing? {
        if op.status.phase.Running? {
          if op.status.startedAt.None? {
            var _ := StatusUpdate(op.(status := op.status.(startedAt := Some(env.later))), env.endWrite);
            return;
          }
          if env.later - op.status.startedAt.value < GRACE { return; }
        }
        FailOperation(op, env.engine.error, env);
      }
    }

    method WriteEngineStatus(stored: Operation, env: Env)
      requires stored.id in ops && stored == ops[stored.id]
      modifies this
      ensures View() == Check(old(View()), stored.id, env)
    {
      if !env.engine.Report? {
        HandleEngineStatusError(stored, env);
        return;
      }
      var op, r := stored, env.engine;
      if r.done {
        var s := op.status.(finishedAt := Some(env.later), phase := r.phase);
        if r.failed {
          s := s.(conditions := Set(s.conditions, FAILED, TRUE, r.reason, r.message, env.later));
          s := s.(conditions := Set(s.conditions, RUNNING, FALSE, "EngineNotStarted", "Engine finished with failure",
            env.later));
        } else {
          s := s.(conditions := Set(s.conditions, SUCCEEDED, TRUE, r.reason, r.message, env.later));
          s := s.(conditions := Set(s.conditions, RUNNING, FALSE, "EngineNotStarted", "Engine completed", env.later));
        }
        if r.outputs.Some? { s := s.(outputs := r.outputs); }
        var _ := StatusUpdate(op.(status := s), env.endWrite);
      } else {
        var _ := StatusUpdate(op.(status := op.status.(phase := r.phase)), env.endWrite);
      }
    }

    method StartIfPending(stored: Operation, env: Env) returns (ok: bool, op: Operation)
      requires stored.id in ops && stored == ops[stored.id]
      modifies this
      ensures ok ==> op.id == stored.id && op.id in ops && op == ops[op.id]
      ensures Drive(old(View()), stored.id, env) == if ok then Follow(View(), stored.id, env) else View()
    {
      op := stored;
      if op.status.phase.Unset? || op.status.phase.Pending? {
        starts := starts + [Start(ops, op.id, env.now)];
        if env.materialize.Some? {
          FailOperation(op, env.materialize.value, env);
          return false, op;
        }
        var s := op.status.(engineRef := true, phase := Running, startedAt := Some(env.now));
        s := s.(conditions := Set(s.conditions, ACCEPTED, TRUE, "AdmissionPassed", "Operation accepted", env.now));
        s := s.(conditions := Set(s.conditions, RUNNING, TRUE, "EngineStarted", "Engine is running", env.now));
        s := s.(conditions := Set(s.conditions, BLOCKED, FALSE, "Unblocked", "Operation started", env.now));
        op := op.(status := s);
        ok := StatusUpdate(op, env.startWrite);
        return ok, op;
      }
      ok := true;
    }

    method DriveEngine(stored: Operation, env: Env)
      requires stored.id in ops && stored == ops[stored.id]
      modifies this
      ensures View() == Drive(old(View()), stored.id, env)
    {
      var ok, op := StartIfPending(stored, env);
      if !ok { return; }
      ok, op := BackfillEngineRefIfNeeded(op, env);
      if !ok { return; }
      WriteEngineStatus(op, env);
    }

    /** Every field of `ops` is keyed by the operation's own identity. */
    ghost predicate Keyed()
      reads this
    {
      forall id :: id in ops ==> ops[id].id == id
    }

    method ReconcileOnce(id: Id, env: Env)
      requires Keyed()
      modifies this
      ensures View() == Reconcile(cfg, old(View()), id, env)
    {
      if id !in ops || !env.readOk { return; }
      var op := ops[id];
      if !op.finalizer {
        if !env.metaWrite.Refused? { ops := ops[id := op.(finalizer := true)]; }
        return;
      }
      if op.deleting {
        if env.hasEngine && !env.cancelOk { return; }
        if !env.metaWrite.Refused? { ops := ops - {id}; }
        return;
      }
      if !env.valid { BlockOperation(op, "ValidationFailed", env.error, env); return; }
      if env.target.NotFound? {
        BlockOperation(op, "TargetNotReady", "target ApplicationInstance not found", env);
        return;
      }
      if env.target.ReadError? { return; }
      if NeedsApprovalCheck(op) {
        var why := BlockReason(cfg.crypto, op, cfg.secret, env.now, env.error);
        if why.Some? { BlockOperation(op, "AwaitingApproval", why.value, env); return; }
      }
      if env.listing.None? { return; }
      var conflict := FindConflict(env.listing.value, op);
      if conflict.Some? {
        BlockOperation(op, "ConflictingOperation", FormatConflict(conflict.value), env);
        return;
      }
      if !env.hasEngine { BlockOperation(op, "DependencyMissing", env.error, env); return; }
      DriveEngine(op, env);
    }
  }
}
