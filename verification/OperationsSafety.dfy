/** What holds over every run of the operation controller: exclusion, the approval gate, and exactly
    when operations are started, kept and pushed back. */
module OperationsSafety {
  import opened Text
  import opened Conditions
  import opened Concurrency
  import opened Approvals
  import opened Operations

  ghost predicate KeyedById(ops: map<Id, Operation>) {
    forall id :: id in ops ==> ops[id].id == id
  }

  /** The same operations but for the status of one. */
  ghost predicate Restatus(m: map<Id, Operation>, m': map<Id, Operation>, id: Id) {
    && id in m && m'.Keys == m.Keys
    && (forall x :: x in m && x != id ==> m'[x] == m[x])
    && m'[id] == m[id].(status := m'[id].status)
  }

  /** What a reconcile of `id` may do to the world: rewrite its status, leaving records. */
  ghost predicate Grown(w: World, w': World, id: Id) {
    && Restatus(w.ops, w'.ops, id)
    && w.writes <= w'.writes
    && forall k :: |w.writes| <= k < |w'.writes| ==>
         w'.writes[k].id == id && Restatus(w.ops, w'.writes[k].before, id)
  }

  lemma PutGrown(w0: World, w: World, id: Id, s: Status, how: Write)
    requires Grown(w0, w, id)
    ensures Grown(w0, Put(w, id, s, how), id) && Put(w, id, s, how).starts == w.starts
  {
  }

  lemma CheckGrown(w0: World, w: World, id: Id, env: Env)
    requires Grown(w0, w, id)
    ensures Grown(w0, Check(w, id, env), id) && Check(w, id, env).starts == w.starts
  {
    assert id in w.ops;
    hide Grown, Put, Set;
    var s := w.ops[id].status;
    if env.engine.Report? {
      if env.engine.done { PutGrown(w0, w, id, DoneStatus(s, env.engine, env.later), env.endWrite); }
      else { PutGrown(w0, w, id, s.(phase := env.engine.phase), env.endWrite); }
    } else if !env.engine.OtherError? {
      PutGrown(w0, w, id, FailedStatus(s, env.engine.error, env.later), env.endWrite);
      PutGrown(w0, w, id, s.(startedAt := Some(env.later)), env.endWrite);
    }
  }

  lemma FollowGrown(w0: World, w: World, id: Id, env: Env)
    requires Grown(w0, w, id)
    ensures Grown(w0, Follow(w, id, env), id) && Follow(w, id, env).starts == w.starts
  {
    assert id in w.ops;
    hide Grown, Put, Check, BackfilledStatus;
    var s := BackfilledStatus(w.ops[id].status, w.ops[id].spec.engine, env.now);
    PutGrown(w0, w, id, s, env.backfillWrite);
    CheckGrown(w0, w, id, env);
    CheckGrown(w0, Put(w, id, s, env.backfillWrite), id, env);
  }

  lemma DriveGrown(w: World, id: Id, env: Env)
    requires id in w.ops
    ensures Grown(w, Drive(w, id, env), id)
    ensures Drive(w, id, env).starts == w.starts +
      if NeedsApprovalCheck(w.ops[id]) then [Start(w.ops, id, env.now)] else []
  {
    var w1 := w.(starts := w.starts + [Start(w.ops, id, env.now)]);
    assert Grown(w, w, id) && Grown(w, w1, id);
    assert w.starts + [] == w.starts;
    hide Grown, Put, Follow, Set;
    FollowGrown(w, w, id, env);
    if env.materialize.Some? {
      PutGrown(w, w1, id, FailedStatus(w1.ops[id].status, env.materialize.value, env.later), env.endWrite);
    }
    PutGrown(w, w1, id, StartedStatus(w.ops[id].status, env.now), env.startWrite);
    FollowGrown(w, Put(w1, id, StartedStatus(w.ops[id].status, env.now), env.startWrite), id, env);
  }

  // ---------- The invariant ----------

  /** The pairs that block each other. */
  predicate Exclusive(a: Verb, b: Verb) {
    Conflicts(a, b) && Conflicts(b, a)
  }

  predicate SameTarget(a: Operation, b: Operation) {
    a.id != b.id && a.id.namespace == b.id.namespace && a.spec.target == b.spec.target
  }

  ghost predicate NoClash(ops: map<Id, Operation>) {
    forall x, y :: x in ops && y in ops && SameTarget(ops[x], ops[y])
      && Exclusive(ops[x].spec.verb, ops[y].spec.verb) && ops[x].status.phase.Running?
      ==> !ops[y].status.phase.Running?
  }

  ghost predicate RecordOk(r: Record) {
    && KeyedById(r.before) && r.id in r.before
    && (r.status.phase.Pending? || Clear(r.before, r.before[r.id]))
  }

  ghost predicate StartOk(cfg: Config, st: Start) {
    && KeyedById(st.before) && st.id in st.before
    && var op := st.before[st.id];
       && NeedsApprovalCheck(op) && op.finalizer && !op.deleting
       && Clear(st.before, op)
       && (AsksApproval(op) ==> Trim(cfg.secret) != "" && Approved(cfg.crypto, op, cfg.secret, st.now))
  }

  ghost predicate Inv(cfg: Config, w: World) {
    && KeyedById(w.ops) && NoClash(w.ops)
    && (forall k :: 0 <= k < |w.writes| ==> RecordOk(w.writes[k]))
    && (forall k :: 0 <= k < |w.starts| ==> StartOk(cfg, w.starts[k]))
  }

  /** Being clear does not depend on one's own status. */
  lemma ClearStable(m: map<Id, Operation>, m': map<Id, Operation>, id: Id)
    requires KeyedById(m) && Restatus(m, m', id)
    ensures KeyedById(m') && (Clear(m, m[id]) <==> Clear(m', m'[id]))
  {
    forall x | x in m && x.namespace == m[id].id.namespace
      ensures Rival(m[x], m[id]) == Rival(m'[x], m'[id])
    {
    }
  }

  lemma OpenMeansClear(cfg: Config, w: World, id: Id, env: Env)
    requires KeyedById(w.ops) && id in w.ops && Gates(cfg, w.ops[id], env).Open?
    requires env.listing.Some? ==> Lists(env.listing.value, w.ops, id.namespace)
    ensures Clear(w.ops, w.ops[id])
    ensures NeedsApprovalCheck(w.ops[id]) && AsksApproval(w.ops[id]) ==>
      Trim(cfg.secret) != "" && Approved(cfg.crypto, w.ops[id], cfg.secret, env.now)
  {
    hide Lists, BlockReason, FormatConflict, Approved, Clear;
    ListingDecides(env.listing.value, w.ops, w.ops[id]);
    BlockReasonExact(cfg.crypto, w.ops[id], cfg.secret, env.now, env.error);
  }

  /** Once clear, anything may be written without a clash. */
  lemma ClearNoClash(m: map<Id, Operation>, m': map<Id, Operation>, id: Id)
    requires KeyedById(m) && NoClash(m) && Restatus(m, m', id)
    requires Clear(m, m[id]) || !m'[id].status.phase.Running?
    ensures NoClash(m')
  {
    ClearStable(m, m', id);
    forall x, y | x in m' && y in m' && SameTarget(m'[x], m'[y])
      && Exclusive(m'[x].spec.verb, m'[y].spec.verb) && m'[x].status.phase.Running?
      ensures !m'[y].status.phase.Running?
    {
      if x == id {
        assert m'[id].status.phase.Running?;
        assert !Rival(m[y], m[id]);
      } else if y == id {
        assert Rival(m[x], m[id]);
      } else {
        assert m[x] == m'[x] && m[y] == m'[y];
      }
    }
  }

  lemma DriveInv(cfg: Config, w: World, id: Id, env: Env)
    requires Inv(cfg, w) && id in w.ops && Gates(cfg, w.ops[id], env).Open?
    requires w.ops[id].finalizer && !w.ops[id].deleting
    requires env.listing.Some? ==> Lists(env.listing.value, w.ops, id.namespace)
    ensures Inv(cfg, Drive(w, id, env))
  {
    var w' := Drive(w, id, env);
    DriveGrown(w, id, env);
    OpenMeansClear(cfg, w, id, env);
    hide Drive, Gates, Lists, Clear, NoClash, Approved, KeyedById, Restatus;
    assert Restatus(w.ops, w'.ops, id);
    ClearNoClash(w.ops, w'.ops, id);
    ClearStable(w.ops, w'.ops, id);
    forall k | |w.writes| <= k < |w'.writes|
      ensures RecordOk(w'.writes[k])
    {
      ClearStable(w.ops, w'.writes[k].before, id);
      InMap(w.ops, w'.writes[k].before, id);
    }
  }

  lemma InMap(m: map<Id, Operation>, m': map<Id, Operation>, id: Id)
    requires Restatus(m, m', id)
    ensures id in m'
  {
  }

  lemma BlockInv(cfg: Config, w: World, id: Id, reason: string, message: string, env: Env)
    requires Inv(cfg, w) && id in w.ops
    ensures Inv(cfg, Block(w, id, reason, message, env))
  {
    hide Set;
    var w' := Block(w, id, reason, message, env);
    if !env.blockWrite.Refused? {
      assert Restatus(w.ops, w'.ops, id);
      ClearNoClash(w.ops, w'.ops, id);
      ClearStable(w.ops, w'.ops, id);
    }
  }

  lemma ReconcileInv(cfg: Config, w: World, id: Id, env: Env)
    requires Inv(cfg, w)
    requires env.listing.Some? ==> Lists(env.listing.value, w.ops, id.namespace)
    ensures Inv(cfg, Reconcile(cfg, w, id, env))
  {
    hide Drive, Gates, Block, Lists, RecordOk, StartOk;
    if id in w.ops && env.readOk && w.ops[id].finalizer && !w.ops[id].deleting {
      match Gates(cfg, w.ops[id], env)
      case Blocked(reason, message) => BlockInv(cfg, w, id, reason, message, env);
      case Broken =>
      case Open => DriveInv(cfg, w, id, env);
    }
  }

  lemma DoInv(cfg: Config, w: World, step: Step)
    requires Inv(cfg, w)
    ensures Inv(cfg, Do(cfg, w, step))
  {
    hide Reconcile, Lists, RecordOk, StartOk;
    if step.Reconciled? && (step.env.listing.Some? ==> Lists(step.env.listing.value, w.ops, step.id.namespace)) {
      ReconcileInv(cfg, w, step.id, step.env);
    }
  }

  lemma {:induction false} RunInv(cfg: Config, w: World, steps: seq<Step>)
    requires Inv(cfg, w)
    ensures Inv(cfg, Run(cfg, w, steps))
    decreases |steps|
  {
    hide Inv, Do;
    if steps != [] {
      DoInv(cfg, w, steps[0]);
      RunInv(cfg, Do(cfg, w, steps[0]), steps[1..]);
    }
  }

  // ---------- Exclusion and approval over whole runs ----------

  /** No run brings two upgrades, or a backup and a restore, of one target to Running together. */
  lemma MutualExclusion(cfg: Config, steps: seq<Step>, x: Id, y: Id)
    ensures var ops := Run(cfg, EMPTY, steps).ops;
      x != y && x in ops && y in ops && x.namespace == y.namespace && ops[x].spec.target == ops[y].spec.target
      && (|| (ops[x].spec.verb.Upgrade? && ops[y].spec.verb.Upgrade?)
          || (ops[x].spec.verb.Backup? && ops[y].spec.verb.Restore?))
      ==> !(ops[x].status.phase.Running? && ops[y].status.phase.Running?)
  {
    hide Run;
    RunInv(cfg, EMPTY, steps);
  }

  /** Whenever any status other than Pending is written, no other operation on the target that
      conflicts is Pending or Running. */
  lemma NoWriteAgainstConflict(cfg: Config, steps: seq<Step>, k: nat, y: Id)
    ensures var w := Run(cfg, EMPTY, steps);
      k < |w.writes| ==>
        var r := w.writes[k];
        && r.id in r.before
        && (!r.status.phase.Pending? && y in r.before && SameTarget(r.before[y], r.before[r.id])
            && Conflicts(r.before[y].spec.verb, r.before[r.id].spec.verb)
            ==> !r.before[y].status.phase.Pending? && !r.before[y].status.phase.Running?)
  {
    hide Run;
    RunInv(cfg, EMPTY, steps);
    var w := Run(cfg, EMPTY, steps);
    if k < |w.writes| {
      var r := w.writes[k];
      assert RecordOk(r);
      if !r.status.phase.Pending? && y in r.before && SameTarget(r.before[y], r.before[r.id]) {
        assert !Rival(r.before[y], r.before[r.id]);
      }
    }
  }

  /** In particular a restore is never written as Running while an upgrade of its target is Pending or
      Running. */
  lemma NoRestoreBesideUpgrade(cfg: Config, steps: seq<Step>, k: nat, y: Id)
    ensures var w := Run(cfg, EMPTY, steps);
      k < |w.writes| ==>
        var r := w.writes[k];
        && r.id in r.before
        && (r.status.phase.Running? && r.before[r.id].spec.verb.Restore?
            && y in r.before && y != r.id && y.namespace == r.id.namespace
            && r.before[y].spec.target == r.before[r.id].spec.target && r.before[y].spec.verb.Upgrade?
            ==> !r.before[y].status.phase.Pending? && !r.before[y].status.phase.Running?)
  {
    hide Run;
    RunInv(cfg, EMPTY, steps);
    var w := Run(cfg, EMPTY, steps);
    NoWriteAgainstConflict(cfg, steps, k, y);
    if k < |w.writes| { assert RecordOk(w.writes[k]); }
  }

  /** Every Materialize, first or repeated, of an operation that is a Velero restore or whose approvals
      section asks for approval happens while a claim signed for that operation and not expired is on
      it. */
  lemma ApprovalGate(cfg: Config, steps: seq<Step>, k: nat)
    ensures var w := Run(cfg, EMPTY, steps);
      k < |w.starts| ==>
        var st := w.starts[k];
        && st.id in st.before && st.before[st.id].id == st.id
        && (|| (st.before[st.id].spec.verb.Restore? && st.before[st.id].spec.engine.Velero?)
            || (st.before[st.id].spec.approvals.Some? && st.before[st.id].spec.approvals.value.required)
            ==>
              Trim(cfg.secret) != "" && Approved(cfg.crypto, st.before[st.id], cfg.secret, st.now))
  {
    hide Run;
    RunInv(cfg, EMPTY, steps);
    var w := Run(cfg, EMPTY, steps);
    if k < |w.starts| {
      assert StartOk(cfg, w.starts[k]);
    }
  }

  /** Every Materialize is of an operation that was Pending or new, that the controller had adopted and
      that was not being deleted, with no operation in the way. */
  lemma StartsOnlyWhenDue(cfg: Config, steps: seq<Step>, k: nat, y: Id)
    ensures var w := Run(cfg, EMPTY, steps);
      k < |w.starts| ==>
        var st := w.starts[k];
        && st.id in st.before && st.before[st.id].finalizer && !st.before[st.id].deleting
        && (st.before[st.id].status.phase == Unset || st.before[st.id].status.phase == Pending)
        && (y in st.before && y.namespace == st.id.namespace ==> !InTheWay(st.before[y], st.before[st.id]))
  {
    hide Run;
    RunInv(cfg, EMPTY, steps);
    var w := Run(cfg, EMPTY, steps);
    if k < |w.starts| {
      var st := w.starts[k];
      assert StartOk(cfg, st);
      if y in st.before { RivalExact(st.before[y], st.before[st.id]); }
    }
  }
}
