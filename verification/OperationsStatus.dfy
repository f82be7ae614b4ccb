/** Every status an operation ever has tells one story: its conditions, timestamps and engine
    reference agree, through starts, blocks, failures, backfills and restarts. */
module OperationsStatus {
  import opened Text
  import opened Conditions
  import opened Concurrency
  import opened Approvals
  import opened Operations

  const NAMES: set<string> := {ACCEPTED, BLOCKED, RUNNING, SUCCEEDED, FAILED}

  /** Accepted and Blocked are opposites once set, an accepted operation has a start and an engine
      reference, and exactly the finished ones say how they ended. */
  predicate Consistent(s: Status) {
    var accepted, blocked := StatusOf(s.conditions, ACCEPTED), StatusOf(s.conditions, BLOCKED);
    && Unique(s.conditions)
    && (|| (accepted.None? && blocked.None?)
        || (accepted == Some(TRUE) && blocked == Some(FALSE))
        || (accepted == Some(FALSE) && blocked == Some(TRUE)))
    && (accepted == Some(TRUE) ==> s.startedAt.Some? && s.engineRef)
    && (s.finishedAt.Some? <==> IsTrue(s.conditions, FAILED) || IsTrue(s.conditions, SUCCEEDED))
  }

  ghost predicate AllConsistent(w: World) {
    && (forall id :: id in w.ops ==> Consistent(w.ops[id].status))
    && (forall k :: 0 <= k < |w.writes| ==> Consistent(w.writes[k].status))
  }

  lemma NamesDiffer()
    ensures ACCEPTED != BLOCKED && ACCEPTED != RUNNING && ACCEPTED != SUCCEEDED && ACCEPTED != FAILED
    ensures BLOCKED != RUNNING && BLOCKED != SUCCEEDED && BLOCKED != FAILED
    ensures RUNNING != SUCCEEDED && RUNNING != FAILED && SUCCEEDED != FAILED
  {
    assert ACCEPTED[0] == 'A' && BLOCKED[0] == 'B' && RUNNING[0] == 'R' && SUCCEEDED[0] == 'S' && FAILED[0] == 'F';
  }

  /** What setting one of the conditions does to each of them. */
  lemma SetNames(cs: seq<Condition>, t: string, status: string, reason: string, message: string, now: int)
    requires Unique(cs)
    ensures var cs' := Set(cs, t, status, reason, message, now);
      Unique(cs') && forall u :: u in NAMES ==> StatusOf(cs', u) == if u == t then Some(status) else StatusOf(cs, u)
  {
    var cs' := Set(cs, t, status, reason, message, now);
    assert Unique(cs');
    hide Set, StatusOf, Unique;
    forall u | u in NAMES
      ensures StatusOf(cs', u) == if u == t then Some(status) else StatusOf(cs, u)
    {
      SetStatus(cs, t, status, reason, message, now, u);
    }
  }

  lemma BlockedConsistent(s: Status, reason: string, message: string, now: int)
    requires Consistent(s)
    ensures Consistent(BlockedStatus(s, reason, message, now))
  {
    hide Set, StatusOf, Unique;
    NamesDiffer();
    SetNames(s.conditions, BLOCKED, TRUE, reason, message, now);
    SetNames(Set(s.conditions, BLOCKED, TRUE, reason, message, now), ACCEPTED, FALSE, reason, message, now);
  }

  lemma FailedConsistent(s: Status, message: string, now: int)
    requires Consistent(s)
    ensures Consistent(FailedStatus(s, message, now))
  {
    hide Set, StatusOf, Unique;
    NamesDiffer();
    SetNames(s.conditions, FAILED, TRUE, "EngineFailed", message, now);
  }

  lemma StartedConsistent(s: Status, now: int)
    requires Consistent(s)
    ensures Consistent(StartedStatus(s, now))
  {
    hide Set, StatusOf, Unique;
    NamesDiffer();
    var c1 := Set(s.conditions, ACCEPTED, TRUE, "AdmissionPassed", "Operation accepted", now);
    var c2 := Set(c1, RUNNING, TRUE, "EngineStarted", "Engine is running", now);
    SetNames(s.conditions, ACCEPTED, TRUE, "AdmissionPassed", "Operation accepted", now);
    SetNames(c1, RUNNING, TRUE, "EngineStarted", "Engine is running", now);
    SetNames(c2, BLOCKED, FALSE, "Unblocked", "Operation started", now);
  }

  lemma DoneConsistent(s: Status, r: EngineStatus, now: int)
    requires Consistent(s) && r.Report?
    ensures Consistent(DoneStatus(s, r, now))
  {
    hide Set, StatusOf, Unique;
    NamesDiffer();
    var t := if r.failed then FAILED else SUCCEEDED;
    SetNames(s.conditions, t, TRUE, r.reason, r.message, now);
    SetNames(Set(s.conditions, t, TRUE, r.reason, r.message, now), RUNNING, FALSE, "EngineNotStarted",
      if r.failed then "Engine finished with failure" else "Engine completed", now);
  }

  // ---------- Over a reconcile and a run ----------

  lemma PutConsistent(w: World, id: Id, s: Status, how: Write)
    requires AllConsistent(w) && id in w.ops && Consistent(s)
    ensures AllConsistent(Put(w, id, s, how))
  {
    hide Consistent;
  }

  lemma CheckConsistent(w: World, id: Id, env: Env)
    requires AllConsistent(w) && id in w.ops
    ensures AllConsistent(Check(w, id, env))
  {
    var s := w.ops[id].status;
    assert Consistent(s);
    assert Consistent(s.(startedAt := Some(env.later)));
    if env.engine.Report? {
      DoneConsistent(s, env.engine, env.later);
      assert Consistent(s.(phase := env.engine.phase));
    } else if !env.engine.OtherError? {
      FailedConsistent(s, env.engine.error, env.later);
    }
    hide Consistent, AllConsistent, Put, DoneStatus, FailedStatus;
    if env.engine.Report? {
      if env.engine.done { PutConsistent(w, id, DoneStatus(s, env.engine, env.later), env.endWrite); }
      else { PutConsistent(w, id, s.(phase := env.engine.phase), env.endWrite); }
    } else if !env.engine.OtherError? {
      PutConsistent(w, id, FailedStatus(s, env.engine.error, env.later), env.endWrite);
      PutConsistent(w, id, s.(startedAt := Some(env.later)), env.endWrite);
    }
  }

  lemma FollowConsistent(w: World, id: Id, env: Env)
    requires AllConsistent(w) && id in w.ops
    ensures AllConsistent(Follow(w, id, env))
  {
    var s := BackfilledStatus(w.ops[id].status, w.ops[id].spec.engine, env.now);
    assert Consistent(w.ops[id].status);
    assert Consistent(s);
    hide Consistent, AllConsistent, Check, BackfilledStatus;
    PutConsistent(w, id, s, env.backfillWrite);
    CheckConsistent(w, id, env);
    if env.backfillWrite.Written? { CheckConsistent(Put(w, id, s, env.backfillWrite), id, env); }
  }

  lemma DriveConsistent(w: World, id: Id, env: Env)
    requires AllConsistent(w) && id in w.ops
    ensures AllConsistent(Drive(w, id, env))
  {
    var s := w.ops[id].status;
    var w1 := w.(starts := w.starts + [Start(w.ops, id, env.now)]);
    assert AllConsistent(w1) && Consistent(s);
    hide Consistent, AllConsistent, Follow, StartedStatus, FailedStatus;
    StartedConsistent(s, env.now);
    if env.materialize.Some? {
      FailedConsistent(s, env.materialize.value, env.later);
      PutConsistent(w1, id, FailedStatus(s, env.materialize.value, env.later), env.endWrite);
    }
    var started := StartedStatus(s, env.now);
    PutConsistent(w1, id, started, env.startWrite);
    FollowConsistent(w, id, env);
    if env.startWrite.Written? { FollowConsistent(Put(w1, id, started, env.startWrite), id, env); }
  }

  lemma ReconcileConsistent(cfg: Config, w: World, id: Id, env: Env)
    requires AllConsistent(w)
    ensures AllConsistent(Reconcile(cfg, w, id, env))
  {
    hide Consistent, Gates, Drive, BlockedStatus;
    if id in w.ops {
      var s := w.ops[id].status;
      assert Consistent(s);
      DriveConsistent(w, id, env);
      var gate := Gates(cfg, w.ops[id], env);
      if gate.Blocked? {
        BlockedConsistent(s, gate.reason, gate.message, env.now);
        PutConsistent(w, id, BlockedStatus(s, gate.reason, gate.message, env.now), env.blockWrite);
      }
    }
  }

  lemma DoConsistent(cfg: Config, w: World, step: Step)
    requires AllConsistent(w)
    ensures AllConsistent(Do(cfg, w, step))
  {
    FreshConsistent();
    hide Consistent, Reconcile, Lists;
    if step.Reconciled? { ReconcileConsistent(cfg, w, step.id, step.env); }
  }

  lemma FreshConsistent()
    ensures Consistent(FRESH)
  {
  }

  lemma {:induction false} RunConsistent(cfg: Config, w: World, steps: seq<Step>)
    requires AllConsistent(w)
    ensures AllConsistent(Run(cfg, w, steps))
    decreases |steps|
  {
    hide AllConsistent, Do;
    if steps != [] {
      DoConsistent(cfg, w, steps[0]);
      RunConsistent(cfg, Do(cfg, w, steps[0]), steps[1..]);
    }
  }

  /** In every run, every status that is ever persisted is consistent. */
  lemma PersistedConsistent(cfg: Config, steps: seq<Step>, k: nat)
    ensures var w := Run(cfg, EMPTY, steps);
      k < |w.writes| ==> Consistent(w.writes[k].status)
  {
    hide Run, Consistent;
    RunConsistent(cfg, EMPTY, steps);
  }
}
