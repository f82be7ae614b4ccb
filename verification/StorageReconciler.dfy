/** The delivery code as it runs: the reconciler's in-memory maps, the outbound buffer, the control
    plane and the annotations of the instances, updated in place. Every method carries along the
    state of the transition system of Delivery and shows that what it does is a run of it, so all
    that is proved of those runs holds of this code. */
module StorageReconciler {
  import opened Text
  import opened EventKeys
  import opened Events
  import opened Delivery
  import opened DeliverySafety
  import opened DeliveryProgress
  import opened DeliveryAck
  import B = Batcher
  import Runs = BatcherRuns
  import CP = ControlPlane

  function Look(annotations: map<Ref, Annotations>, r: Ref): Annotations {
    if r in annotations then annotations[r] else BARE
  }

  /** The environment of one API call: its outcome, with a current read. */
  function Call(calls: seq<Outcome>, i: nat): Outcome {
    if i < |calls| then calls[i] else Fail
  }

  /** The acknowledgement makes one read and one patch an attempt. */
  function ReadCall(calls: seq<Outcome>, attempt: nat): Outcome {
    Call(calls, 2 * attempt)
  }

  function PatchCall(calls: seq<Outcome>, attempt: nat): Outcome {
    Call(calls, 2 * attempt + 1)
  }

  function CallEnv(o: Outcome, now: int, payload: int): Env {
    Env(o, 0, true, now, payload)
  }

  /** How the API calls of the acknowledgement of one event go. */
  datatype AckCalls = AckCalls(getPosted: Outcome, patchPosted: Outcome, confirm: seq<Outcome>)

  function AckCallsAt(acks: seq<AckCalls>, i: nat): AckCalls {
    if i < |acks| then acks[i] else AckCalls(Fail, Fail, [])
  }

  /** How the API calls of one reconcile go: dropping a stale claim, claiming, and the reads and
      patches of the acknowledgement in turn. */
  datatype Script = Script(drop: Outcome, claim: Outcome, calls: seq<Outcome>, now: int, payload: int)

  /** How one flush goes. */
  datatype Plan = Plan(hasClient: bool, post: Outcome, acks: seq<AckCalls>)

  /** Whose steps a method takes: one reconcile of `r`, or the flusher. */
  datatype By = Reconciler(r: Ref, script: Script) | TheFlusher(plan: Plan)

  function AckOutcome(calls: seq<Outcome>, a: AckPc): Outcome {
    match a
    case Get(attempt) => ReadCall(calls, attempt)
    case Patch(attempt, _) => PatchCall(calls, attempt)
    case Clear => Ok
  }

  function ReconcileEnv(sc: Script, pc: Pc): Env {
    var o := match pc
      case DropClaim => sc.drop
      case Claim => sc.claim
      case Ack(a) => AckOutcome(sc.calls, a)
      case _ => Ok;
    CallEnv(o, sc.now, sc.payload)
  }

  function AckAtOutcome(calls: AckCalls, at: AckAt): Outcome {
    match at
    case GetPosted => calls.getPosted
    case PatchPosted(_) => calls.patchPosted
    case Confirm(a) => AckOutcome(calls.confirm, a)
    case _ => Ok
  }

  function FlushEnv(plan: Plan, f: Flusher): Env {
    match f
    case Taken(_) => Env(Ok, 0, plan.hasClient, 0, 0)
    case Posting(_) => CallEnv(plan.post, 0, 0)
    case Acking(_, n, at) => CallEnv(AckAtOutcome(AckCallsAt(plan.acks, n), at), 0, 0)
    case _ => CallEnv(Ok, 0, 0)
  }

  /** The step that comes next, with the outcome the script gives it; none at the end. */
  function Next(s: State, whose: By): Option<Step> {
    match whose
    case Reconciler(r, script) =>
      if r in s.locals then Some(Reconcile(r, ReconcileEnv(script, s.locals[r].pc))) else None
    case TheFlusher(plan) =>
      if s.flusher.Idle? then None else Some(Flush(FlushEnv(plan, s.flusher)))
  }

  /** The steps are the scripted ones, one after the other. */
  predicate Scripted(s: State, steps: seq<Step>, whose: By)
    decreases |steps|
  {
    steps == [] || (Next(s, whose) == Some(steps[0]) && Scripted(Do(s, steps[0]), steps[1..], whose))
  }

  lemma {:induction false} ScriptedSnoc(s: State, steps: seq<Step>, step: Step, whose: By)
    requires Scripted(s, steps, whose) && Next(Run(s, steps), whose) == Some(step)
    ensures Scripted(s, steps + [step], whose)
    decreases |steps|
  {
    hide Do, Next;
    if steps == [] {
      assert [step][1..] == [];
    } else {
      assert (steps + [step])[0] == steps[0] && (steps + [step])[1..] == steps[1..] + [step];
      ScriptedSnoc(Do(s, steps[0]), steps[1..], step, whose);
    }
  }

  /** A script that has come to its end leaves nothing open: start and script determine the run. */
  lemma {:induction false} ScriptedUnique(s: State, a: seq<Step>, b: seq<Step>, whose: By)
    requires Scripted(s, a, whose) && Next(Run(s, a), whose).None?
    requires Scripted(s, b, whose) && Next(Run(s, b), whose).None?
    ensures a == b
    decreases |a|
  {
    hide Do, Next;
    if a != [] && b != [] {
      ScriptedUnique(Do(s, a[0]), a[1..], b[1..], whose);
      assert a == [a[0]] + a[1..] && b == [b[0]] + b[1..];
    }
  }

  lemma NothingScripted(s: State, whose: By)
    ensures Run(s, []) == s && Scripted(s, [], whose)
  {
  }

  lemma RunSnoc(s: State, steps: seq<Step>, step: Step)
    ensures Run(s, steps + [step]) == Do(Run(s, steps), step)
  {
    RunAppend(s, steps, [step]);
    assert [step][1..] == [];
  }

  ghost predicate SameAnnotations(s: State, annotations: map<Ref, Annotations>) {
    forall r :: s.Current(r) == Look(annotations, r)
  }

  // ---------- What single steps of the system come to ----------

  predicate Stands(s: State, r: Ref, pc: Pc, key: string, app: Annotations) {
    r in s.locals && s.locals[r] == Local(pc, key, app)
  }

  function AfterPatch(annotations: map<Ref, Annotations>, r: Ref, o: Outcome, base: Annotations,
      target: Annotations): map<Ref, Annotations> {
    if o.Ok? || o.Lost? then annotations[r := MergePatch(Look(annotations, r), base, target)] else annotations
  }

  lemma PatchAgrees(s: State, annotations: map<Ref, Annotations>, r: Ref, o: Outcome, base: Annotations,
      target: Annotations)
    requires SameAnnotations(s, annotations)
    ensures SameAnnotations(Patched(s, r, o, base, target), AfterPatch(annotations, r, o, base, target))
    ensures var s' := Patched(s, r, o, base, target);
      s'.mem == s.mem && s'.line == s.line && s'.cp == s.cp && s'.locals == s.locals && s'.flusher == s.flusher
  {
    var s', a' := Patched(s, r, o, base, target), AfterPatch(annotations, r, o, base, target);
    forall q
      ensures s'.Current(q) == Look(a', q)
    {
      assert s.Current(q) == Look(annotations, q) && s.Current(r) == Look(annotations, r);
    }
  }

  /** Only the history of writes matters to the annotations. */
  lemma SameHistory(s: State, s': State, annotations: map<Ref, Annotations>)
    requires SameAnnotations(s, annotations) && s'.history == s.history
    ensures SameAnnotations(s', annotations)
  {
    forall q ensures s'.Current(q) == Look(annotations, q) {
      assert s.Current(q) == Look(annotations, q);
    }
  }

  /** Where patchManagedStorageAck was called from: a reconcile holding `app`, or the callback at
      event `n` of its batch. */
  datatype Caller = InReconcile(app: Annotations) | InFlush(batch: seq<Event>, n: nat)

  predicate AtAck(s: State, c: Caller, whose: By, r: Ref, key: string, a: AckPc) {
    match c
    case InReconcile(app) => whose.Reconciler? && whose.r == r && Stands(s, r, Ack(a), key, app)
    case InFlush(batch, n) =>
      && whose.TheFlusher? && s.flusher == Acking(batch, n, Confirm(a))
      && n < |batch| && batch[n].ref == r && AckKey(batch[n]) == Some(key)
  }

  /** The calls patchManagedStorageAck makes for this caller. */
  function CallsOf(c: Caller, whose: By): seq<Outcome> {
    match c
    case InReconcile(_) => if whose.Reconciler? then whose.script.calls else []
    case InFlush(_, n) => if whose.TheFlusher? then AckCallsAt(whose.plan.acks, n).confirm else []
  }

  /** At the acknowledgement, the next step has the outcome the caller's script gives it. */
  lemma NextAtAck(s: State, c: Caller, whose: By, r: Ref, key: string, a: AckPc) returns (env: Env)
    requires AtAck(s, c, whose, r, key, a)
    ensures Next(s, whose) == Some(StepOf(c, r, env))
    ensures env.outcome == AckOutcome(CallsOf(c, whose), a) && env.age == 0
  {
    hide AckKey;
    env := if whose.Reconciler? then ReconcileEnv(whose.script, s.locals[r].pc) else FlushEnv(whose.plan, s.flusher);
  }

  function StepOf(c: Caller, r: Ref, env: Env): Step {
    if c.InReconcile? then Reconcile(r, env) else Flush(env)
  }

  function Move(s: State, c: Caller, r: Ref, key: string, a: AckPc): State {
    match c
    case InReconcile(app) => s.Set(r, Local(Ack(a), key, app))
    case InFlush(batch, n) => s.At(Acking(batch, n, Confirm(a)))
  }

  function Leave(s: State, c: Caller, r: Ref): State {
    match c
    case InReconcile(app) => s.Finish(r)
    case InFlush(batch, n) => NextEvent(s, batch, n)
  }

  lemma AtGet(s: State, c: Caller, whose: By, r: Ref, key: string, attempt: nat, env: Env)
    requires AtAck(s, c, whose, r, key, Get(attempt)) && env.age == 0
    ensures Do(s, StepOf(c, r, env)) ==
      if !env.outcome.Ok? then Leave(s, c, r)
      else Move(s, c, r, key, if s.Current(r).reported == key then Clear else AckPc.Patch(attempt, s.Current(r)))
  {
    hide AckKey;
  }

  lemma AtPatch(s: State, c: Caller, whose: By, r: Ref, key: string, attempt: nat, base: Annotations, env: Env)
    requires AtAck(s, c, whose, r, key, AckPc.Patch(attempt, base))
    ensures var s' := Patched(s, r, env.outcome, base, Annotations(key, "", ""));
      Do(s, StepOf(c, r, env)) ==
        if env.outcome.Ok? then Move(s', c, r, key, Clear)
        else if env.outcome.Conflict? && attempt + 1 < ATTEMPTS then Move(s', c, r, key, Get(attempt + 1))
        else Leave(s', c, r)
  {
    hide AckKey;
  }

  lemma AtClear(s: State, c: Caller, whose: By, r: Ref, key: string, env: Env)
    requires AtAck(s, c, whose, r, key, Clear)
    ensures Do(s, StepOf(c, r, env)) == Leave(s.WithMem(s.mem.Wipe(r)), c, r)
  {
    hide AckKey;
  }

  /** Moving keeps the caller where it is. */
  lemma StaysAtAck(s: State, s': State, c: Caller, whose: By, r: Ref, key: string, a: AckPc, a': AckPc)
    requires AtAck(s, c, whose, r, key, a)
    ensures AtAck(Move(s', c, r, key, a'), c, whose, r, key, a')
  {
    hide AckKey;
  }

  /** Attempt `i` of the acknowledgement is the one that goes through: the attempts before it end in a
      conflict, its read succeeds, and its patch does or is not needed. */
  predicate GoesThroughAt(calls: seq<Outcome>, i: nat, already: bool) {
    && (forall j :: 0 <= j < i ==> ReadCall(calls, j).Ok? && PatchCall(calls, j).Conflict?)
    && ReadCall(calls, i).Ok? && (already || PatchCall(calls, i).Ok?)
  }

  predicate GoesThrough(calls: seq<Outcome>, already: bool) {
    exists i :: 0 <= i < 3 && GoesThroughAt(calls, i, already)
  }

  class ApplicationInstanceReconciler {
    var inFlight: map<Ref, string>
    var posting: map<Ref, string>
    var ackPending: map<Ref, string>
    var annotations: map<Ref, Annotations>
    const batcher: B.EventBatcher
    const server: CP.EventLog
    ghost var sys: State

    /** The fields are what the system state `s` says they are. */
    ghost predicate Agrees(s: State)
      reads this, batcher, server
    {
      && s.mem == Memory(inFlight, posting, ackPending)
      && s.line.buf == batcher.View()
      && s.cp == server.View()
      && SameAnnotations(s, annotations)
    }

    ghost predicate Valid()
      reads this, batcher, server
    {
      Agrees(sys)
    }

    constructor ()
      ensures Valid() && fresh(batcher) && fresh(server)
      ensures sys == Start(B.DEFAULT_MAX_BATCH, B.DEFAULT_MAX_BUFFER)
    {
      inFlight, posting, ackPending, annotations := map[], map[], map[], map[];
      batcher := new B.EventBatcher();
      server := new CP.EventLog();
      sys := Start(B.DEFAULT_MAX_BATCH, B.DEFAULT_MAX_BUFFER);
    }

    /** The ghost system takes a step. */
    ghost method Tick(start: State, steps: seq<Step>, step: Step) returns (steps': seq<Step>)
      requires sys == Run(start, steps)
      modifies this`sys
      ensures sys == Do(old(sys), step) == Run(start, steps') && steps' == steps + [step]
    {
      RunSnoc(start, steps, step);
      steps' := steps + [step];
      sys := Do(sys, step);
    }

    // ---------- API patches ----------

    /** A merge patch reaches the API server unless it conflicts or fails. */
    method Patch(r: Ref, base: Annotations, target: Annotations, o: Outcome)
      modifies this`annotations
      ensures annotations == AfterPatch(old(annotations), r, o, base, target)
    {
      if o.Ok? || o.Lost? {
        annotations := annotations[r := MergePatch(Look(annotations, r), base, target)];
      }
    }

    method ClearStorageDeliveryState(r: Ref)
      modifies this`inFlight, this`posting, this`ackPending
      ensures Memory(inFlight, posting, ackPending) == Memory(old(inFlight), old(posting), old(ackPending)).Wipe(r)
    {
      inFlight := inFlight - {r};
      posting := posting - {r};
      ackPending := ackPending - {r};
    }

    // ---------- The reconcile ----------

    ghost predicate Tracked(start: State, steps: seq<Step>, whose: By)
      reads this, batcher, server
    {
      Valid() && sys == Run(start, steps) && Scripted(start, steps, whose)
    }

    /** The ghost system takes a step that ends in what the fields already are. */
    ghost method Follow(start: State, steps: seq<Step>, step: Step, whose: By) returns (steps': seq<Step>)
      requires sys == Run(start, steps) && Scripted(start, steps, whose) && Next(sys, whose) == Some(step)
      requires Agrees(Do(sys, step))
      modifies this`sys
      ensures sys == Do(old(sys), step) && Tracked(start, steps', whose)
    {
      hide Do, Next;
      ScriptedSnoc(start, steps, step, whose);
      steps' := Tick(start, steps, step);
    }

    /** One attempt of patchManagedStorageAck: read, patch, clear. */
    method AckAttempt(r: Ref, key: string, attempt: nat, get: Outcome, patch: Outcome,
                      ghost c: Caller, ghost whose: By, ghost start: State, ghost steps: seq<Step>)
      returns (next: Option<bool>, ghost steps': seq<Step>)
      requires Tracked(start, steps, whose) && AtAck(sys, c, whose, r, key, Get(attempt)) && attempt < ATTEMPTS
      requires get == ReadCall(CallsOf(c, whose), attempt) && patch == PatchCall(CallsOf(c, whose), attempt)
      modifies this
      ensures Tracked(start, steps', whose) && sys.line == old(sys.line)
      ensures next.None? && attempt + 1 < ATTEMPTS ==> AtAck(sys, c, whose, r, key, Get(attempt + 1))
      ensures next.Some? || attempt + 1 == ATTEMPTS ==> Left(c, r)
      ensures next ==
        if !get.Ok? then Some(false)
        else if old(Look(annotations, r)).reported == key || patch.Ok? then Some(true)
        else if patch.Conflict? then None else Some(false)
      ensures next == Some(true) ==>
        Look(annotations, r).reported == key && r !in inFlight && r !in posting && r !in ackPending
      ensures next == Some(true) && old(Look(annotations, r)).reported != key ==>
        Look(annotations, r) == Annotations(key, "", "")
      ensures next != Some(true) ==> unchanged(`inFlight) && unchanged(`posting) && unchanged(`ackPending)
      ensures next.None? || !get.Ok? ==> annotations == old(annotations)
    {
      hide Do, Run, MergePatch, Patched, SameAnnotations, AckKey, Next, Scripted, CallsOf, Call;
      ghost var s := sys;
      ghost var env := NextAtAck(s, c, whose, r, key, Get(attempt));
      AtGet(s, c, whose, r, key, attempt, env);
      ReadAgrees(r);
      var base := Look(annotations, r);
      StaysAtAck(s, s, c, whose, r, key, Get(attempt), if base.reported == key then Clear
        else AckPc.Patch(attempt, base));
      SameHistory(s, Do(s, StepOf(c, r, env)), annotations);
      steps' := Follow(start, steps, StepOf(c, r, env), whose);
      if !get.Ok? {
        return Some(false), steps';
      }
      if base.reported != key {
        next, steps' := AckPatchOnce(r, key, attempt, base, patch, c, whose, start, steps');
        if next != Some(true) {
          return;
        }
      }
      steps' := AckClear(r, key, c, whose, start, steps');
      next := Some(true);
    }

    /** The caller is past patchManagedStorageAck. */
    ghost predicate Left(c: Caller, r: Ref)
      reads this
    {
      match c
      case InReconcile(_) => r !in sys.locals
      case InFlush(batch, n) => sys.flusher == Acking(batch, n + 1, AckAt.MarkPending)
    }

    lemma ReadAgrees(r: Ref)
      requires Valid()
      ensures sys.Current(r) == Look(annotations, r)
    {
    }

    method AckPatchOnce(r: Ref, key: string, attempt: nat, base: Annotations, patch: Outcome,
                        ghost c: Caller, ghost whose: By, ghost start: State, ghost steps: seq<Step>)
      returns (next: Option<bool>, ghost steps': seq<Step>)
      requires Tracked(start, steps, whose) && AtAck(sys, c, whose, r, key, AckPc.Patch(attempt, base))
        && base.reported != key
      requires patch == PatchCall(CallsOf(c, whose), attempt)
      modifies this
      ensures Tracked(start, steps', whose) && sys.line == old(sys.line)
      ensures next == (if patch.Ok? then Some(true) else if patch.Conflict? then None else Some(false))
      ensures patch.Ok? ==> AtAck(sys, c, whose, r, key, Clear) && Look(annotations, r).reported == key
      ensures unchanged(`inFlight) && unchanged(`posting) && unchanged(`ackPending)
      ensures patch.Conflict? ==> annotations == old(annotations)
      ensures patch.Ok? && old(Look(annotations, r)) == base ==> Look(annotations, r) == Annotations(key, "", "")
      ensures patch.Conflict? && attempt + 1 < ATTEMPTS ==> AtAck(sys, c, whose, r, key, Get(attempt + 1))
      ensures !patch.Ok? && !(patch.Conflict? && attempt + 1 < ATTEMPTS) ==> Left(c, r)
    {
      hide Do, Run, Patched, SameAnnotations, AckKey, Next, Scripted, CallsOf, Call;
      ghost var s := sys;
      ghost var env := NextAtAck(s, c, whose, r, key, AckPc.Patch(attempt, base));
      ghost var p := Patched(s, r, patch, base, Annotations(key, "", ""));
      AtPatch(s, c, whose, r, key, attempt, base, env);
      PatchAgrees(s, annotations, r, patch, base, Annotations(key, "", ""));
      Patch(r, base, Annotations(key, "", ""), patch);
      StaysAtAck(s, p, c, whose, r, key, AckPc.Patch(attempt, base), if patch.Ok? then Clear else Get(attempt + 1));
      SameHistory(p, Do(s, StepOf(c, r, env)), annotations);
      steps' := Follow(start, steps, StepOf(c, r, env), whose);
      next := if patch.Ok? then Some(true) else if patch.Conflict? then None else Some(false);
    }

    method AckClear(r: Ref, key: string, ghost c: Caller, ghost whose: By, ghost start: State, ghost steps: seq<Step>)
      returns (ghost steps': seq<Step>)
      requires Tracked(start, steps, whose) && AtAck(sys, c, whose, r, key, Clear)
      modifies this
      ensures Tracked(start, steps', whose) && Left(c, r) && annotations == old(annotations)
        && sys.line == old(sys.line)
      ensures r !in inFlight && r !in posting && r !in ackPending
    {
      hide Do, Run, SameAnnotations, AckKey, Next, Scripted, CallsOf;
      ghost var s := sys;
      ghost var env := NextAtAck(s, c, whose, r, key, Clear);
      AtClear(s, c, whose, r, key, env);
      ClearStorageDeliveryState(r);
      SameHistory(s, Do(s, StepOf(c, r, env)), annotations);
      steps' := Follow(start, steps, StepOf(c, r, env), whose);
    }

    /** patchManagedStorageAck: up to three attempts, one read and one patch each, going on only after
        a conflict. It succeeds exactly when one of the three goes through; then the key is reported and
        nothing of the delivery is remembered. Otherwise what is remembered stays. */
    method PatchManagedStorageAck(r: Ref, key: string, calls: seq<Outcome>,
                                  ghost c: Caller, ghost whose: By, ghost start: State, ghost steps: seq<Step>)
      returns (ok: bool, ghost steps': seq<Step>)
      requires Tracked(start, steps, whose) && AtAck(sys, c, whose, r, key, Get(0)) && calls == CallsOf(c, whose)
      modifies this
      ensures Tracked(start, steps', whose) && Left(c, r) && sys.line == old(sys.line)
      ensures ok <==> GoesThrough(calls, old(Look(annotations, r)).reported == key)
      ensures ok ==> Look(annotations, r).reported == key && r !in inFlight && r !in posting && r !in ackPending
      ensures ok && old(Look(annotations, r)).reported != key ==> Look(annotations, r) == Annotations(key, "", "")
      ensures !ok ==> unchanged(`inFlight) && unchanged(`posting) && unchanged(`ackPending)
      ensures !ReadCall(calls, 0).Ok? ==> annotations == old(annotations)
    {
      hide Tracked, Run, Do, AtAck, CallsOf, Call;
      steps' := steps;
      for attempt := 0 to ATTEMPTS
        invariant Tracked(start, steps', whose) && sys.line == old(sys.line)
        invariant attempt < ATTEMPTS ==> AtAck(sys, c, whose, r, key, Get(attempt))
        invariant attempt == ATTEMPTS ==> Left(c, r)
        invariant unchanged(`inFlight) && unchanged(`posting) && unchanged(`ackPending) && unchanged(`annotations)
        invariant attempt > 0 ==> Look(annotations, r).reported != key
        invariant forall j :: 0 <= j < attempt ==> ReadCall(calls, j).Ok? && PatchCall(calls, j).Conflict?
      {
        var next;
        next, steps' := AckAttempt(r, key, attempt, ReadCall(calls, attempt), PatchCall(calls, attempt), c, whose,
          start, steps');
        if next.Some? {
          assert next.value ==> GoesThroughAt(calls, attempt, old(Look(annotations, r)).reported == key);
          return next.value, steps';
        }
      }
      ok := false;
    }

    /** A section that leaves the fields alone or changes only the in-memory maps. */
    ghost method Section(start: State, steps: seq<Step>, r: Ref, script: Script, s': State) returns (steps': seq<Step>)
      requires sys == Run(start, steps) && Scripted(start, steps, Reconciler(r, script)) && r in sys.locals
      requires s' == Do(sys, Reconcile(r, ReconcileEnv(script, sys.locals[r].pc)))
      requires s'.history == sys.history && SameAnnotations(sys, annotations)
      requires s'.mem == Memory(inFlight, posting, ackPending) && s'.line.buf == batcher.View()
        && s'.cp == server.View()
      modifies this`sys
      ensures sys == s' && Tracked(start, steps', Reconciler(r, script))
    {
      hide Do, Run, SameAnnotations, Scripted;
      SameHistory(sys, s', annotations);
      steps' := Follow(start, steps, Reconcile(r, ReconcileEnv(script, sys.locals[r].pc)), Reconciler(r, script));
    }

    method WipeAndFinish(r: Ref, key: string, app: Annotations, script: Script, ghost start: State,
        ghost steps: seq<Step>)
      returns (ghost steps': seq<Step>)
      requires Tracked(start, steps, Reconciler(r, script)) && Stands(sys, r, WipeState, key, app)
      modifies this
      ensures Tracked(start, steps', Reconciler(r, script)) && r !in sys.locals
      ensures r !in inFlight && r !in posting && r !in ackPending && unchanged(`annotations)
    {
      hide Run, SameAnnotations, Scripted;
      ClearStorageDeliveryState(r);
      steps' := Section(start, steps, r, script, sys.WithMem(sys.mem.Wipe(r)).Finish(r));
    }

    /** Patch the claim annotation; on success the copy in hand is what the server answered. */
    method PatchClaim(r: Ref, key: string, app: Annotations, claim: string, script: Script, ghost pc: Pc,
        ghost after: Pc, ghost start: State, ghost steps: seq<Step>)
      returns (app': Annotations, ghost steps': seq<Step>)
      requires Tracked(start, steps, Reconciler(r, script)) && Stands(sys, r, pc, key, app)
      requires (pc.DropClaim? && claim == "" && after.ReadPending?)
        || (pc.Claim? && claim == key && key != "" && after.Report?)
      modifies this
      ensures Tracked(start, steps', Reconciler(r, script))
      ensures if (if claim == "" then script.drop else script.claim).Ok? then Stands(sys, r, after, key, app')
        else r !in sys.locals
      ensures unchanged(`inFlight) && unchanged(`posting) && unchanged(`ackPending)
      ensures old(Look(annotations, r)) == app && (if claim == "" then script.drop else script.claim).Ok? ==>
        Look(annotations, r) == app' == app.(claim := claim)
    {
      hide Run, Patched, SameAnnotations, Scripted;
      var o := if claim == "" then script.drop else script.claim;
      ghost var s := sys;
      ghost var p := Patched(s, r, o, app, app.(claim := claim));
      PatchAgrees(s, annotations, r, o, app, app.(claim := claim));
      Patch(r, app, app.(claim := claim), o);
      app' := Look(annotations, r);
      CurrentIs(p, annotations, r);
      ghost var s' := if o.Ok? then p.Set(r, Local(after, key, p.Current(r))) else p.Finish(r);
      ghost var step := Reconcile(r, ReconcileEnv(script, pc));
      assert s' == Do(s, step);
      SameHistory(p, s', annotations);
      steps' := Follow(start, steps, step, Reconciler(r, script));
    }

    lemma CurrentIs(s: State, annotations: map<Ref, Annotations>, r: Ref)
      requires SameAnnotations(s, annotations)
      ensures s.Current(r) == Look(annotations, r)
    {
    }

    /** The pending-ack check. A pending ack of this key ends the reconcile: retried with success, the key
        is reported and nothing is remembered; without, all is remembered as before. A pending ack of
        another key is forgotten, and the reconcile goes on. */
    method CheckPendingAck(r: Ref, key: string, app: Annotations, script: Script, ghost start: State,
        ghost steps: seq<Step>)
      returns (done: bool, ghost steps': seq<Step>)
      requires Tracked(start, steps, Reconciler(r, script)) && Stands(sys, r, ReadPending, key, app)
      modifies this
      ensures Tracked(start, steps', Reconciler(r, script))
      ensures if done then r !in sys.locals else Stands(sys, r, ReadInFlight, key, app)
      ensures done <==> old(Holds(ackPending, r, key))
      ensures done && GoesThrough(script.calls, old(Look(annotations, r)).reported == key) ==>
        Look(annotations, r).reported == key && r !in inFlight && r !in posting && r !in ackPending
      ensures done && !GoesThrough(script.calls, old(Look(annotations, r)).reported == key) ==>
        unchanged(`inFlight) && unchanged(`posting) && unchanged(`ackPending)
      ensures !done ==>
        ackPending == old(ackPending) - {r} && unchanged(`inFlight) && unchanged(`posting) && unchanged(`annotations)
    {
      hide Run, SameAnnotations, Scripted, GoesThrough;
      if r !in ackPending {
        steps' := Section(start, steps, r, script, sys.Set(r, Local(ReadInFlight, key, app)));
        return false, steps';
      }
      if ackPending[r] != key {
        steps' := Section(start, steps, r, script, sys.Set(r, Local(DropPending, key, app)));
        ackPending := ackPending - {r};
        steps' := Section(start, steps', r, script,
          sys.WithMem(sys.mem.ClearAckPending(r)).Set(r, Local(ReadInFlight, key, app)));
        return false, steps';
      }
      steps' := Section(start, steps, r, script, sys.Set(r, Local(Ack(Get(0)), key, app)));
      var ok;
      ok, steps' := PatchManagedStorageAck(r, key, script.calls, InReconcile(app), Reconciler(r, script), start,
        steps');
      done := true;
    }

    /** The in-flight check: an event of this key in the buffer or in a batch being posted ends the
        reconcile; a mark that stands for neither is forgotten. */
    method CheckInFlight(r: Ref, key: string, app: Annotations, script: Script, ghost start: State,
        ghost steps: seq<Step>)
      returns (done: bool, ghost steps': seq<Step>)
      requires Tracked(start, steps, Reconciler(r, script)) && Stands(sys, r, ReadInFlight, key, app)
      modifies this
      ensures Tracked(start, steps', Reconciler(r, script))
      ensures if done then r !in sys.locals else Stands(sys, r, Pc.Buffered, key, app)
      ensures done <==>
        old(Holds(inFlight, r, key))
        && (old(batcher.View()).HasKey(StorageKey(r, key)) || old(Holds(posting, r, key)))
      ensures unchanged(`posting) && unchanged(`ackPending) && unchanged(`annotations)
      ensures inFlight == if done then old(inFlight) else old(inFlight) - {r}
    {
      hide Run, SameAnnotations, Scripted, ManagedStorageEventKey;
      if r !in inFlight {
        steps' := Section(start, steps, r, script, sys.Set(r, Local(Buffered, key, app)));
        return false, steps';
      }
      if inFlight[r] != key {
        steps' := Section(start, steps, r, script, sys.Set(r, Local(DropInFlight, key, app)));
      } else {
        steps' := Section(start, steps, r, script, sys.Set(r, Local(FlightBuffered, key, app)));
        done, steps' := CheckFlight(r, key, app, script, start, steps');
        if done {
          return;
        }
      }
      inFlight := inFlight - {r};
      steps' := Section(start, steps', r, script,
        sys.WithMem(sys.mem.ClearInFlight(r)).Set(r, Local(Buffered, key, app)));
      done := false;
    }

    method CheckFlight(r: Ref, key: string, app: Annotations, script: Script, ghost start: State,
        ghost steps: seq<Step>)
      returns (done: bool, ghost steps': seq<Step>)
      requires Tracked(start, steps, Reconciler(r, script)) && Stands(sys, r, FlightBuffered, key, app)
      modifies this
      ensures Tracked(start, steps', Reconciler(r, script))
      ensures if done then r !in sys.locals else Stands(sys, r, DropInFlight, key, app)
      ensures done <==> old(batcher.View()).HasKey(StorageKey(r, key)) || old(Holds(posting, r, key))
      ensures unchanged(`inFlight) && unchanged(`posting) && unchanged(`ackPending) && unchanged(`annotations)
    {
      hide Run, SameAnnotations, Scripted, ManagedStorageEventKey;
      var buffered := batcher.HasEventKey(StorageKey(r, key));
      if buffered {
        steps' := Section(start, steps, r, script, sys.Finish(r));
        return true, steps';
      }
      steps' := Section(start, steps, r, script, sys.Set(r, Local(FlightPosting, key, app)));
      if r in posting && posting[r] == key {
        steps' := Section(start, steps', r, script, sys.Finish(r));
        return true, steps';
      }
      steps' := Section(start, steps', r, script, sys.Set(r, Local(DropInFlight, key, app)));
      done := false;
    }

    /** Past the last buffer check: acknowledge a recorded post, or claim, enqueue and mark. Nothing is sent
        while a copy is buffered, and nothing without a claim. */
    method SendIfDue(r: Ref, key: string, app: Annotations, script: Script,
                     ghost start: State, ghost steps: seq<Step>)
      returns (ghost steps': seq<Step>)
      requires Tracked(start, steps, Reconciler(r, script)) && Stands(sys, r, Pc.Buffered, key, app) && key != ""
      modifies this, batcher
      ensures Tracked(start, steps', Reconciler(r, script)) && r !in sys.locals
      ensures var copy := old(batcher.View()).HasKey(StorageKey(r, key));
        var due := !copy && app.posted != key && app.reported != key && (app.claim == key || script.claim.Ok?);
        && batcher.View() == (if due
             then old(batcher.View()).Enqueue(StorageEvent(r, key, script.now, script.payload), script.now)
             else old(batcher.View()))
        && (due ==> Holds(inFlight, r, key))
        && (!due && (copy || app.posted != key) ==>
              unchanged(`inFlight) && unchanged(`posting) && unchanged(`ackPending))
        && (!copy && app.posted == key ==>
              if GoesThrough(script.calls, old(Look(annotations, r)).reported == key)
              then Look(annotations, r).reported == key && r !in inFlight && r !in posting && r !in ackPending
              else Holds(ackPending, r, key))
    {
      hide Run, SameAnnotations, Scripted, ManagedStorageEventKey, Runs.Do, GoesThrough;
      var buffered := batcher.HasEventKey(StorageKey(r, key));
      if buffered {
        steps' := Section(start, steps, r, script, sys.Finish(r));
        return;
      }
      if app.posted == key {
        steps' := RetryAck(r, key, app, script, start, steps);
        return;
      }
      if app.reported == key {
        steps' := Section(start, steps, r, script, sys.Finish(r));
        return;
      }
      var app' := app;
      if app.claim == key {
        steps' := Section(start, steps, r, script, sys.Set(r, Local(Report, key, app)));
      } else {
        steps' := Section(start, steps, r, script, sys.Set(r, Local(Claim, key, app)));
        app', steps' := PatchClaim(r, key, app, key, script, Claim, Report, start, steps');
        if !script.claim.Ok? {
          return;
        }
      }
      steps' := ReportReady(r, key, app', script, start, steps');
    }

    method RetryAck(r: Ref, key: string, app: Annotations, script: Script, ghost start: State, ghost steps: seq<Step>)
      returns (ghost steps': seq<Step>)
      requires Tracked(start, steps, Reconciler(r, script)) && Stands(sys, r, Pc.Buffered, key, app)
      requires app.posted == key && !batcher.View().HasKey(StorageKey(r, key))
      modifies this
      ensures Tracked(start, steps', Reconciler(r, script)) && r !in sys.locals
      ensures if GoesThrough(script.calls, old(Look(annotations, r)).reported == key)
        then Look(annotations, r).reported == key && r !in inFlight && r !in posting && r !in ackPending
        else Holds(ackPending, r, key)
    {
      hide Run, SameAnnotations, Scripted, ManagedStorageEventKey, Runs.Do, GoesThrough;
      steps' := Section(start, steps, r, script, sys.Set(r, Local(Remark, key, app)));
      ackPending := ackPending[r := key];
      steps' := Section(start, steps', r, script,
        sys.WithMem(sys.mem.MarkAckPending(r, key)).Set(r, Local(Ack(Get(0)), key, app)));
      var ok;
      ok, steps' := PatchManagedStorageAck(r, key, script.calls, InReconcile(app), Reconciler(r, script), start,
        steps');
    }

    /** ReportManagedStorageReady, then the in-flight mark. */
    method ReportReady(r: Ref, key: string, app: Annotations, script: Script, ghost start: State,
        ghost steps: seq<Step>)
      returns (ghost steps': seq<Step>)
      requires Tracked(start, steps, Reconciler(r, script)) && Stands(sys, r, Report, key, app)
      modifies this, batcher
      ensures Tracked(start, steps', Reconciler(r, script)) && r !in sys.locals
      ensures r in inFlight && inFlight[r] == key
      ensures batcher.View() ==
        old(batcher.View()).Enqueue(StorageEvent(r, key, script.now, script.payload), script.now)
    {
      hide Run, SameAnnotations, Scripted, ManagedStorageEventKey, B.Buffer.Enqueue, B.Buffer.EnqueueDrop, B.Stamp;
      var e := StorageEvent(r, key, script.now, script.payload);
      batcher.Enqueue(e, script.now);
      steps' := Section(start, steps, r, script,
        sys.WithLine(Runs.Enqueue(e, script.now)).Set(r, Local(MarkFlight, key, app)));
      inFlight := inFlight[r := key];
      steps' := Section(start, steps', r, script, sys.WithMem(sys.mem.MarkInFlight(r, key)).Finish(r));
    }

    /** reconcileSeaweedManagedStorage for an instance that is Ready with credentials of report key
        `key`; the script says how its API calls go. From the read of the instance on it takes exactly
        the scripted steps of the system, to the end of the reconcile. */
    method ReconcileManagedStorage(r: Ref, key: string, script: Script) returns (ghost steps: seq<Step>)
      requires Valid() && r !in sys.locals && Plain(r, key)
      modifies this, batcher
      ensures Tracked(Do(old(sys), Begin(r, key, 0)), steps, Reconciler(r, script)) && r !in sys.locals
    {
      var app := Look(annotations, r);
      BeginReconcile(r, key);
      ghost var start := sys;
      steps := [];
      if app.reported == key {
        steps := WipeAndFinish(r, key, app, script, start, steps);
        return;
      }
      if app.claim != "" && app.claim != key {
        app, steps := PatchClaim(r, key, app, "", script, DropClaim, ReadPending, start, steps);
        if !script.drop.Ok? {
          return;
        }
      }
      var done;
      done, steps := CheckPendingAck(r, key, app, script, start, steps);
      if done {
        return;
      }
      done, steps := CheckInFlight(r, key, app, script, start, steps);
      if done {
        return;
      }
      steps := SendIfDue(r, key, app, script, start, steps);
    }

    ghost method BeginReconcile(r: Ref, key: string)
      requires Valid() && r !in sys.locals && Plain(r, key)
      modifies this`sys
      ensures sys == Do(old(sys), Begin(r, key, 0)) && Valid()
      ensures Stands(sys, r, AfterRead(key, Look(annotations, r)), key, Look(annotations, r))
    {
      hide SameAnnotations, Plain;
      ReadAgrees(r);
      ghost var start := sys;
      SameHistory(start, Do(start, Begin(r, key, 0)), annotations);
      sys := Do(sys, Begin(r, key, 0));
    }

    // ---------- The flusher and its callbacks ----------

    /** A section of the flusher that changes at most the in-memory maps, the buffer or the server. */
    ghost method FlushSection(start: State, steps: seq<Step>, plan: Plan, s': State) returns (steps': seq<Step>)
      requires sys == Run(start, steps) && Scripted(start, steps, TheFlusher(plan)) && !sys.flusher.Idle?
      requires s' == Do(sys, Step.Flush(FlushEnv(plan, sys.flusher)))
      requires s'.history == sys.history && SameAnnotations(sys, annotations)
      requires s'.mem == Memory(inFlight, posting, ackPending) && s'.line.buf == batcher.View()
        && s'.cp == server.View()
      modifies this`sys
      ensures sys == s' && Tracked(start, steps', TheFlusher(plan))
    {
      hide Do, Run, SameAnnotations, Scripted;
      SameHistory(sys, s', annotations);
      steps' := Follow(start, steps, Step.Flush(FlushEnv(plan, sys.flusher)), TheFlusher(plan));
    }

    /** PrepareManagedStoragePost: every managed-storage event of the batch is marked as being posted. */
    method PrepareManagedStoragePost(events: seq<Event>, ghost plan: Plan, ghost start: State, ghost steps: seq<Step>)
      returns (ghost steps': seq<Step>)
      requires Tracked(start, steps, TheFlusher(plan)) && sys.flusher == Preparing(events, 0)
      modifies this`posting, this`sys
      ensures Tracked(start, steps', TheFlusher(plan)) && sys.flusher == Preparing(events, |events|)
        && sys.line == old(sys.line)
      ensures forall i :: 0 <= i < |events| && ManagedStorageReportKeyFromEventKey(events[i].key).Some? ==>
        events[i].ref in posting
    {
      hide Run, SameAnnotations, Scripted, ManagedStorageReportKeyFromEventKey, Runs.Do;
      steps' := steps;
      for n := 0 to |events|
        invariant Tracked(start, steps', TheFlusher(plan)) && sys.flusher == Preparing(events, n)
          && sys.line == old(sys.line)
        invariant forall i :: 0 <= i < n && ManagedStorageReportKeyFromEventKey(events[i].key).Some? ==>
          events[i].ref in posting
      {
        var k := ManagedStorageReportKeyFromEventKey(events[n].key);
        if k.Some? {
          posting := posting[events[n].ref := k.value];
        }
        steps' := FlushSection(start, steps', plan,
          sys.WithMem(PrepareOne(sys.mem, events[n])).At(Preparing(events, n + 1)));
      }
    }

    /** AbortManagedStoragePost: no mark of the batch is left. */
    method AbortManagedStoragePost(events: seq<Event>, ghost plan: Plan, ghost start: State, ghost steps: seq<Step>)
      returns (ghost steps': seq<Step>)
      requires Tracked(start, steps, TheFlusher(plan)) && sys.flusher == Aborting(events, 0)
      modifies this`posting, this`sys
      ensures Tracked(start, steps', TheFlusher(plan)) && sys.flusher == Aborting(events, |events|)
        && sys.line == old(sys.line)
      ensures forall i, r, k :: 0 <= i < |events| && Carries(events[i], r, k) ==> !Holds(posting, r, k)
    {
      hide Run, SameAnnotations, Scripted, ManagedStorageReportKeyFromEventKey, Runs.Do;
      steps' := steps;
      for n := 0 to |events|
        invariant Tracked(start, steps', TheFlusher(plan)) && sys.flusher == Aborting(events, n)
          && sys.line == old(sys.line)
        invariant forall i, r, k :: 0 <= i < n && Carries(events[i], r, k) ==> !Holds(posting, r, k)
      {
        ghost var before := posting;
        var k := ManagedStorageReportKeyFromEventKey(events[n].key);
        if k.Some? && events[n].ref in posting && posting[events[n].ref] == k.value {
          posting := posting - {events[n].ref};
        }
        forall i, r, k | 0 <= i < n + 1 && Carries(events[i], r, k)
          ensures !Holds(posting, r, k)
        {
          assert i < n ==> !Holds(before, r, k);
        }
        steps' := FlushSection(start, steps', plan,
          sys.WithMem(AbortOne(sys.mem, events[n])).At(Aborting(events, n + 1)));
      }
    }

    /** The acknowledgement of one event: in-memory marks first, then the posted and the reported
        annotation. When both go through, the key is reported and nothing is remembered; otherwise the
        acknowledgement stays pending, so that a reconcile takes it up. An event of another kind changes
        nothing. */
    method AckEvent(events: seq<Event>, n: nat, plan: Plan, ghost start: State, ghost steps: seq<Step>)
      returns (ghost steps': seq<Step>)
      requires n < |events| && Tracked(start, steps, TheFlusher(plan))
        && sys.flusher == Acking(events, n, AckAt.MarkPending)
      modifies this
      ensures Tracked(start, steps', TheFlusher(plan)) && sys.flusher == Acking(events, n + 1, AckAt.MarkPending)
        && sys.line == old(sys.line)
      ensures AckKey(events[n]).None? ==>
        unchanged(`inFlight) && unchanged(`posting) && unchanged(`ackPending) && unchanged(`annotations)
      ensures AckKey(events[n]).Some? ==>
        var r, key, calls := events[n].ref, AckKey(events[n]).value, AckCallsAt(plan.acks, n);
        var was := old(Look(annotations, events[n].ref));
        var recorded := calls.getPosted.Ok? && (was.posted == key || calls.patchPosted.Ok?);
        && (recorded && GoesThrough(calls.confirm, was.reported == key) ==>
              Look(annotations, r).reported == key && r !in inFlight && r !in posting && r !in ackPending)
        && (!(recorded && GoesThrough(calls.confirm, was.reported == key)) ==>
              Holds(ackPending, r, key) && r !in inFlight && !Holds(posting, r, key))
        && (!calls.getPosted.Ok? ==> annotations == old(annotations))
        && (recorded && !ReadCall(calls.confirm, 0).Ok? ==> Look(annotations, r) == was.(posted := key))
    {
      hide Run, SameAnnotations, Scripted, AckKey, Runs.Do, Patched, GoesThrough;
      var e, calls := events[n], AckCallsAt(plan.acks, n);
      if AckKey(e).None? {
        steps' := FlushSection(start, steps, plan, NextEvent(sys, events, n));
        return;
      }
      var r, key := e.ref, AckKey(e).value;
      steps' := AckMarks(events, n, r, key, plan, start, steps);
      var base := Look(annotations, r);
      ReadAgrees(r);
      if !calls.getPosted.Ok? {
        steps' := FlushSection(start, steps', plan, NextEvent(sys, events, n));
        return;
      }
      if base.posted == key {
        steps' := FlushSection(start, steps', plan, sys.At(Acking(events, n, Confirm(Get(0)))));
      } else {
        steps' := FlushSection(start, steps', plan, sys.At(Acking(events, n, PatchPosted(base))));
        steps' := PatchManagedStoragePosted(events, n, r, key, base, plan, start, steps');
        if !calls.patchPosted.Ok? {
          return;
        }
      }
      var ok;
      ok, steps' := PatchManagedStorageAck(r, key, calls.confirm, InFlush(events, n), TheFlusher(plan), start, steps');
    }

    /** markStorageAckPending, clearStorageInFlight, clearStoragePosting: three critical sections. */
    method AckMarks(events: seq<Event>, n: nat, r: Ref, key: string, ghost plan: Plan, ghost start: State,
        ghost steps: seq<Step>)
      returns (ghost steps': seq<Step>)
      requires n < |events| && events[n].ref == r && AckKey(events[n]) == Some(key)
      requires Tracked(start, steps, TheFlusher(plan)) && sys.flusher == Acking(events, n, AckAt.MarkPending)
      modifies this
      ensures Tracked(start, steps', TheFlusher(plan)) && sys.flusher == Acking(events, n, GetPosted)
        && sys.line == old(sys.line)
      ensures annotations == old(annotations)
      ensures r in ackPending && ackPending[r] == key && r !in inFlight && !Holds(posting, r, key)
    {
      hide Run, SameAnnotations, Scripted, AckKey, Runs.Do, Patched;
      ackPending := ackPending[r := key];
      steps' := FlushSection(start, steps, plan,
        sys.WithMem(sys.mem.MarkAckPending(r, key)).At(Acking(events, n, DropFlight)));
      inFlight := inFlight - {r};
      steps' := FlushSection(start, steps', plan,
        sys.WithMem(sys.mem.ClearInFlight(r)).At(Acking(events, n, AckAt.DropPosting)));
      if r in posting && posting[r] == key {
        posting := posting - {r};
      }
      steps' := FlushSection(start, steps', plan,
        sys.WithMem(sys.mem.ClearPosting(r, key)).At(Acking(events, n, GetPosted)));
    }

    method PatchManagedStoragePosted(events: seq<Event>, n: nat, r: Ref, key: string, base: Annotations, plan: Plan,
        ghost start: State, ghost steps: seq<Step>)
      returns (ghost steps': seq<Step>)
      requires n < |events| && events[n].ref == r && AckKey(events[n]) == Some(key)
      requires Tracked(start, steps, TheFlusher(plan)) && sys.flusher == Acking(events, n, PatchPosted(base))
      modifies this
      ensures Tracked(start, steps', TheFlusher(plan)) && sys.line == old(sys.line)
      ensures sys.flusher == if AckCallsAt(plan.acks, n).patchPosted.Ok? then Acking(events, n, Confirm(Get(0)))
        else Acking(events, n + 1, AckAt.MarkPending)
      ensures unchanged(`inFlight) && unchanged(`posting) && unchanged(`ackPending)
      ensures AckCallsAt(plan.acks, n).patchPosted.Ok? && old(Look(annotations, r)) == base ==>
        Look(annotations, r) == base.(posted := key)
    {
      hide Run, SameAnnotations, Scripted, AckKey, Runs.Do, Patched;
      var o := AckCallsAt(plan.acks, n).patchPosted;
      ghost var s := sys;
      ghost var p := Patched(s, r, o, base, base.(posted := key));
      PatchAgrees(s, annotations, r, o, base, base.(posted := key));
      Patch(r, base, base.(posted := key), o);
      ghost var s' := if o.Ok? then p.At(Acking(events, n, Confirm(Get(0)))) else NextEvent(p, events, n);
      assert s' == Do(s, Step.Flush(FlushEnv(plan, s.flusher)));
      SameHistory(p, s', annotations);
      steps' := Follow(start, steps, Step.Flush(FlushEnv(plan, s.flusher)), TheFlusher(plan));
    }

    /** AckManagedStorageDelivered. */
    method AckManagedStorageDelivered(events: seq<Event>, plan: Plan, ghost start: State, ghost steps: seq<Step>)
      returns (ghost steps': seq<Step>)
      requires Tracked(start, steps, TheFlusher(plan)) && sys.flusher == Acking(events, 0, AckAt.MarkPending)
      modifies this
      ensures Tracked(start, steps', TheFlusher(plan)) && sys.flusher == Acking(events, |events|, AckAt.MarkPending)
        && sys.line == old(sys.line)
    {
      hide Run, Tracked;
      steps' := steps;
      for n := 0 to |events|
        invariant Tracked(start, steps', TheFlusher(plan)) && sys.flusher == Acking(events, n, AckAt.MarkPending)
          && sys.line == old(sys.line)
      {
        steps' := AckEvent(events, n, plan, start, steps');
      }
    }

    /** One flush from the buffer to the last callback; the plan says how PostEvents and the calls of
        the callbacks go. An empty buffer is left alone; otherwise, from the extraction on, it takes
        exactly the planned steps of the system, until the flusher is idle again. */
    method Flush(plan: Plan) returns (ghost steps: seq<Step>)
      requires Valid() && sys.flusher.Idle? && InHand(sys)
      modifies this, batcher, server
      ensures old(sys.line.buf.events) == [] ==> sys == old(sys) && Valid()
      ensures old(sys.line.buf.events) != [] ==>
        Tracked(Do(old(sys), Step.Flush(FlushEnv(plan, Idle))), steps, TheFlusher(plan)) && sys.flusher.Idle?
      ensures old(batcher.events) != [] ==>
        var batch, rest := old(batcher.View()).Batch(), old(batcher.View()).Take();
        && (!plan.hasClient ==>
              && batcher.View() == rest && server.View() == old(server.View())
              && unchanged(`inFlight) && unchanged(`posting) && unchanged(`ackPending) && unchanged(`annotations))
        && (plan.hasClient ==>
              && batcher.View() == (if plan.post.Ok? then rest.Close() else rest.Requeue(batch))
              && server.View() == (if plan.post.Ok? || plan.post.Lost? then CP.Ingest(old(server.View()), batch)
                                   else old(server.View())))
    {
      hide Run, SameAnnotations, Scripted;
      var batch := batcher.TakeBatch();
      steps := [];
      if batch == [] {
        return;
      }
      ghost var start := sys.WithLine(Runs.Take).At(Taken(batch));
      BeginFlush(plan, start);
      NothingScripted(start, TheFlusher(plan));
      if !plan.hasClient {
        steps := FlushSection(start, steps, plan, sys.WithLine(Runs.Discard).At(Idle));
        return;
      }
      steps := FlushSection(start, steps, plan, sys.At(Preparing(batch, 0)));
      steps := PrepareManagedStoragePost(batch, plan, start, steps);
      steps := FlushSection(start, steps, plan, sys.At(Posting(batch)));
      steps := PostAndSettle(batch, plan, start, steps);
    }

    /** The extraction of the batch. */
    ghost method BeginFlush(plan: Plan, s': State)
      requires sys.flusher.Idle? && s' == Do(sys, Step.Flush(FlushEnv(plan, Idle))) && s'.history == sys.history
      requires SameAnnotations(sys, annotations)
      requires s'.mem == Memory(inFlight, posting, ackPending) && s'.line.buf == batcher.View()
        && s'.cp == server.View()
      modifies this`sys
      ensures sys == s' && Valid()
    {
      hide Do;
      SameHistory(sys, s', annotations);
      sys := s';
    }

    method PostAndSettle(batch: seq<Event>, plan: Plan, ghost start: State, ghost steps: seq<Step>)
      returns (ghost steps': seq<Step>)
      requires Tracked(start, steps, TheFlusher(plan)) && sys.flusher == Posting(batch)
      requires sys.line.stage.Holding? && sys.line.inFlight == batch
      modifies this, batcher, server
      ensures Tracked(start, steps', TheFlusher(plan)) && sys.flusher.Idle?
      ensures batcher.View() ==
        (if plan.post.Ok? then old(batcher.View()).Close() else old(batcher.View()).Requeue(batch))
      ensures server.View() == (if plan.post.Ok? || plan.post.Lost? then CP.Ingest(old(server.View()), batch)
                                else old(server.View()))
    {
      hide Run, SameAnnotations, Scripted, Runs.Do, CP.Ingest;
      var post := plan.post;
      if post.Ok? || post.Lost? {
        server.HandleEvents(batch);
      }
      if post.Ok? {
        AcceptKeepsBuffer(sys.line);
        steps' := FlushSection(start, steps, plan,
          sys.Post(batch).WithLine(Runs.Accept).At(Acking(batch, 0, AckAt.MarkPending)));
        steps' := AckManagedStorageDelivered(batch, plan, start, steps');
        steps' := Settle(batch, plan, start, steps');
        return;
      }
      steps' := FlushSection(start, steps, plan, (if post.Lost? then sys.Post(batch) else sys).At(Aborting(batch, 0)));
      steps' := AbortManagedStoragePost(batch, plan, start, steps');
      steps' := PutBack(batch, plan, start, steps');
    }

    lemma AcceptKeepsBuffer(l: Runs.Line)
      requires l.stage.Holding?
      ensures Runs.Do(l, Runs.Accept).buf == l.buf && Runs.Do(l, Runs.Accept).stage.Delivered?
    {
    }

    method Settle(batch: seq<Event>, ghost plan: Plan, ghost start: State, ghost steps: seq<Step>)
      returns (ghost steps': seq<Step>)
      requires Tracked(start, steps, TheFlusher(plan)) && sys.flusher == Acking(batch, |batch|, AckAt.MarkPending)
      requires sys.line.stage.Delivered?
      modifies this, batcher
      ensures Tracked(start, steps', TheFlusher(plan)) && sys.flusher.Idle?
      ensures batcher.View() == old(batcher.View()).Close()
    {
      hide Run, SameAnnotations, Scripted;
      steps' := FlushSection(start, steps, plan, sys.At(Closing));
      batcher.CloseFlush();
      steps' := FlushSection(start, steps', plan, sys.WithLine(Runs.Close).At(Idle));
    }

    method PutBack(batch: seq<Event>, ghost plan: Plan, ghost start: State, ghost steps: seq<Step>)
      returns (ghost steps': seq<Step>)
      requires Tracked(start, steps, TheFlusher(plan)) && sys.flusher == Aborting(batch, |batch|)
      requires sys.line.stage.Holding? && sys.line.inFlight == batch
      modifies this, batcher
      ensures Tracked(start, steps', TheFlusher(plan)) && sys.flusher.Idle?
      ensures batcher.View() == old(batcher.View()).Requeue(batch)
    {
      hide Run, SameAnnotations, Scripted;
      steps' := FlushSection(start, steps, plan, sys.At(Aborted(batch)));
      batcher.Requeue(batch);
      steps' := FlushSection(start, steps', plan, sys.WithLine(Runs.Requeue).At(Idle));
    }
  }

  // ---------- The code when nothing fails ----------

  predicate AllOk(sc: Script) {
    sc.drop.Ok? && sc.claim.Ok? && |sc.calls| >= 2 && sc.calls[0].Ok? && sc.calls[1].Ok?
  }

  /** Not in a second attempt of an acknowledgement. */
  predicate FirstAttempt(pc: Pc) {
    pc.Ack? && !pc.a.Clear? ==> pc.a.attempt == 0
  }

  lemma SmoothEnv(s: State, r: Ref, sc: Script)
    requires r in s.locals && AllOk(sc) && FirstAttempt(s.locals[r].pc)
    ensures ReconcileEnv(sc, s.locals[r].pc) == CallEnv(Ok, sc.now, sc.payload)
    ensures var s' := ReconcileStep(s, r, CallEnv(Ok, sc.now, sc.payload));
      r in s'.locals ==> FirstAttempt(s'.locals[r].pc)
  {
    hide ManagedStorageEventKey, Runs.Do, MergePatch;
  }

  /** A scripted reconcile that has ended, with no call failing, has run to the end. */
  lemma {:induction false} ScriptedEnds(s: State, steps: seq<Step>, r: Ref, sc: Script)
    requires Scripted(s, steps, Reconciler(r, sc)) && r !in Run(s, steps).locals
    requires AllOk(sc) && (r in s.locals ==> FirstAttempt(s.locals[r].pc))
    ensures Run(s, steps) == RunToEnd(s, r, CallEnv(Ok, sc.now, sc.payload))
    decreases |steps|
  {
    hide ReconcileStep, FirstAttempt;
    if steps != [] {
      SmoothEnv(s, r, sc);
      ScriptedEnds(Do(s, steps[0]), steps[1..], r, sc);
    }
  }

  /** No stuck delivery, of the code: from any reachable state in which the key was never accepted and
      no copy is on its way, a reconcile none of whose calls fail, as ReconcileManagedStorage runs it,
      enqueues the instance's event for the key and marks it in flight. */
  lemma ReconcileSendsWhenDue(maxBatch: int, maxBuffer: int, before: seq<Step>, r: Ref, key: string, sc: Script,
      steps: seq<Step>)
    requires Plain(r, key) && AllOk(sc)
    requires var s := Run(Start(maxBatch, maxBuffer), before);
      && r !in s.locals
      && !Delivered(s.line.accepted, r, key)
      && !Among(s.line.buf.events, r, key)
      && !Among(s.line.inFlight, r, key)
      && var s1 := Do(s, Begin(r, key, 0));
         Scripted(s1, steps, Reconciler(r, sc)) && r !in Run(s1, steps).locals
    ensures var s := Run(Start(maxBatch, maxBuffer), before);
      Sent(s, Run(Do(s, Begin(r, key, 0)), steps), r, key, CallEnv(Ok, sc.now, sc.payload))
  {
    var s := Run(Start(maxBatch, maxBuffer), before);
    var s1 := Do(s, Begin(r, key, 0));
    var env := CallEnv(Ok, sc.now, sc.payload);
    assert r in s1.locals && FirstAttempt(s1.locals[r].pc);
    RankBound(s1.locals[r].pc);
    hide Run, Do, Scripted, Sent, RunToEnd, Delivered, Among, Rank;
    NoStuckDelivery(maxBatch, maxBuffer, before, r, key, env);
    ScriptedEnds(s1, steps, r, sc);
    EndIsRun(s1, r, env, ENOUGH);
    BeginThen(s, r, key, Repeat(Reconcile(r, env), ENOUGH));
  }

  /** Acknowledgement progress, of the code: from any reachable state without a running reconcile of the
      instance, a reconcile none of whose calls fail, as ReconcileManagedStorage runs it, acknowledges a
      pending or recorded delivery, waits for a copy on its way, or sends, as AcknowledgementProgress
      says. */
  lemma ReconcileAcknowledgesWhenDue(maxBatch: int, maxBuffer: int, before: seq<Step>, r: Ref, key: string, sc: Script,
      steps: seq<Step>)
    requires Plain(r, key) && AllOk(sc)
    requires var s := Run(Start(maxBatch, maxBuffer), before);
      && r !in s.locals
      && var s1 := Do(s, Begin(r, key, 0));
         Scripted(s1, steps, Reconciler(r, sc)) && r !in Run(s1, steps).locals
    ensures var s := Run(Start(maxBatch, maxBuffer), before);
      var s' := Run(Do(s, Begin(r, key, 0)), steps);
      && Decided(s, s', r, key, CallEnv(Ok, sc.now, sc.payload), CopyOnItsWay(s, r, key))
      && (Acknowledged(s', r, key) <==>
            || s.Current(r).reported == key
            || Holds(s.mem.ackPending, r, key)
            || (s.Current(r).posted == key && !CopyOnItsWay(s, r, key)))
  {
    var s := Run(Start(maxBatch, maxBuffer), before);
    var s1 := Do(s, Begin(r, key, 0));
    var env := CallEnv(Ok, sc.now, sc.payload);
    assert r in s1.locals && FirstAttempt(s1.locals[r].pc);
    RankBound(s1.locals[r].pc);
    hide Run, Do, Scripted, Decided, RunToEnd, CopyOnItsWay, Acknowledged, Rank;
    AcknowledgementProgress(maxBatch, maxBuffer, before, r, key, env);
    ScriptedEnds(s1, steps, r, sc);
    EndIsRun(s1, r, env, ENOUGH);
    BeginThen(s, r, key, Repeat(Reconcile(r, env), ENOUGH));
  }

  lemma RankBound(pc: Pc)
    ensures Rank(pc) < ENOUGH
  {
  }

  lemma BeginThen(s: State, r: Ref, key: string, rest: seq<Step>)
    ensures Run(s, [Begin(r, key, 0)] + rest) == Run(Do(s, Begin(r, key, 0)), rest)
  {
    hide Do;
    assert ([Begin(r, key, 0)] + rest)[1..] == rest;
  }
}
