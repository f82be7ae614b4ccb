/** Acknowledgement progress with everything else going on: in a lifetime of the process in which the
    credentials keep their key, a delivery that is remembered or recorded is never forgotten before the
    key is reported, and a reconcile whose calls succeed reports it. */
module DeliveryAckInterleaved {
  import opened Text
  import opened EventKeys
  import opened Events
  import opened Delivery
  import opened DeliverySafety
  import opened DeliveryProgress
  import opened DeliveryOnce
  import opened DeliveryInterleaved
  import opened DeliveryAck
  import Race = DeliveryRace
  import Runs = BatcherRuns

  /** The credentials keep their key, reads of the instance are current and the process does not restart.
      Everything else interleaves as it likes. */
  predicate Stays(s: State, step: Step, r: Ref, k: string) {
    match step
    case Others(_, _) => true
    case Flush(env) => AckNextIsOwn(s.flusher, r, k) ==> env.age == 0
    case Begin(q, key, age) => q == r ==> key == k && age == 0
    case Reconcile(q, env) => q == r ==> env.age == 0
    case Restart(_) => false
  }

  /** The steps that the key's lifetime allows; the others are skipped. */
  function Lifetime(s: State, steps: seq<Step>, r: Ref, k: string): State
    decreases |steps|
  {
    if steps == [] then s
    else Lifetime(if Stays(s, steps[0], r, k) then Do(s, steps[0]) else s, steps[1..], r, k)
  }

  /** The delivery of the key is remembered. */
  predicate Remembered(s: State, r: Ref, k: string) {
    Holds(s.mem.ackPending, r, k) || s.Current(r).reported == k
  }

  /** No copy exists, and no reconcile is about to make one. */
  predicate Quiet(s: State, r: Ref, k: string) {
    && OnItsWay(s, r, k) == 0
    && (s.flusher.Acking? ==> !Among(s.flusher.batch, r, k))
    && r !in s.mem.inFlight
    && (r in s.locals ==>
          s.locals[r].app.posted == k
          && !s.locals[r].pc.Claim? && !s.locals[r].pc.Report? && !s.locals[r].pc.MarkFlight?)
  }

  predicate LocalSteady(s: State, r: Ref, k: string) {
    r in s.locals ==>
      && s.locals[r].key == k && !s.locals[r].pc.DropPending?
      && (s.locals[r].pc.WipeState? ==> s.Current(r).reported == k)
      && (s.locals[r].pc.Ack? ==> AckFact(s.Current(r), k, s.locals[r].pc.a))
  }

  predicate CallbackSteady(s: State, r: Ref, k: string) {
    AckNextIsOwn(s.flusher, r, k) && !s.flusher.at.MarkPending? ==>
      && Remembered(s, r, k)
      && (s.flusher.at.Confirm? ==> AckFact(s.Current(r), k, s.flusher.at.a))
  }

  predicate EventsSteady(s: State, r: Ref, k: string) {
    && AllOwn(s.line.buf.events, r, k) && AllOwn(s.line.inFlight, r, k)
    && (s.flusher.Acking? ==> AllOwn(s.flusher.batch, r, k))
  }

  /** What a lifetime of the key keeps: a recorded post is remembered, or dates from before and nothing
      of the key is going on. */
  predicate Steady(s: State, r: Ref, k: string) {
    && (r in s.mem.ackPending ==> s.mem.ackPending[r] == k)
    && EventsSteady(s, r, k) && LocalSteady(s, r, k) && CallbackSteady(s, r, k)
    && (s.Current(r).posted == k ==> Remembered(s, r, k) || Quiet(s, r, k))
  }

  /** One step keeps the invariant and forgets no delivery. */
  predicate SteadyStep(s: State, s': State, r: Ref, k: string) {
    && Steady(s', r, k)
    && (Remembered(s, r, k) ==> Remembered(s', r, k))
    && (s.Current(r).reported == k ==> s'.Current(r).reported == k)
  }

  predicate SameCore(s: State, s': State, r: Ref) {
    && s'.Current(r) == s.Current(r)
    && Lookup(s'.mem.inFlight, r) == Lookup(s.mem.inFlight, r)
    && Lookup(s'.mem.ackPending, r) == Lookup(s.mem.ackPending, r)
    && (r in s'.locals <==> r in s.locals) && (r in s.locals ==> s'.locals[r] == s.locals[r])
  }

  /** A step that does not touch what is kept about the instance, and makes no copy. */
  predicate Aside(s: State, s': State, r: Ref, k: string) {
    && SameCore(s, s', r)
    && OnItsWay(s', r, k) <= OnItsWay(s, r, k)
    && EventsSteady(s', r, k) && CallbackSteady(s', r, k)
    && (Quiet(s, r, k) && s'.flusher.Acking? ==> !Among(s'.flusher.batch, r, k))
  }

  lemma AsideSteady(s: State, s': State, r: Ref, k: string)
    requires Steady(s, r, k) && Aside(s, s', r, k)
    ensures SteadyStep(s, s', r, k) && (Quiet(s, r, k) ==> Quiet(s', r, k))
  {
    hide Copies, Among, AllOwn, Carries;
  }

  // ---------- Steps of the others ----------

  lemma SameForCore(s: State, s': State, r: Ref)
    requires SameFor(s, s', r)
    ensures SameCore(s, s', r)
  {
  }

  lemma OthersAside(s: State, s': State, e: Event, now: int, r: Ref, k: string)
    requires Steady(s, r, k) && SameFor(s, s', r) && s'.flusher == s.flusher
    requires e.ref != r || ManagedStorageReportKeyFromEventKey(e.key).None?
    requires s'.line == s.line || s'.line == Runs.Do(s.line, Runs.Enqueue(e, now))
    ensures Aside(s, s', r, k)
  {
    hide ManagedStorageReportKeyFromEventKey, Copies, Among, Runs.Do, Own;
    LineCopies(s.line, Runs.Enqueue(e, now), r, k);
    NoCopy(e, r, k);
    EnqueueOwn(s.line, e, now, r, k);
  }

  lemma ReconcileAside(s: State, q: Ref, env: Env, r: Ref, k: string)
    requires Steady(s, r, k) && q in s.locals && q != r
    ensures Aside(s, ReconcileStep(s, q, env), r, k)
  {
    hide ReconcileStep, Runs.Do, Steady, ManagedStorageEventKey, ManagedStorageReportKeyFromEventKey;
    ReconcileFrame(s, q, env);
    ReconcileElsewhere(s, q, r, env);
    OthersAside(s, ReconcileStep(s, q, env), StorageEvent(q, s.locals[q].key, env.now, env.payload), env.now, r, k);
  }

  /** An action of the flusher on the event line makes no copy. */
  lemma LineAside(l: Runs.Line, a: Runs.Action, r: Ref, k: string)
    requires AllOwn(l.buf.events, r, k) && AllOwn(l.inFlight, r, k) && !a.Enqueue? && !a.Crash?
    requires a.Accept? || a.Discard? ==> l.stage.Holding?
    ensures var l' := Runs.Do(l, a);
      && Copies(l'.buf.events, r, k) + Copies(l'.inFlight, r, k) <= Copies(l.buf.events, r, k) + Copies(l.inFlight, r,
        k)
      && AllOwn(l'.buf.events, r, k) && AllOwn(l'.inFlight, r, k)
  {
    hide Copies, AllOwn, Runs.Do;
    LineCopies(l, a, r, k);
    LineOwn(l, a, r, k);
    NoneAmong(r, k);
  }

  lemma MovedAside(s: State, s': State, a: Option<Runs.Action>, r: Ref, k: string)
    requires Steady(s, r, k) && SameCore(s, s', r) && s'.line == (if a.Some? then Runs.Do(s.line, a.value) else s.line)
    requires a.Some? ==> !a.value.Enqueue? && !a.value.Crash?
    requires a.Some? && (a.value.Accept? || a.value.Discard?) ==> s.line.stage.Holding?
    requires s'.flusher.Acking? ==> s'.flusher.at.MarkPending? && s'.flusher.batch == s.line.inFlight
    ensures Aside(s, s', r, k)
  {
    hide Copies, AllOwn, Runs.Do, Carries, Among;
    CopiesAmong(s.line.inFlight, r, k);
    if a.Some? { LineAside(s.line, a.value, r, k); }
  }

  /** The flusher outside its callback. */
  lemma FlushAside(s: State, env: Env, r: Ref, k: string)
    requires InHand(s) && Steady(s, r, k)
    requires !(s.flusher.Acking? && s.flusher.n < |s.flusher.batch|)
    ensures Aside(s, FlushStep(s, env), r, k)
  {
    var s' := FlushStep(s, env);
    assert SameCore(s, s', r) by { FlushSame(s, env, r); }
    hide Steady, SameCore, Aside, Runs.Do, AllWellKeyed, PrepareOne, AbortOne, AckEventStep;
    match s.flusher
    case Idle => MovedAside(s, s', if s.line.buf.events == [] then None else Some(Runs.Take), r, k);
    case Taken(_) => MovedAside(s, s', if env.hasClient then None else Some(Runs.Discard), r, k);
    case Preparing(_, _) => MovedAside(s, s', None, r, k);
    case Posting(_) => MovedAside(s, s', if env.outcome.Ok? then Some(Runs.Accept) else None, r, k);
    case Aborting(_, _) => MovedAside(s, s', None, r, k);
    case Aborted(_) => MovedAside(s, s', Some(Runs.Requeue), r, k);
    case Acking(_, _, _) => MovedAside(s, s', None, r, k);
    case Closing => MovedAside(s, s', Some(Runs.Close), r, k);
  }

  lemma FlushSame(s: State, env: Env, r: Ref)
    requires !(s.flusher.Acking? && s.flusher.n < |s.flusher.batch|)
    ensures SameCore(s, FlushStep(s, env), r)
  {
    hide Runs.Do, AckEventStep, ManagedStorageReportKeyFromEventKey;
  }

  /** The callback at an event that is not a copy. */
  lemma CallbackAside(s: State, env: Env, r: Ref, k: string)
    requires Steady(s, r, k) && s.flusher.Acking? && s.flusher.n < |s.flusher.batch|
    requires var e := s.flusher.batch[s.flusher.n]; AckKey(e).None? || e.ref != r
    requires !Carries(s.flusher.batch[s.flusher.n], r, k)
    ensures Aside(s, AckEventStep(s, s.flusher.batch, s.flusher.n, s.flusher.at, env), r, k)
  {
    hide AckKey, AckEventStep, Copies, Among, AllOwn, Carries;
    AckEventFrame(s, env);
    AckEventElsewhere(s, r, k, env);
  }

  // ---------- The callback at a copy ----------

  predicate AtCopy(s: State, r: Ref, k: string) {
    && s.flusher.Acking? && s.flusher.n < |s.flusher.batch|
    && s.flusher.batch[s.flusher.n].ref == r && AckKey(s.flusher.batch[s.flusher.n]) == Some(k)
    && Carries(s.flusher.batch[s.flusher.n], r, k)
  }

  /** The callback goes on with the delivery remembered; the key may have become the reported one. */
  lemma CopySteady(s: State, s1: State, r: Ref, k: string, f: Flusher)
    requires Steady(s, r, k) && s.flusher.Acking? && s1.locals == s.locals && s1.line == s.line
    requires f.Acking? && f.batch == s.flusher.batch
    requires s1.Current(r).reported == k || s1.Current(r).reported == s.Current(r).reported
    requires Remembered(s1, r, k) && (r in s1.mem.ackPending ==> s1.mem.ackPending[r] == k)
    requires f.n == s.flusher.n || f.at.MarkPending?
    requires f.at.Confirm? ==> AckFact(s1.Current(r), k, f.at.a)
    ensures SteadyStep(s, s1.At(f), r, k)
  {
    hide Copies, Among, AllOwn, Carries;
  }

  lemma CopyMarks(s: State, r: Ref, k: string, env: Env)
    requires Steady(s, r, k) && AtCopy(s, r, k)
    requires s.flusher.at.MarkPending? || s.flusher.at.DropFlight? || s.flusher.at.DropPosting?
    ensures SteadyStep(s, AckEventStep(s, s.flusher.batch, s.flusher.n, s.flusher.at, env), r, k)
  {
    hide AckKey, Copies, Among, AllOwn, Carries, SteadyStep;
    var Acking(b, n, at) := s.flusher;
    if at.MarkPending? {
      CopySteady(s, s.WithMem(s.mem.MarkAckPending(r, k)), r, k, Acking(b, n, DropFlight));
    } else if at.DropFlight? {
      CopySteady(s, s.WithMem(s.mem.ClearInFlight(r)), r, k, Acking(b, n, AckAt.DropPosting));
    } else {
      CopySteady(s, s.WithMem(s.mem.ClearPosting(r, k)), r, k, Acking(b, n, GetPosted));
    }
  }

  lemma CopyRead(s: State, r: Ref, k: string, env: Env)
    requires Steady(s, r, k) && AtCopy(s, r, k) && s.flusher.at.GetPosted?
    ensures SteadyStep(s, AckEventStep(s, s.flusher.batch, s.flusher.n, s.flusher.at, env), r, k)
  {
    hide AckKey, Copies, Among, AllOwn, Carries, SteadyStep;
    var Acking(b, n, at) := s.flusher;
    var base := s.Snapshot(r, env.age);
    CopySteady(s, s, r, k,
      if !env.outcome.Ok? then Acking(b, n + 1, AckAt.MarkPending)
      else Acking(b, n, if base.posted == k then Confirm(Get(0)) else PatchPosted(base)));
  }

  lemma CopyPosted(s: State, r: Ref, k: string, env: Env)
    requires Steady(s, r, k) && AtCopy(s, r, k) && s.flusher.at.PatchPosted?
    ensures SteadyStep(s, AckEventStep(s, s.flusher.batch, s.flusher.n, s.flusher.at, env), r, k)
  {
    hide AckKey, Copies, Among, AllOwn, Carries, SteadyStep;
    var Acking(b, n, at) := s.flusher;
    var target := at.base.(posted := k);
    var s1 := Patched(s, r, env.outcome, at.base, target);
    PatchFrame(s, r, env.outcome, at.base, target);
    assert s1.Current(r).reported == s.Current(r).reported;
    CopySteady(s, s1, r, k, if env.outcome.Ok? then Acking(b, n, Confirm(Get(0)))
      else Acking(b, n + 1, AckAt.MarkPending));
  }

  lemma CopyConfirmed(s: State, r: Ref, k: string, env: Env)
    requires Steady(s, r, k) && AtCopy(s, r, k) && s.flusher.at.Confirm? && env.age == 0
    ensures SteadyStep(s, AckEventStep(s, s.flusher.batch, s.flusher.n, s.flusher.at, env), r, k)
  {
    hide AckKey, Copies, Among, AllOwn, Carries, Patched, SteadyStep;
    var Acking(b, n, at) := s.flusher;
    var (s1, next) := AckStep(s, r, k, at.a, env);
    if at.a.Patch? {
      AckPatch(s, r, k, env.outcome, at.a.base);
      PatchFrame(s, r, env.outcome, at.a.base, Annotations(k, "", ""));
    }
    CopySteady(s, s1, r, k, if next.Go? then Acking(b, n, Confirm(next.a)) else Acking(b, n + 1, AckAt.MarkPending));
  }

  lemma FlushSteady(s: State, env: Env, r: Ref, k: string)
    requires InHand(s) && Steady(s, r, k) && (AckNextIsOwn(s.flusher, r, k) ==> env.age == 0)
    ensures SteadyStep(s, FlushStep(s, env), r, k)
    ensures Quiet(s, r, k) ==> Aside(s, FlushStep(s, env), r, k)
  {
    hide ManagedStorageReportKeyFromEventKey, EndpointsReportKeyFromEventKey, AckKey, AckEventStep, Copies, SteadyStep,
      Aside, CallbackSteady, LocalSteady;
    if s.flusher.Acking? && s.flusher.n < |s.flusher.batch| {
      var Acking(b, n, at) := s.flusher;
      assert WellKeyed(b[n]) && Own(b[n], r, k);
      AckKeyAgrees(b[n]);
      if AckKey(b[n]).None? || b[n].ref != r {
        CallbackAside(s, env, r, k);
        AsideSteady(s, AckEventStep(s, b, n, at, env), r, k);
      } else {
        assert Carries(b[n], r, k) && Among(b, r, k);
        if at.PatchPosted? { CopyPosted(s, r, k, env); }
        else if at.Confirm? { CopyConfirmed(s, r, k, env); }
        else if at.GetPosted? { CopyRead(s, r, k, env); }
        else { CopyMarks(s, r, k, env); }
      }
    } else {
      FlushAside(s, env, r, k);
      AsideSteady(s, FlushStep(s, env), r, k);
    }
  }

  // ---------- The instance's own reconcile ----------

  /** Moving on without touching anything else. */
  lemma MoveSteady(s: State, r: Ref, k: string, l: Local)
    requires Steady(s, r, k) && l.key == k && !l.pc.DropPending? && (l.pc.WipeState? ==> s.Current(r).reported == k)
    requires l.pc.Ack? ==> AckFact(s.Current(r), k, l.pc.a)
    requires Quiet(s, r, k) && s.Current(r).posted == k ==>
      l.app.posted == k && !l.pc.Claim? && !l.pc.Report? && !l.pc.MarkFlight?
    ensures SteadyStep(s, s.Set(r, l), r, k) && SteadyStep(s, s.Finish(r), r, k)
  {
    hide Copies, Among, AllOwn, Carries;
  }

  /** New marks first, then moving on: the pending ack stays, or the key is reported. */
  lemma MarkSteady(s: State, m: Memory, r: Ref, k: string, l: Local)
    requires Steady(s, r, k) && r in s.locals && l.key == k && !l.pc.DropPending? && !l.pc.WipeState?
    requires l.pc.Ack? ==> AckFact(s.Current(r), k, l.pc.a)
    requires Lookup(m.ackPending, r) == Lookup(s.mem.ackPending, r) || Holds(m.ackPending, r, k)
      || (r !in m.ackPending && s.Current(r).reported == k)
    requires Quiet(s, r, k) && s.Current(r).posted == k && !Holds(m.ackPending, r, k) && s.Current(r).reported != k ==>
      r !in m.inFlight && l.app.posted == k && !l.pc.Claim? && !l.pc.Report? && !l.pc.MarkFlight?
    ensures SteadyStep(s, s.WithMem(m).Set(r, l), r, k) && SteadyStep(s, s.WithMem(m).Finish(r), r, k)
  {
    hide Copies, Among, AllOwn, Carries;
  }

  /** A patch that keeps the posted annotation or reports the key. */
  lemma PatchSteady(s: State, p: State, r: Ref, k: string, l: Local)
    requires Steady(s, r, k) && r in s.locals && l.key == k && !l.pc.DropPending? && !l.pc.WipeState?
    requires p.line == s.line && p.mem == s.mem && p.flusher == s.flusher && p.locals == s.locals
    requires p.Current(r).reported == k
      || (p.Current(r).reported == s.Current(r).reported && p.Current(r).posted == s.Current(r).posted)
    requires l.pc.Ack? ==> AckFact(p.Current(r), k, l.pc.a)
    requires Quiet(s, r, k) && p.Current(r).posted == k && p.Current(r).reported != k ==>
      l.app.posted == k && !l.pc.Claim? && !l.pc.Report? && !l.pc.MarkFlight?
    ensures SteadyStep(s, p.Set(r, l), r, k) && SteadyStep(s, p.Finish(r), r, k)
  {
    hide Copies, Among, AllOwn, Carries;
  }

  lemma OwnLooks(s: State, env: Env, r: Ref, k: string)
    requires Steady(s, r, k) && r in s.locals
    requires var pc := s.locals[r].pc;
      pc.ReadPending? || pc.ReadInFlight? || pc.FlightBuffered? || pc.FlightPosting? || pc.Buffered?
    ensures SteadyStep(s, ReconcileStep(s, r, env), r, k)
  {
    hide ManagedStorageEventKey, Runs.Do, MergePatch, Copies, AllOwn, Among, Carries, SteadyStep, OnItsWay;
    var s' := ReconcileStep(s, r, env);
    if r in s'.locals {
      assert s' == s.Set(r, s'.locals[r]);
      MoveSteady(s, r, k, s'.locals[r]);
    } else {
      assert s' == s.Finish(r);
      MoveSteady(s, r, k, s.locals[r]);
    }
  }

  lemma OwnMarks(s: State, env: Env, r: Ref, k: string)
    requires Steady(s, r, k) && r in s.locals
    requires var pc := s.locals[r].pc; pc.WipeState? || pc.DropInFlight? || pc.Remark? || pc.MarkFlight?
    ensures SteadyStep(s, ReconcileStep(s, r, env), r, k)
  {
    hide ManagedStorageEventKey, Runs.Do, MergePatch, Copies, AllOwn, Among, Carries, SteadyStep, OnItsWay;
    var Local(pc, key, app) := s.locals[r];
    if pc.WipeState? { MarkSteady(s, s.mem.Wipe(r), r, k, Local(ReadPending, k, app)); }
    else if pc.DropInFlight? { MarkSteady(s, s.mem.ClearInFlight(r), r, k, Local(Buffered, k, app)); }
    else if pc.Remark? { MarkSteady(s, s.mem.MarkAckPending(r, k), r, k, Local(Ack(Get(0)), k, app)); }
    else { MarkSteady(s, s.mem.MarkInFlight(r, k), r, k, Local(ReadPending, k, app)); }
  }

  lemma OwnClaims(s: State, env: Env, r: Ref, k: string)
    requires Steady(s, r, k) && r in s.locals && (s.locals[r].pc.Claim? || s.locals[r].pc.DropClaim?)
    ensures SteadyStep(s, ReconcileStep(s, r, env), r, k)
  {
    hide Runs.Do, ManagedStorageEventKey, Patched, MergePatch, Copies, AllOwn, Among, Carries, SteadyStep, OnItsWay;
    var Local(pc, key, app) := s.locals[r];
    var claim := if pc.Claim? then k else "";
    var p := Patched(s, r, env.outcome, app, app.(claim := claim));
    ClaimPatch(s, r, env.outcome, app, claim);
    PatchFrame(s, r, env.outcome, app, app.(claim := claim));
    PatchSteady(s, p, r, k, Local(if pc.Claim? then Report else ReadPending, k, p.Current(r)));
  }

  lemma OwnAcks(s: State, env: Env, r: Ref, k: string)
    requires Steady(s, r, k) && r in s.locals && s.locals[r].pc.Ack? && env.age == 0
    ensures SteadyStep(s, ReconcileStep(s, r, env), r, k)
  {
    hide Runs.Do, ManagedStorageEventKey, Patched, MergePatch, Copies, AllOwn, Among, Carries, SteadyStep, OnItsWay;
    var Local(pc, key, app) := s.locals[r];
    var (s1, next) := AckStep(s, r, k, pc.a, env);
    var l := Local(Ack(if next.Go? then next.a else Get(0)), k, app);
    if pc.a.Clear? {
      MarkSteady(s, s.mem.Wipe(r), r, k, l);
    } else if pc.a.Get? {
      MoveSteady(s, r, k, l);
    } else {
      AckPatch(s, r, k, env.outcome, pc.a.base);
      PatchFrame(s, r, env.outcome, pc.a.base, Annotations(k, "", ""));
      if !env.outcome.Ok? && !env.outcome.Lost? { Refused(s, r, env.outcome, pc.a.base, Annotations(k, "", "")); }
      PatchSteady(s, s1, r, k, l);
    }
  }

  lemma Refused(s: State, r: Ref, outcome: Outcome, base: Annotations, target: Annotations)
    requires !outcome.Ok? && !outcome.Lost?
    ensures Patched(s, r, outcome, base, target) == s
  {
  }

  lemma OwnSends(s: State, env: Env, r: Ref, k: string)
    requires Steady(s, r, k) && r in s.locals && s.locals[r].pc.Report? && Plain(r, k)
    ensures SteadyStep(s, ReconcileStep(s, r, env), r, k)
  {
    hide ManagedStorageEventKey, ManagedStorageReportKeyFromEventKey, Runs.Do, MergePatch, Copies, Among, Own;
    var e := StorageEvent(r, k, env.now, env.payload);
    OneCopy(r, k, env);
    LineCopies(s.line, Runs.Enqueue(e, env.now), r, k);
    EnqueueOwn(s.line, e, env.now, r, k);
  }

  lemma OwnSteady(s: State, env: Env, r: Ref, k: string)
    requires Steady(s, r, k) && r in s.locals && Plain(r, k) && env.age == 0
    ensures SteadyStep(s, ReconcileStep(s, r, env), r, k)
  {
    hide ReconcileStep, SteadyStep, EventsSteady, CallbackSteady, Quiet, Remembered;
    var pc := s.locals[r].pc;
    if pc.Report? { OwnSends(s, env, r, k); }
    else if pc.Ack? { OwnAcks(s, env, r, k); }
    else if pc.Claim? || pc.DropClaim? { OwnClaims(s, env, r, k); }
    else if pc.WipeState? || pc.DropInFlight? || pc.Remark? || pc.MarkFlight? { OwnMarks(s, env, r, k); }
    else { OwnLooks(s, env, r, k); }
  }

  lemma BeginSteady(s: State, r: Ref, k: string)
    requires Steady(s, r, k) && r !in s.locals && Plain(r, k)
    ensures SteadyStep(s, Do(s, Begin(r, k, 0)), r, k)
  {
    hide SteadyStep, EventsSteady, CallbackSteady, OnItsWay, Among;
    MoveSteady(s, r, k, Local(AfterRead(k, s.Current(r)), k, s.Current(r)));
  }

  /** The steps of everybody else leave a quiet instance alone. */
  lemma StepSteady(s: State, step: Step, r: Ref, k: string)
    requires Inv(s) && Steady(s, r, k) && Stays(s, step, r, k) && Enabled(s, step)
    ensures SteadyStep(s, Do(s, step), r, k)
    ensures r in s.locals && !OwnStepOf(step, r) ==> r in Do(s, step).locals && Do(s, step).locals[r] == s.locals[r]
    ensures Quiet(s, r, k) && !OwnStepOf(step, r) && !(step.Begin? && step.r == r) ==>
      Quiet(Do(s, step), r, k) && SameCore(s, Do(s, step), r)
  {
    hide Inv, FlushStep, ReconcileStep, Steady, SteadyStep, Quiet, ManagedStorageReportKeyFromEventKey;
    match step
    case Others(e, now) =>
      OthersAside(s, s.WithLine(Runs.Enqueue(e, now)), e, now, r, k);
      AsideSteady(s, Do(s, step), r, k);
    case Flush(env) =>
      InHandOf(s);
      FlushSteady(s, env, r, k);
      FlushAlive(s, env, r, k);
      if Aside(s, FlushStep(s, env), r, k) { AsideSteady(s, FlushStep(s, env), r, k); }
    case Begin(q, key, age) =>
      if q == r { BeginSteady(s, r, k); }
      else {
        var none := Event("", Ref("", ""), "", 0, 0);
        NoneKey();
        OthersAside(s, Do(s, step), none, 0, r, k);
        AsideSteady(s, Do(s, step), r, k);
      }
    case Reconcile(q, env) =>
      if q == r {
        KeyOf(s, r, k);
        OwnSteady(s, env, r, k);
      } else {
        ReconcileAside(s, q, env, r, k);
        AsideSteady(s, Do(s, step), r, k);
      }
  }

  lemma KeyOf(s: State, r: Ref, k: string)
    requires Inv(s) && Steady(s, r, k) && r in s.locals
    ensures Plain(r, k)
  {
    PlainKey(s, r);
  }

  // ---------- On the way to the acknowledgement ----------

  /** A post from before this lifetime is recorded, and nothing of the key is going on. */
  predicate Recorded(s: State, r: Ref, k: string) {
    s.Current(r).posted == k && Quiet(s, r, k)
  }

  /** The key is reported, or the running reconcile is going to report it. */
  predicate Bound(s: State, r: Ref, k: string) {
    s.Current(r).reported == k || (r in s.locals &&
      match s.locals[r].pc
      case DropClaim => Remembered(s, r, k) || Recorded(s, r, k)
      case ReadPending => Remembered(s, r, k) || Recorded(s, r, k)
      case Ack(_) => true
      case ReadInFlight => Recorded(s, r, k)
      case Buffered => Recorded(s, r, k)
      case Remark => Recorded(s, r, k)
      case _ => false)
  }

  /** Nothing the others do keeps the reconcile from it. */
  lemma OthersKeepBound(s: State, step: Step, r: Ref, k: string)
    requires Inv(s) && Steady(s, r, k) && Bound(s, r, k) && Stays(s, step, r, k) && !OwnStepOf(step, r)
    ensures Steady(Do(s, step), r, k) && Bound(Do(s, step), r, k)
    ensures r in s.locals ==> r in Do(s, step).locals && Do(s, step).locals[r] == s.locals[r]
  {
    hide Inv, Steady, Quiet, FlushStep, ReconcileStep, Stays;
    if Enabled(s, step) {
      StepSteady(s, step, r, k);
    } else {
      Stutter(s, step);
    }
  }

  lemma QuietBuffer(s: State, r: Ref, k: string)
    requires Shaped(s) && Plain(r, k) && Quiet(s, r, k)
    ensures !s.line.buf.HasKey(StorageKey(r, k))
  {
    BufferCheckExact(s, r, k);
    CopiesAmong(s.line.buf.events, r, k);
  }

  /** A step of its own brings the reconcile nearer, or the key is reported. */
  lemma OwnBound(s: State, env: Env, r: Ref, k: string)
    requires Shaped(s) && Steady(s, r, k) && Bound(s, r, k) && Smooth(env) && s.Current(r).reported != k
    ensures r in s.locals
    ensures var s' := ReconcileStep(s, r, env);
      && Steady(s', r, k)
      && (s'.Current(r).reported == k
          || (Bound(s', r, k) && r in s'.locals && Rank(s'.locals[r].pc) < Rank(s.locals[r].pc)))
  {
    PlainKey(s, r);
    OwnSteady(s, env, r, k);
    SmoothStep(s, r, env);
    if s.locals[r].pc.Buffered? { QuietBuffer(s, r, k); }
    hide Shaped, Copies, Among, AllOwn, Carries, ManagedStorageEventKey, Runs.Do, Rank, OnItsWay, Plain;
    OwnNearer(s, env, r, k);
  }

  lemma OwnNearer(s: State, env: Env, r: Ref, k: string)
    requires Steady(s, r, k) && Bound(s, r, k) && Smooth(env) && s.Current(r).reported != k
    requires s.locals[r].pc.Buffered? ==> !s.line.buf.HasKey(StorageKey(r, k))
    ensures var s' := ReconcileStep(s, r, env);
      s'.Current(r).reported == k || (Bound(s', r, k) && r in s'.locals)
  {
    hide Copies, Among, AllOwn, Carries, ManagedStorageEventKey, Runs.Do, Plain, CallbackSteady, EventsSteady, Patched,
      MergePatch;
    var Local(pc, key, app) := s.locals[r];
    if pc.DropClaim? {
      ClaimPatch(s, r, env.outcome, app, "");
      PatchFrame(s, r, env.outcome, app, app.(claim := ""));
    } else if pc.Ack? && pc.a.Patch? {
      AckPatch(s, r, k, env.outcome, pc.a.base);
    }
  }

  predicate OwnSmooth(steps: seq<Step>, r: Ref) {
    forall i :: 0 <= i < |steps| && OwnStepOf(steps[i], r) ==> Smooth(steps[i].env)
  }

  lemma OwnStays(s: State, step: Step, r: Ref, k: string)
    requires OwnStepOf(step, r) && Smooth(step.env)
    ensures Stays(s, step, r, k)
    ensures r in s.locals ==> Do(s, step) == ReconcileStep(s, r, step.env)
    ensures r !in s.locals ==> Do(s, step) == s
  {
  }

  lemma {:induction false} BoundReports(s: State, steps: seq<Step>, r: Ref, k: string)
    requires Inv(s) && Steady(s, r, k) && Bound(s, r, k) && OwnSmooth(steps, r)
    requires s.Current(r).reported != k ==> Rank(s.locals[r].pc) < OwnSteps(steps, r)
    ensures Lifetime(s, steps, r, k).Current(r).reported == k
    decreases |steps|
  {
    hide Inv, Steady, ReconcileStep, Rank, Bound;
    if steps != [] {
      var step := steps[0];
      if !OwnStepOf(step, r) {
        if Stays(s, step, r, k) {
          StepInv(s, step);
          OthersKeepBound(s, step, r, k);
          BoundLocal(s, r, k);
          BoundStable(s, step, r, k);
          hide Do, Stays;
          BoundReports(Do(s, step), steps[1..], r, k);
        } else {
          BoundReports(s, steps[1..], r, k);
        }
      } else {
        OwnStays(s, step, r, k);
        StepInv(s, step);
        if s.Current(r).reported == k {
          BoundStable(s, step, r, k);
        } else {
          ShapedOf(s);
          OwnBound(s, step.env, r, k);
        }
        IsBound(Do(s, step), r, k);
        hide Do, Stays;
        BoundReports(Do(s, step), steps[1..], r, k);
      }
    }
  }

  lemma ShapedOf(s: State)
    requires Inv(s)
    ensures Shaped(s)
  {
  }

  lemma BoundLocal(s: State, r: Ref, k: string)
    requires Bound(s, r, k)
    ensures s.Current(r).reported != k ==> r in s.locals
  {
  }

  lemma IsBound(s: State, r: Ref, k: string)
    ensures s.Current(r).reported == k ==> Bound(s, r, k)
  {
  }

  /** A reported key stays reported. */
  lemma BoundStable(s: State, step: Step, r: Ref, k: string)
    requires Inv(s) && Steady(s, r, k) && Stays(s, step, r, k)
    ensures Steady(Do(s, step), r, k)
    ensures s.Current(r).reported == k ==> Do(s, step).Current(r).reported == k
  {
    hide Inv, Steady, Quiet, FlushStep, ReconcileStep, Stays, Remembered;
    if Enabled(s, step) {
      StepSteady(s, step, r, k);
    } else {
      Stutter(s, step);
    }
  }

  // ---------- Lifetimes ----------

  lemma RestartedSteady(s: State, posted: bool, r: Ref, k: string)
    ensures Steady(Do(s, Restart(posted)), r, k)
  {
    hide Carries;
  }

  lemma {:induction false} LifetimeSteady(s: State, steps: seq<Step>, r: Ref, k: string)
    requires Inv(s) && Steady(s, r, k)
    ensures Inv(Lifetime(s, steps, r, k)) && Steady(Lifetime(s, steps, r, k), r, k)
    decreases |steps|
  {
    hide Inv, Steady, Do, Stays;
    if steps != [] {
      if Stays(s, steps[0], r, k) {
        StepInv(s, steps[0]);
        BoundStable(s, steps[0], r, k);
        LifetimeSteady(Do(s, steps[0]), steps[1..], r, k);
      } else {
        LifetimeSteady(s, steps[1..], r, k);
      }
    }
  }

  lemma BeginBound(s: State, r: Ref, k: string)
    requires Steady(s, r, k) && r !in s.locals && Plain(r, k)
    requires Holds(s.mem.ackPending, r, k) || s.Current(r).posted == k || s.Current(r).reported == k
    ensures var s1 := Do(s, Begin(r, k, 0));
      Steady(s1, r, k) && Bound(s1, r, k) && r in s1.locals && Rank(s1.locals[r].pc) < ENOUGH
  {
    BeginSteady(s, r, k);
    AnyRank(AfterRead(k, s.Current(r)));
    hide Copies, Among, AllOwn, Carries, Rank, Plain;
  }

  /** In any lifetime of the process in which the credentials keep their key and reads of the instance are
      current: once the key's acknowledgement is pending or its post is recorded, and a reconcile has
      made at most twelve steps with its calls succeeding, the key is reported, whatever the flusher,
      its callbacks, other reporters and other instances' reconciles did in between and whichever of
      their calls failed. */
  lemma AcknowledgementInterleaved(maxBatch: int, maxBuffer: int, before: seq<Step>, posted: bool, lifetime: seq<Step>,
      r: Ref, k: string, steps: seq<Step>)
    requires Plain(r, k) && OwnSmooth(steps, r) && OwnSteps(steps, r) >= ENOUGH
    requires var s := Lifetime(Do(Run(Start(maxBatch, maxBuffer), before), Restart(posted)), lifetime, r, k);
      && r !in s.locals
      && (Holds(s.mem.ackPending, r, k) || s.Current(r).posted == k)
    ensures var s := Lifetime(Do(Run(Start(maxBatch, maxBuffer), before), Restart(posted)), lifetime, r, k);
      Lifetime(Do(s, Begin(r, k, 0)), steps, r, k).Current(r).reported == k
  {
    hide Inv, Steady, Do, Bound, Rank;
    var s1 := Run(Start(maxBatch, maxBuffer), before);
    var s0 := Do(s1, Restart(posted));
    Reachable(maxBatch, maxBuffer, before);
    StepInv(s1, Restart(posted));
    RestartedSteady(s1, posted, r, k);
    LifetimeSteady(s0, lifetime, r, k);
    var s := Lifetime(s0, lifetime, r, k);
    StepInv(s, Begin(r, k, 0));
    BeginBound(s, r, k);
    BoundReports(Do(s, Begin(r, k, 0)), steps, r, k);
  }

  // ---------- Why the key has to stay ----------

  /** The credentials rotate from `k` to `k'` while the event of `k` is being posted: the event of `k'` is
      buffered. */
  lemma RotatedWhilePosting(r: Ref, k: string, k': string) returns (steps: seq<Step>, s: State)
    requires Plain(r, k) && Plain(r, k') && k != k'
    ensures s == Run(Start(0, 0), steps) && s.locals == map[] && s.flusher == Posting([StorageEvent(r, k, 1, 0)])
    ensures s.line.buf.events == [StorageEvent(r, k', 1, 0)] && s.line.stage.Holding?
    ensures s.mem == Memory(map[r := k'], map[r := k], map[]) && s.Current(r) == Annotations("", k', "")
  {
    hide ManagedStorageEventKey, Run;
    steps, s := Race.PostGoesOut(r, k);
    steps, s := Race.Turned(steps, s, r, k', k);
    steps, s := Race.Claims(steps, s, r, k');
  }

  /** The post of `k` is accepted and marked, and reading the instance fails. */
  lemma PendingAndRotated(r: Ref, k: string, k': string) returns (steps: seq<Step>, s: State)
    requires Plain(r, k) && Plain(r, k') && k != k'
    ensures s == Run(Start(0, 0), steps) && s.locals == map[]
    ensures s.flusher == Acking([StorageEvent(r, k, 1, 0)], 1, MarkPending)
    ensures s.line.buf.events == [StorageEvent(r, k', 1, 0)] && s.line.stage.Delivered?
    ensures s.mem == Memory(map[], map[], map[r := k]) && s.Current(r) == Annotations("", k', "")
  {
    hide ManagedStorageEventKey, ManagedStorageReportKeyFromEventKey, EndpointsReportKeyFromEventKey, Run;
    StorageEventWellKeyed(r, k, 1, 0);
    steps, s := RotatedWhilePosting(r, k, k');
    steps, s := Race.Extend(steps, s, Flush(Race.CALM));
    assert s.line.stage.Delivered?;
    steps, s := Race.Extend(steps, s, Flush(Race.CALM));
    assert s.mem.ackPending == map[r := k];
    steps, s := Race.Extend(steps, s, Flush(Race.CALM));
    assert s.mem.inFlight == map[];
    steps, s := Race.Extend(steps, s, Flush(Race.CALM));
    assert s.mem.posting == map[];
    steps, s := Race.Extend(steps, s, Flush(Race.CALM.(outcome := Fail)));
  }

  /** The event of `k'` is accepted too, and the callback is about to mark it. */
  lemma AboutToMark(r: Ref, k: string, k': string) returns (steps: seq<Step>, s: State)
    requires Plain(r, k) && Plain(r, k') && k != k'
    ensures s == Run(Start(0, 0), steps) && s.locals == map[] && s.line.buf.events == []
    ensures s.flusher == Acking([StorageEvent(r, k', 1, 0)], 0, MarkPending)
    ensures s.mem == Memory(map[], map[r := k'], map[r := k]) && s.Current(r) == Annotations("", k', "")
  {
    hide ManagedStorageEventKey, ManagedStorageReportKeyFromEventKey, EndpointsReportKeyFromEventKey, Run;
    StorageEventWellKeyed(r, k', 1, 0);
    var e := StorageEvent(r, k', 1, 0);
    steps, s := PendingAndRotated(r, k, k');
    steps, s := Race.Extend(steps, s, Flush(Race.CALM));
    steps, s := Race.Extend(steps, s, Flush(Race.CALM));
    assert s.flusher.Idle? && s.line.stage.Idle? && s.line.buf.events == [e];
    assert s.line.buf.BatchSize() == 1 && [e][..1] == [e] && [e][1..] == [];
    steps, s := Race.Extend(steps, s, Flush(Race.CALM));
    assert s.flusher == Taken([e]) && s.line.buf.events == [] && s.line.stage.Holding?;
    steps, s := Race.Extend(steps, s, Flush(Race.CALM));
    steps, s := Race.Extend(steps, s, Flush(Race.CALM));
    assert s.mem.posting == map[r := k'];
    steps, s := Race.Extend(steps, s, Flush(Race.CALM));
    steps, s := Race.Extend(steps, s, Flush(Race.CALM));
  }

  /** When the callback marks another key, a pending acknowledgement is overwritten: for every instance
      and two keys there is a run to a state in which the acknowledgement of `k` is pending, from which
      one step of the callback inside a reconcile for `k`, no call of either failing, makes that
      reconcile end without reporting `k`. */
  lemma RotationForgetsPending(r: Ref, k: string, k': string) returns (steps: seq<Step>)
    requires Plain(r, k) && Plain(r, k') && k != k'
    ensures var s := Run(Start(0, 0), steps);
      && r !in s.locals && Holds(s.mem.ackPending, r, k)
      && var s' := Run(s, [Begin(r, k, 0), Flush(Race.CALM)] + Repeat(Reconcile(r, Race.CALM), ENOUGH));
         r !in s'.locals && s'.Current(r).reported != k
  {
    hide ManagedStorageEventKey, ManagedStorageReportKeyFromEventKey, EndpointsReportKeyFromEventKey, Run, Sent;
    StorageEventWellKeyed(r, k', 1, 0);
    var s: State;
    steps, s := AboutToMark(r, k, k');
    var env := Race.CALM;
    var s1 := Do(s, Begin(r, k, 0));
    assert s1.locals[r] == Local(DropClaim, k, s.Current(r));
    var s2 := Do(s1, Flush(env));
    assert s2.mem.ackPending == map[r := k'] && s2.line.buf.events == [] && s2.locals == s1.locals;
    var s3 := ReconcileStep(s2, r, env);
    assert s3.Current(r) == BARE && Upto(s3, r, k, ReadPending);
    SmoothStep(s2, r, env);
    PendingEnds(s3, r, k, env);
    EndIsRun(s2, r, env, ENOUGH);
    TwoThen(s, Begin(r, k, 0), Flush(env), Repeat(Reconcile(r, env), ENOUGH));
  }

  lemma TwoThen(s: State, a: Step, b: Step, rest: seq<Step>)
    ensures Run(s, [a, b] + rest) == Run(Do(Do(s, a), b), rest)
  {
    hide Do;
    assert ([a, b] + rest)[1..] == [b] + rest && ([b] + rest)[1..] == rest;
  }
}
