/** One outstanding copy. Everything interleaves; as long as a reconcile of the instance is not misled
    at one of its two looks at the in-memory marks, an instance with fixed credentials has at most one
    event on its way and PostEvents accepts it at most once per process lifetime, even when
    acknowledgement patches fail. */
module DeliveryOnce {
  import opened Text
  import opened EventKeys
  import opened Events
  import opened Delivery
  import opened DeliverySafety
  import opened DeliveryProgress
  import Runs = BatcherRuns
  import Batcher

  // ---------- Counting copies ----------

  function Copies(es: seq<Event>, r: Ref, k: string): nat {
    if es == [] then 0 else (if Carries(es[0], r, k) then 1 else 0) + Copies(es[1..], r, k)
  }

  lemma {:induction false} CopiesConcat(a: seq<Event>, b: seq<Event>, r: Ref, k: string)
    ensures Copies(a + b, r, k) == Copies(a, r, k) + Copies(b, r, k)
  {
    hide Carries;
    if a == [] {
      assert a + b == b;
    } else {
      assert (a + b)[1..] == a[1..] + b;
      CopiesConcat(a[1..], b, r, k);
    }
  }

  lemma {:induction false} CopiesAmong(es: seq<Event>, r: Ref, k: string)
    ensures Copies(es, r, k) > 0 <==> Among(es, r, k)
  {
    hide Carries;
    if es != [] {
      CopiesAmong(es[1..], r, k);
      if Among(es[1..], r, k) {
        var i :| 0 <= i < |es[1..]| && Carries(es[1..][i], r, k);
        assert Carries(es[i + 1], r, k);
      }
      if Among(es, r, k) && !Carries(es[0], r, k) {
        var i :| 0 <= i < |es| && Carries(es[i], r, k);
        assert es[1..][i - 1] == es[i];
      }
    }
  }

  function OnItsWay(s: State, r: Ref, k: string): nat {
    Copies(s.line.buf.events, r, k) + Copies(s.line.inFlight, r, k)
  }

  /** What an action of the event line does to the copies of one key. */
  lemma LineCopies(l: Runs.Line, a: Runs.Action, r: Ref, k: string)
    ensures var l' := Runs.Do(l, a);
      && (a.Enqueue? ==>
            && Copies(l'.buf.events, r, k) <= Copies(l.buf.events, r, k) + Copies([a.e], r, k)
            && l'.inFlight == l.inFlight && l'.accepted == l.accepted)
      && (a.Take? || a.Requeue? ==>
            && Copies(l'.buf.events, r, k) + Copies(l'.inFlight, r, k)
               <= Copies(l.buf.events, r, k) + Copies(l.inFlight, r, k)
            && l'.accepted == l.accepted)
      && (a.Accept? && l.stage.Holding? ==>
            && Copies(l'.accepted, r, k) == Copies(l.accepted, r, k) + Copies(l.inFlight, r, k)
            && l'.inFlight == [] && l'.buf == l.buf)
  {
    hide Carries;
    match a
    case Enqueue(e, now) =>
      var d := l.buf.EnqueueDrop();
      var s := l.buf.events;
      assert s == s[..d] + s[d..];
      CopiesConcat(s[..d], s[d..], r, k);
      CopiesConcat(s[d..], [Batcher.Stamp(e, now)], r, k);
      StampCarries(e, now, r, k);
    case Take =>
      if Runs.Enabled(l, a) {
        assert l.buf.events == l.buf.Batch() + l.buf.Take().events;
        CopiesConcat(l.buf.Batch(), l.buf.Take().events, r, k);
      }
    case Requeue =>
      if Runs.Enabled(l, a) {
        var all := l.inFlight + l.buf.events;
        var d := l.buf.RequeueDrop(l.inFlight);
        CopiesConcat(l.inFlight, l.buf.events, r, k);
        assert all == all[..d] + all[d..];
        CopiesConcat(all[..d], all[d..], r, k);
      }
    case Accept => CopiesConcat(l.accepted, l.inFlight, r, k);
    case _ =>
  }

  lemma StampCarries(e: Event, now: int, r: Ref, k: string)
    ensures Copies([Batcher.Stamp(e, now)], r, k) == Copies([e], r, k)
  {
    assert [e][1..] == [] && [Batcher.Stamp(e, now)][1..] == [];
  }

  // ---------- The schedule ----------

  /** Neither annotation of the copy a reconcile read says that the key was posted. */
  predicate Untold(app: Annotations, k: string) {
    app.reported != k && app.posted != k
  }

  /** The key is acknowledged or about to be, and the reconcile does not know. */
  predicate Overtaken(s: State, r: Ref, k: string)
    requires r in s.locals
  {
    (Holds(s.mem.ackPending, r, k) || s.Current(r).reported == k) && Untold(s.locals[r].app, k)
  }

  /** A reconcile is about to take a missing mark for a missing event. It looks for the in-flight mark
      and the acknowledgement has overtaken it; or it looks for the posting mark, and the acknowledgement
      has overtaken it or a copy is on its way: extracted and not yet prepared, or its post failed. */
  predicate Misled(s: State, r: Ref, k: string) {
    && r in s.locals
    && match s.locals[r].pc
       case ReadInFlight => r !in s.mem.inFlight && Overtaken(s, r, k)
       case FlightPosting => !Holds(s.mem.posting, r, k) && (OnItsWay(s, r, k) > 0 || Overtaken(s, r, k))
       case _ => false
  }

  /** The flusher's next step acknowledges a copy. */
  predicate AckNextIsOwn(f: Flusher, r: Ref, k: string) {
    f.Acking? && f.n < |f.batch| && Carries(f.batch[f.n], r, k)
  }

  /** No reconcile of `r` looks while it is misled. Reads of `r` are current, its report key stays `k` and
      the process does not restart. Everything else interleaves as it likes: reconciles of `r` begin at
      any time, and the flusher, other reporters and other instances step between any two of their
      steps. */
  predicate Allowed(s: State, step: Step, r: Ref, k: string) {
    match step
    case Others(_, _) => true
    case Flush(env) => AckNextIsOwn(s.flusher, r, k) ==> env.age == 0
    case Begin(q, key, age) => q == r ==> key == k && age == 0
    case Reconcile(q, env) => q == r ==> env.age == 0 && !Misled(s, r, k)
    case Restart(_) => false
  }

  function Scheduled(s: State, steps: seq<Step>, r: Ref, k: string): State
    decreases |steps|
  {
    if steps == [] then s
    else Scheduled(if Allowed(s, steps[0], r, k) then Do(s, steps[0]) else s, steps[1..], r, k)
  }

  /** A scheduled run is one of the runs of the system. */
  lemma {:induction false} ScheduledIsRun(s: State, steps: seq<Step>, r: Ref, k: string) returns (kept: seq<Step>)
    ensures Scheduled(s, steps, r, k) == Run(s, kept)
    decreases |steps|
  {
    if steps == [] {
      kept := [];
    } else if Allowed(s, steps[0], r, k) {
      var rest := ScheduledIsRun(Do(s, steps[0]), steps[1..], r, k);
      kept := [steps[0]] + rest;
      assert kept[1..] == rest;
    } else {
      kept := ScheduledIsRun(s, steps[1..], r, k);
    }
  }

  // ---------- The invariant ----------

  function Lookup(m: map<Ref, string>, r: Ref): Option<string> {
    if r in m then Some(m[r]) else None
  }

  /** An event of this instance carries this key or is no managed-storage event. */
  predicate Own(e: Event, r: Ref, k: string) {
    var key := ManagedStorageReportKeyFromEventKey(e.key);
    e.ref == r ==> key == Some(k) || key.None?
  }

  predicate AllOwn(es: seq<Event>, r: Ref, k: string) {
    forall i :: 0 <= i < |es| ==> Own(es[i], r, k)
  }

  predicate OneKey(s: State, r: Ref, k: string) {
    && (r in s.mem.inFlight ==> s.mem.inFlight[r] == k)
    && (r in s.mem.posting ==> s.mem.posting[r] == k)
    && (r in s.mem.ackPending ==> s.mem.ackPending[r] == k)
    && AllOwn(s.line.buf.events, r, k) && AllOwn(s.line.inFlight, r, k)
    && (s.flusher.Acking? ==> AllOwn(s.flusher.batch, r, k))
  }

  /** Accepted events whose pending-ack mark the callback has not set yet. */
  function Unmarked(f: Flusher): seq<Event>
    requires f.Acking? && f.n <= |f.batch|
  {
    if f.n < |f.batch| && !f.at.MarkPending? then f.batch[f.n + 1..] else f.batch[f.n..]
  }

  /** A copy was accepted and the callback has not come to it. */
  predicate UnmarkedCopy(s: State, r: Ref, k: string) {
    s.flusher.Acking? && s.flusher.n <= |s.flusher.batch| && Among(Unmarked(s.flusher), r, k)
  }

  predicate Acked(s: State, r: Ref, k: string) {
    r in s.mem.ackPending || s.Current(r).reported == k || UnmarkedCopy(s, r, k)
  }

  /** patchManagedStorageAck wipes the maps only once the key is reported. */
  predicate AckFact(cur: Annotations, k: string, a: AckPc) {
    && (a.Clear? ==> cur.reported == k)
    && (a.Patch? ==> a.base.reported != k)
  }

  predicate Unreported(s: State, r: Ref, k: string) {
    r !in s.mem.ackPending && s.Current(r).reported != k
  }

  /** No copy is on its way or waits for the callback. */
  predicate NoneLeft(s: State, r: Ref, k: string) {
    OnItsWay(s, r, k) == 0 && !UnmarkedCopy(s, r, k)
  }

  predicate LocalFact(s: State, r: Ref, k: string, l: Local) {
    match l.pc
    case WipeState => s.Current(r).reported == k
    case DropPending => false
    case Ack(a) => AckFact(s.Current(r), k, a) && NoneLeft(s, r, k)
    case DropInFlight => NoneLeft(s, r, k) && (Untold(l.app, k) ==> Unreported(s, r, k))
    case Buffered => NoneLeft(s, r, k) && (Untold(l.app, k) ==> Unreported(s, r, k))
    case Remark => NoneLeft(s, r, k)
    case Claim => NoneLeft(s, r, k) && Unreported(s, r, k)
    case Report => NoneLeft(s, r, k) && Unreported(s, r, k)
    case _ => true
  }

  /** What holds while a reconcile of the instance runs. */
  predicate Busy(s: State, r: Ref, k: string) {
    r in s.locals ==> s.locals[r].key == k && LocalFact(s, r, k, s.locals[r])
  }

  /** The in-flight mark is set, or the running reconcile is about to set it. */
  predicate Marked(s: State, r: Ref) {
    r in s.mem.inFlight || (r in s.locals && s.locals[r].pc.MarkFlight?)
  }

  /** What the flusher's phase says about the instance. */
  predicate Phase(s: State, r: Ref, k: string, n0: nat) {
    && (s.flusher.Preparing? ==>
          s.flusher.n <= |s.flusher.batch| && (Among(s.flusher.batch[..s.flusher.n], r, k) ==> r in s.mem.posting))
    && (s.flusher.Posting? && Copies(s.line.inFlight, r, k) > 0 ==> r in s.mem.posting)
    && (s.flusher.Acking? && Among(s.flusher.batch, r, k) ==> Copies(s.line.accepted, r, k) > n0)
    && (s.flusher.Acking? ==> Copies(s.flusher.batch, r, k) <= 1)
    && (UnmarkedCopy(s, r, k) ==> Unreported(s, r, k) && r in s.mem.posting && Marked(s, r))
    && (s.flusher.Acking? && s.flusher.n < |s.flusher.batch| && s.flusher.at.Confirm? ==>
          (Carries(s.flusher.batch[s.flusher.n], r, k) ==> AckFact(s.Current(r), k, s.flusher.at.a)))
  }

  predicate AtMostOne(s: State, r: Ref, k: string, n0: nat) {
    var c := Copies(s.line.accepted, r, k);
    && OnItsWay(s, r, k) <= 1
    && n0 <= c <= n0 + 1
    && (c > n0 ==> OnItsWay(s, r, k) == 0 && Acked(s, r, k))
    && (r in s.mem.ackPending || s.Current(r).reported == k ==> OnItsWay(s, r, k) == 0)
    && (OnItsWay(s, r, k) > 0 ==> Marked(s, r))
  }

  ghost predicate Single(s: State, r: Ref, k: string, n0: nat) {
    OneKey(s, r, k) && Busy(s, r, k) && Phase(s, r, k, n0) && AtMostOne(s, r, k, n0)
  }

  // ---------- Steps that do not concern the instance ----------

  /** All the invariant looks at besides the event line and the flusher. */
  predicate SameFor(s: State, s': State, r: Ref) {
    && s'.Current(r) == s.Current(r)
    && Lookup(s'.mem.inFlight, r) == Lookup(s.mem.inFlight, r)
    && Lookup(s'.mem.posting, r) == Lookup(s.mem.posting, r)
    && Lookup(s'.mem.ackPending, r) == Lookup(s.mem.ackPending, r)
    && (r in s'.locals <==> r in s.locals) && (r in s.locals ==> s'.locals[r] == s.locals[r])
  }

  /** An enqueue of somebody else's event can only drop copies. */
  lemma ElsewhereSingle(s: State, s': State, r: Ref, k: string, n0: nat, e: Event, now: int)
    requires Single(s, r, k, n0) && SameFor(s, s', r) && s'.flusher == s.flusher
    requires e.ref != r || ManagedStorageReportKeyFromEventKey(e.key).None?
    requires s'.line == s.line || s'.line == Runs.Do(s.line, Runs.Enqueue(e, now))
    ensures Single(s', r, k, n0)
  {
    hide ManagedStorageReportKeyFromEventKey, Copies, Among, Runs.Do, Own;
    LineCopies(s.line, Runs.Enqueue(e, now), r, k);
    NoCopy(e, r, k);
    EnqueueOwn(s.line, e, now, r, k);
  }

  lemma NoCopy(e: Event, r: Ref, k: string)
    requires e.ref != r || ManagedStorageReportKeyFromEventKey(e.key).None?
    ensures Copies([e], r, k) == 0 && Own(e, r, k)
  {
    assert [e][1..] == [];
  }

  lemma EnqueueOwn(l: Runs.Line, e: Event, now: int, r: Ref, k: string)
    requires AllOwn(l.buf.events, r, k) && Own(e, r, k)
    ensures AllOwn(Runs.Do(l, Runs.Enqueue(e, now)).buf.events, r, k)
  {
  }

  lemma PatchElsewhere(s: State, q: Ref, r: Ref, outcome: Outcome, base: Annotations, target: Annotations)
    requires q != r
    ensures Patched(s, q, outcome, base, target).Current(r) == s.Current(r)
  {
  }

  lemma AckElsewhere(s: State, q: Ref, r: Ref, key: string, a: AckPc, env: Env)
    requires q != r
    ensures SameFor(s, AckStep(s, q, key, a, env).0, r)
  {
    if a.Patch? { PatchElsewhere(s, q, r, env.outcome, a.base, Annotations(key, "", "")); }
  }

  lemma ReconcileElsewhere(s: State, q: Ref, r: Ref, env: Env)
    requires q in s.locals && q != r
    ensures SameFor(s, ReconcileStep(s, q, env), r)
  {
    hide ManagedStorageEventKey, Runs.Do, MergePatch, Patched, AckStep, SameFor;
    var Local(pc, key, app) := s.locals[q];
    match pc {
      case DropClaim => ClaimElsewhere(s, q, r, env, app.(claim := ""), ReadPending);
      case Claim => ClaimElsewhere(s, q, r, env, app.(claim := key), Report);
      case Ack(a) =>
        AckElsewhere(s, q, r, key, a, env);
        var (s', next) := AckStep(s, q, key, a, env);
        MoveElsewhere(s, s', q, r, if next.Go? then Local(Ack(next.a), key, app) else s.locals[q]);
      case Report =>
        var a := Runs.Enqueue(StorageEvent(q, key, env.now, env.payload), env.now);
        LineElsewhere(s, r, a);
        MoveElsewhere(s, s.WithLine(a), q, r, Local(MarkFlight, key, app));
      case _ => SimpleElsewhere(s, q, r, env);
    }
  }

  lemma MoveElsewhere(s: State, s': State, q: Ref, r: Ref, l: Local)
    requires q != r && SameFor(s, s', r)
    ensures SameFor(s, s'.Set(q, l), r) && SameFor(s, s'.Finish(q), r)
  {
  }

  lemma ClaimElsewhere(s: State, q: Ref, r: Ref, env: Env, target: Annotations, pc: Pc)
    requires q in s.locals && q != r
    ensures var s' := Patched(s, q, env.outcome, s.locals[q].app, target);
      SameFor(s, s'.Set(q, Local(pc, s.locals[q].key, s'.Current(q))), r) && SameFor(s, s'.Finish(q), r)
  {
    PatchElsewhere(s, q, r, env.outcome, s.locals[q].app, target);
    PatchFrame(s, q, env.outcome, s.locals[q].app, target);
  }

  lemma SimpleElsewhere(s: State, q: Ref, r: Ref, env: Env)
    requires q in s.locals && q != r
    requires var pc := s.locals[q].pc; !pc.DropClaim? && !pc.Claim? && !pc.Ack? && !pc.Report?
    ensures SameFor(s, ReconcileStep(s, q, env), r)
  {
    hide ReconcileStep, SameFor;
    var m, next := SimpleForm(s, q, env);
    TouchElsewhere(s, m, q, r, s.locals[q].key);
    MoveElsewhere(s, s.WithMem(m), q, r, if next.Some? then next.value else s.locals[q]);
  }

  lemma TouchElsewhere(s: State, m: Memory, q: Ref, r: Ref, key: string)
    requires q != r && OwnTouch(s.mem, m, q, key)
    ensures SameFor(s, s.WithMem(m), r)
  {
  }

  lemma LineElsewhere(s: State, r: Ref, a: Runs.Action)
    ensures SameFor(s, s.WithLine(a), r)
  {
    hide Runs.Do;
  }

  lemma PatchFrame(s: State, r: Ref, outcome: Outcome, base: Annotations, target: Annotations)
    ensures var s' := Patched(s, r, outcome, base, target);
      s'.line == s.line && s'.mem == s.mem && s'.flusher == s.flusher && s'.locals == s.locals && s'.cp == s.cp
  {
  }

  // ---------- The instance's own reconcile ----------

  /** What the surrounding invariant gives a reconcile of the instance. */
  ghost predicate Surrounded(s: State, r: Ref, k: string, n0: nat) {
    && Single(s, r, k, n0) && r in s.locals && Plain(r, k)
    && (s.flusher.Preparing? && Copies(s.line.inFlight, r, k) == 0 ==> !Among(s.flusher.batch[..s.flusher.n], r, k))
  }

  /** Moving on without touching anything else. */
  lemma OwnMove(s: State, r: Ref, k: string, n0: nat, l: Local)
    requires Single(s, r, k, n0) && r in s.locals && !s.locals[r].pc.MarkFlight?
    requires l.key == k && LocalFact(s, r, k, l)
    ensures Single(s.Set(r, l), r, k, n0) && Single(s.Finish(r), r, k, n0)
  {
    hide Copies, Among, Own, AllOwn, Carries;
  }

  /** What each look at the in-memory state tells, when it does not mislead. */
  lemma LookFacts(s: State, r: Ref, k: string, n0: nat)
    requires Single(s, r, k, n0) && r in s.locals && !Misled(s, r, k)
    ensures var Local(pc, key, app) := s.locals[r];
      && key == k
      && (r in s.mem.ackPending ==> s.mem.ackPending[r] == k && LocalFact(s, r, k, Local(Ack(Get(0)), k, app)))
      && (r in s.mem.inFlight ==> s.mem.inFlight[r] == k)
      && (pc.ReadInFlight? && r !in s.mem.inFlight ==> LocalFact(s, r, k, Local(Buffered, k, app)))
      && (pc.FlightPosting? && !Holds(s.mem.posting, r, k) ==> LocalFact(s, r, k, Local(DropInFlight, k, app)))
      && (pc.Buffered? && app.posted == k ==> LocalFact(s, r, k, Local(Remark, k, app)))
      && (pc.Buffered? && Untold(app, k) ==>
            LocalFact(s, r, k, Local(Claim, k, app)) && LocalFact(s, r, k, Local(Report, k, app)))
  {
    hide Copies, Among, Own, AllOwn, Carries;
  }

  /** The steps that only look. */
  lemma OwnLook(s: State, r: Ref, k: string, n0: nat, env: Env)
    requires Single(s, r, k, n0) && r in s.locals && !Misled(s, r, k)
    requires var pc := s.locals[r].pc;
      pc.ReadPending? || pc.ReadInFlight? || pc.FlightBuffered? || pc.FlightPosting? || pc.Buffered?
    ensures Single(ReconcileStep(s, r, env), r, k, n0)
  {
    LookFacts(s, r, k, n0);
    Unburdened(s, r, k, s.locals[r].app);
    hide Single, ManagedStorageEventKey, Runs.Do, MergePatch, Copies, LocalFact, Misled;
    var s', app := ReconcileStep(s, r, env), s.locals[r].app;
    OwnMove(s, r, k, n0, Local(FlightBuffered, k, app));
    if r in s'.locals {
      assert s' == s.Set(r, s'.locals[r]) && s'.locals[r].key == k;
      OwnMove(s, r, k, n0, s'.locals[r]);
    }
  }

  lemma Unburdened(s: State, r: Ref, k: string, app: Annotations)
    ensures LocalFact(s, r, k, Local(ReadInFlight, k, app)) && LocalFact(s, r, k, Local(FlightBuffered, k, app))
    ensures LocalFact(s, r, k, Local(FlightPosting, k, app))
  {
  }

  lemma OwnMark(s: State, r: Ref, k: string, n0: nat, env: Env)
    requires Surrounded(s, r, k, n0)
    requires var pc := s.locals[r].pc;
      pc.WipeState? || pc.DropInFlight? || pc.Remark? || pc.MarkFlight?
    ensures Single(ReconcileStep(s, r, env), r, k, n0)
  {
    hide ManagedStorageEventKey, ManagedStorageReportKeyFromEventKey, Copies, Among, Own, MergePatch, Runs.Do;
  }

  lemma OwnReport(s: State, r: Ref, k: string, n0: nat, env: Env)
    requires Surrounded(s, r, k, n0) && s.locals[r].pc.Report?
    ensures Single(ReconcileStep(s, r, env), r, k, n0)
  {
    hide ManagedStorageEventKey, ManagedStorageReportKeyFromEventKey, Copies, Among, Own, MergePatch, Runs.Do;
    var e := StorageEvent(r, k, env.now, env.payload);
    OneCopy(r, k, env);
    LineCopies(s.line, Runs.Enqueue(e, env.now), r, k);
    EnqueueOwn(s.line, e, env.now, r, k);
  }

  lemma OneCopy(r: Ref, k: string, env: Env)
    requires Plain(r, k)
    ensures var e := StorageEvent(r, k, env.now, env.payload); Copies([e], r, k) == 1 && Own(e, r, k)
  {
    var e := StorageEvent(r, k, env.now, env.payload);
    StorageEventWellKeyed(r, k, env.now, env.payload);
    assert [e][1..] == [];
  }

  /** A claim patch changes nothing but the claim. */
  lemma ClaimPatch(s: State, r: Ref, outcome: Outcome, app: Annotations, claim: string)
    ensures var a := Patched(s, r, outcome, app, app.(claim := claim)).Current(r);
      a.reported == s.Current(r).reported && a.posted == s.Current(r).posted
  {
  }

  /** Past a claim patch the reconcile ends or goes on with what the server answered. */
  lemma OwnPatched(s: State, p: State, r: Ref, k: string, n0: nat, pc: Pc)
    requires Surrounded(s, r, k, n0) && p.Current(r).reported == s.Current(r).reported
    requires p.line == s.line && p.mem == s.mem && p.flusher == s.flusher && p.locals == s.locals
    requires (pc.ReadPending? && s.locals[r].pc.DropClaim?) || (pc.Report? && s.locals[r].pc.Claim?)
    ensures Single(p.Set(r, Local(pc, k, p.Current(r))), r, k, n0) && Single(p.Finish(r), r, k, n0)
  {
    hide ManagedStorageEventKey, ManagedStorageReportKeyFromEventKey, Copies, Among, Own, Runs.Do;
  }

  lemma OwnClaim(s: State, r: Ref, k: string, n0: nat, env: Env)
    requires Surrounded(s, r, k, n0) && (s.locals[r].pc.Claim? || s.locals[r].pc.DropClaim?)
    ensures Single(ReconcileStep(s, r, env), r, k, n0)
  {
    var Local(pc, key, app) := s.locals[r];
    assert key == k;
    hide Single, Surrounded, Patched, MergePatch, Runs.Do, ManagedStorageEventKey;
    var claim := if pc.Claim? then k else "";
    var p := Patched(s, r, env.outcome, app, app.(claim := claim));
    ClaimPatch(s, r, env.outcome, app, claim);
    PatchFrame(s, r, env.outcome, app, app.(claim := claim));
    OwnPatched(s, p, r, k, n0, if pc.Claim? then Report else ReadPending);
  }

  lemma AckPatch(s: State, r: Ref, k: string, outcome: Outcome, base: Annotations)
    requires base.reported != k
    ensures var a := Patched(s, r, outcome, base, Annotations(k, "", "")).Current(r);
      a.reported == (if outcome.Ok? || outcome.Lost? then k else s.Current(r).reported)
  {
  }

  lemma OwnAck(s: State, r: Ref, k: string, n0: nat, env: Env)
    requires Surrounded(s, r, k, n0) && s.locals[r].pc.Ack? && env.age == 0
    ensures Single(ReconcileStep(s, r, env), r, k, n0)
  {
    hide ManagedStorageEventKey, ManagedStorageReportKeyFromEventKey, Copies, Among, Own, Runs.Do, Patched, MergePatch;
    var a, app := s.locals[r].pc.a, s.locals[r].app;
    if a.Patch? {
      AckPatch(s, r, k, env.outcome, a.base);
      PatchFrame(s, r, env.outcome, a.base, Annotations(k, "", ""));
      var s1 := Patched(s, r, env.outcome, a.base, Annotations(k, "", ""));
      OwnAckMove(s, s1, r, k, n0, AckStep(s, r, k, a, env).1);
    } else if a.Get? {
      OwnAckMove(s, s, r, k, n0, AckStep(s, r, k, a, env).1);
    } else {
      OwnAckClear(s, r, k, n0, env);
    }
  }

  lemma OwnAckClear(s: State, r: Ref, k: string, n0: nat, env: Env)
    requires Surrounded(s, r, k, n0) && s.locals[r].pc.Ack? && s.locals[r].pc.a.Clear?
    ensures Single(ReconcileStep(s, r, env), r, k, n0)
  {
    hide ManagedStorageEventKey, ManagedStorageReportKeyFromEventKey, Copies, Among, Own, Runs.Do, Patched, MergePatch;
  }

  /** Moving on inside patchManagedStorageAck; the key may have become the reported one. */
  lemma OwnAckMove(s: State, s1: State, r: Ref, k: string, n0: nat, next: AckNext)
    requires Surrounded(s, r, k, n0) && s.locals[r].pc.Ack?
    requires s1.line == s.line && s1.mem == s.mem && s1.flusher == s.flusher && s1.locals == s.locals
    requires s1.Current(r).reported == k || s1.Current(r).reported == s.Current(r).reported
    requires next.Go? ==> AckFact(s1.Current(r), k, next.a)
    ensures next.Go? ==> Single(s1.Set(r, Local(Ack(next.a), k, s.locals[r].app)), r, k, n0)
    ensures Single(s1.Finish(r), r, k, n0)
  {
    hide ManagedStorageEventKey, ManagedStorageReportKeyFromEventKey, Copies, Among, Own, Runs.Do, Patched, MergePatch;
  }

  lemma OwnBegin(s: State, r: Ref, k: string, n0: nat)
    requires Single(s, r, k, n0) && Enabled(s, Begin(r, k, 0))
    ensures Single(Do(s, Begin(r, k, 0)), r, k, n0)
  {
    hide ManagedStorageEventKey, ManagedStorageReportKeyFromEventKey, Copies, Among, Own, Runs.Do;
  }

  lemma OwnStep(s: State, r: Ref, k: string, n0: nat, env: Env)
    requires Inv(s) && Single(s, r, k, n0) && r in s.locals && env.age == 0 && !Misled(s, r, k)
    ensures Single(ReconcileStep(s, r, env), r, k, n0)
  {
    OwnSurrounded(s, r, k, n0);
    OwnCases(s, r, k, n0, env);
  }

  lemma OwnSurrounded(s: State, r: Ref, k: string, n0: nat)
    requires Inv(s) && Single(s, r, k, n0) && r in s.locals
    ensures Surrounded(s, r, k, n0)
  {
    PlainKey(s, r);
    if s.flusher.Preparing? && Among(s.flusher.batch[..s.flusher.n], r, k) {
      AmongPart(s.flusher.batch, s.flusher.n, r, k);
      CopiesAmong(s.line.inFlight, r, k);
    }
  }

  lemma OwnCases(s: State, r: Ref, k: string, n0: nat, env: Env)
    requires Surrounded(s, r, k, n0) && env.age == 0 && !Misled(s, r, k)
    ensures Single(ReconcileStep(s, r, env), r, k, n0)
  {
    hide ReconcileStep, Copies;
    var pc := s.locals[r].pc;
    if pc.Report? { OwnReport(s, r, k, n0, env); }
    else if pc.Ack? { OwnAck(s, r, k, n0, env); }
    else if pc.Claim? || pc.DropClaim? { OwnClaim(s, r, k, n0, env); }
    else if pc.WipeState? || pc.DropInFlight? || pc.Remark? || pc.MarkFlight? { OwnMark(s, r, k, n0, env); }
    else { OwnLook(s, r, k, n0, env); }
  }

  // ---------- The flusher ----------

  lemma TakeSingle(s: State, r: Ref, k: string, n0: nat, env: Env)
    requires InHand(s) && Single(s, r, k, n0) && s.flusher.Idle?
    ensures Single(FlushStep(s, env), r, k, n0)
  {
    hide Copies, Among, Own, AllOwn, Carries, Runs.Do, AckEventStep;
    LineCopies(s.line, Runs.Take, r, k);
    LineOwn(s.line, Runs.Take, r, k);
  }

  lemma TakenSingle(s: State, r: Ref, k: string, n0: nat, env: Env)
    requires InHand(s) && Single(s, r, k, n0) && s.flusher.Taken?
    ensures Single(FlushStep(s, env), r, k, n0)
  {
    hide Copies, Among, Own, AllOwn, Carries, Runs.Do, AckEventStep;
    LineOwn(s.line, Runs.Discard, r, k);
    NoneAmong(r, k);
    assert !env.hasClient || s.flusher.batch[..0] == [];
  }

  lemma NoneAmong(r: Ref, k: string)
    ensures !Among([], r, k) && Copies([], r, k) == 0
  {
  }

  lemma LineOwn(l: Runs.Line, a: Runs.Action, r: Ref, k: string)
    requires AllOwn(l.buf.events, r, k) && AllOwn(l.inFlight, r, k) && !a.Enqueue?
    ensures AllOwn(Runs.Do(l, a).buf.events, r, k) && AllOwn(Runs.Do(l, a).inFlight, r, k)
    ensures a.Discard? || a.Close? ==> Runs.Do(l, a).buf.events == l.buf.events && Runs.Do(l, a).accepted == l.accepted
    ensures a.Discard? && l.stage.Holding? ==> Runs.Do(l, a).inFlight == []
    ensures a.Close? ==> Runs.Do(l, a).inFlight == l.inFlight
  {
    hide Own;
  }

  lemma AmongPart(es: seq<Event>, n: nat, r: Ref, k: string)
    requires n <= |es| && Among(es[..n], r, k)
    ensures Among(es, r, k)
  {
    hide Carries;
    var i :| 0 <= i < |es[..n]| && Carries(es[..n][i], r, k);
    assert es[i] == es[..n][i];
  }

  /** Where there is one copy, no other event is a copy. */
  lemma OnlyCarrier(es: seq<Event>, n: nat, r: Ref, k: string)
    requires n < |es| && Carries(es[n], r, k) && Copies(es, r, k) <= 1
    ensures !Among(es[n + 1..], r, k)
  {
    hide Carries;
    assert es == es[..n] + ([es[n]] + es[n + 1..]);
    CopiesConcat(es[..n], [es[n]] + es[n + 1..], r, k);
    CopiesConcat([es[n]], es[n + 1..], r, k);
    assert [es[n]][1..] == [];
    CopiesAmong(es[n + 1..], r, k);
  }

  lemma AmongPrefix(es: seq<Event>, n: nat, r: Ref, k: string)
    requires n < |es| && Among(es[..n + 1], r, k)
    ensures Among(es[..n], r, k) || Carries(es[n], r, k)
  {
    hide Carries;
    var i :| 0 <= i < |es[..n + 1]| && Carries(es[..n + 1][i], r, k);
    if i < n { assert es[..n][i] == es[..n + 1][i]; }
  }

  lemma AmongSuffix(es: seq<Event>, n: nat, r: Ref, k: string)
    requires n < |es| && Among(es[n..], r, k)
    ensures Among(es[n + 1..], r, k) || Carries(es[n], r, k)
  {
    hide Carries;
    var i :| 0 <= i < |es[n..]| && Carries(es[n..][i], r, k);
    if i > 0 { assert es[n + 1..][i - 1] == es[n..][i]; }
  }

  lemma OwnPrepare(m: Memory, e: Event, r: Ref, k: string)
    requires Own(e, r, k) && (r in m.posting ==> m.posting[r] == k)
    ensures var m' := PrepareOne(m, e);
      && m'.inFlight == m.inFlight && m'.ackPending == m.ackPending
      && (r in m'.posting ==> m'.posting[r] == k)
      && (r in m.posting || Carries(e, r, k) ==> r in m'.posting)
  {
  }

  lemma PreparingSingle(s: State, r: Ref, k: string, n0: nat, env: Env)
    requires InHand(s) && Single(s, r, k, n0) && s.flusher.Preparing?
    ensures Single(FlushStep(s, env), r, k, n0)
  {
    hide Single, AckEventStep, PrepareOne, Runs.Do;
    var Preparing(b, n) := s.flusher;
    if n < |b| {
      PreparedFacts(s, r, k, n0);
      PreparedOne(s, PrepareOne(s.mem, b[n]), r, k, n0);
    } else {
      PreparedAll(s, r, k, n0);
    }
  }

  lemma PreparedFacts(s: State, r: Ref, k: string, n0: nat)
    requires InHand(s) && Single(s, r, k, n0) && s.flusher.Preparing? && s.flusher.n < |s.flusher.batch|
    ensures var b, n := s.flusher.batch, s.flusher.n;
      var m := PrepareOne(s.mem, b[n]);
      && m.inFlight == s.mem.inFlight && m.ackPending == s.mem.ackPending
      && (r in m.posting ==> m.posting[r] == k) && (Among(b[..n + 1], r, k) ==> r in m.posting)
  {
    var b, n := s.flusher.batch, s.flusher.n;
    assert Own(b[n], r, k) && (Among(b[..n], r, k) ==> r in s.mem.posting);
    assert r in s.mem.posting ==> s.mem.posting[r] == k;
    hide Single, Among, Own, Carries, PrepareOne;
    OwnPrepare(s.mem, b[n], r, k);
    if Among(b[..n + 1], r, k) { AmongPrefix(b, n, r, k); }
  }

  lemma PreparedOne(s: State, m: Memory, r: Ref, k: string, n0: nat)
    requires Single(s, r, k, n0) && s.flusher.Preparing? && s.flusher.n < |s.flusher.batch|
    requires m.inFlight == s.mem.inFlight && m.ackPending == s.mem.ackPending
    requires (r in m.posting ==> m.posting[r] == k)
      && (Among(s.flusher.batch[..s.flusher.n + 1], r, k) ==> r in m.posting)
    ensures Single(s.WithMem(m).At(Preparing(s.flusher.batch, s.flusher.n + 1)), r, k, n0)
  {
    hide Copies, Among, Own, AllOwn, Carries;
  }

  lemma PreparedAll(s: State, r: Ref, k: string, n0: nat)
    requires Single(s, r, k, n0) && s.flusher.Preparing? && InHand(s) && s.flusher.n == |s.flusher.batch|
    ensures Single(s.At(Posting(s.flusher.batch)), r, k, n0)
  {
    hide Copies, Among, Own, AllOwn, Carries;
    var b := s.flusher.batch;
    assert b[..s.flusher.n] == b;
    CopiesAmong(b, r, k);
  }

  lemma OwnAbort(m: Memory, e: Event, r: Ref, k: string)
    requires r in m.posting ==> m.posting[r] == k
    ensures var m' := AbortOne(m, e);
      && m'.inFlight == m.inFlight && m'.ackPending == m.ackPending
      && (r in m'.posting ==> m'.posting[r] == k)
  {
  }

  lemma AbortingSingle(s: State, r: Ref, k: string, n0: nat, env: Env)
    requires Single(s, r, k, n0) && s.flusher.Aborting?
    ensures Single(FlushStep(s, env), r, k, n0)
  {
    hide Copies, Among, Own, AllOwn, Carries, Runs.Do, AckEventStep, AbortOne;
    var Aborting(b, n) := s.flusher;
    if n < |b| { OwnAbort(s.mem, b[n], r, k); }
  }

  lemma AbortedSingle(s: State, r: Ref, k: string, n0: nat, env: Env)
    requires InHand(s) && Single(s, r, k, n0) && s.flusher.Aborted?
    ensures Single(FlushStep(s, env), r, k, n0)
  {
    hide Copies, Among, Own, AllOwn, Carries, Runs.Do, AckEventStep;
    LineCopies(s.line, Runs.Requeue, r, k);
    LineOwn(s.line, Runs.Requeue, r, k);
  }

  lemma PostingSingle(s: State, r: Ref, k: string, n0: nat, env: Env)
    requires InHand(s) && Single(s, r, k, n0) && s.flusher.Posting?
    ensures Single(FlushStep(s, env), r, k, n0)
  {
    hide Copies, Among, Own, AllOwn, Carries, Runs.Do, AckEventStep;
    if env.outcome.Ok? {
      AcceptedSingle(s, s.Post(s.flusher.batch), r, k, n0);
    } else {
      RefusedSingle(s, if env.outcome.Lost? then s.Post(s.flusher.batch) else s, r, k, n0);
    }
  }

  lemma RefusedSingle(s: State, s1: State, r: Ref, k: string, n0: nat)
    requires Single(s, r, k, n0) && s.flusher.Posting?
    requires s1 == s.(cp := s1.cp)
    ensures Single(s1.At(Aborting(s.flusher.batch, 0)), r, k, n0)
  {
    hide Copies, Among, Own, AllOwn, Carries, Runs.Do, AckEventStep;
  }

  lemma AcceptedSingle(s: State, s1: State, r: Ref, k: string, n0: nat)
    requires InHand(s) && Single(s, r, k, n0) && s.flusher.Posting?
    requires s1 == s.(cp := s1.cp)
    ensures Single(s1.WithLine(Runs.Accept).At(Acking(s.flusher.batch, 0, AckAt.MarkPending)), r, k, n0)
  {
    var b := s.flusher.batch;
    assert AllOwn(b, r, k);
    LineCopies(s.line, Runs.Accept, r, k);
    CopiesAmong(b, r, k);
    NoneAmong(r, k);
    hide Single, Copies, Among, AllOwn, Runs.Do;
    AcceptedLine(s, s1.WithLine(Runs.Accept), r, k, n0);
  }

  /** The batch has joined the accepted events, and the callback begins. */
  lemma AcceptedLine(s: State, s1: State, r: Ref, k: string, n0: nat)
    requires Single(s, r, k, n0) && s.flusher.Posting? && s1.mem == s.mem && s1.locals == s.locals
    requires s1.history == s.history && s1.line.buf == s.line.buf && s1.line.inFlight == []
    requires var b := s.flusher.batch;
      && AllOwn(b, r, k) && AllOwn([], r, k) && Copies([], r, k) == 0
      && Copies(b, r, k) == Copies(s.line.inFlight, r, k) && (Copies(b, r, k) > 0 <==> Among(b, r, k))
      && Copies(s1.line.accepted, r, k) == Copies(s.line.accepted, r, k) + Copies(b, r, k)
    ensures Single(s1.At(Acking(s.flusher.batch, 0, AckAt.MarkPending)), r, k, n0)
  {
    hide Copies, Among, Own, AllOwn, Carries;
    assert s1.Current(r) == s.Current(r);
    assert Unmarked(Acking(s.flusher.batch, 0, AckAt.MarkPending)) == s.flusher.batch;
  }

  lemma ClosingSingle(s: State, r: Ref, k: string, n0: nat, env: Env)
    requires InHand(s) && Single(s, r, k, n0)
    requires s.flusher.Closing? || (s.flusher.Acking? && s.flusher.n == |s.flusher.batch|)
    ensures Single(FlushStep(s, env), r, k, n0)
  {
    hide Copies, Among, Own, AllOwn, Carries, Runs.Do, AckEventStep;
    LineOwn(s.line, Runs.Close, r, k);
    NoneAmong(r, k);
    if s.flusher.Acking? { assert s.flusher.batch[s.flusher.n..] == []; }
  }

  // ---------- The acknowledgement callback ----------

  /** The callback moves past or along an event that is not a copy: what is unmarked stays so. */
  lemma AckOtherSingle(s: State, s': State, r: Ref, k: string, n0: nat)
    requires Single(s, r, k, n0) && s.flusher.Acking? && s.flusher.n < |s.flusher.batch|
    requires !Carries(s.flusher.batch[s.flusher.n], r, k)
    requires SameFor(s, s', r) && s'.line == s.line
    requires s'.flusher.Acking? && s'.flusher.batch == s.flusher.batch && s'.flusher.n <= |s.flusher.batch|
    requires s'.flusher.n == s.flusher.n || (s'.flusher.n == s.flusher.n + 1 && s'.flusher.at.MarkPending?)
    requires s'.flusher.n == s.flusher.n && s'.flusher.at.MarkPending? ==> s.flusher.at.MarkPending?
    ensures Single(s', r, k, n0)
  {
    hide ManagedStorageEventKey, ManagedStorageReportKeyFromEventKey, EndpointsReportKeyFromEventKey, Copies, Among,
      Own, Runs.Do, Patched, MergePatch;
    var b, n := s.flusher.batch, s.flusher.n;
    if Among(b[n..], r, k) { AmongSuffix(b, n, r, k); }
    if Among(b[n + 1..], r, k) { AmongFurther(b, n, r, k); }
  }

  lemma AmongFurther(es: seq<Event>, n: nat, r: Ref, k: string)
    requires n < |es| && Among(es[n + 1..], r, k)
    ensures Among(es[n..], r, k) && Among(es, r, k)
  {
    hide Carries;
    var i :| 0 <= i < |es[n + 1..]| && Carries(es[n + 1..][i], r, k);
    assert es[n..][i + 1] == es[n + 1..][i] && es[n + 1 + i] == es[n + 1..][i];
  }

  lemma AckEventElsewhere(s: State, r: Ref, k: string, env: Env)
    requires s.flusher.Acking? && s.flusher.n < |s.flusher.batch|
    requires var e := s.flusher.batch[s.flusher.n]; AckKey(e).None? || e.ref != r
    ensures var s' := AckEventStep(s, s.flusher.batch, s.flusher.n, s.flusher.at, env);
      && SameFor(s, s', r)
      && (s'.flusher.Acking? && s'.flusher.n == s.flusher.n && s'.flusher.at.MarkPending? ==> s.flusher.at.MarkPending?)
  {
    hide AckKey, Patched, MergePatch, AckStep, SameFor;
    var Acking(b, n, at) := s.flusher;
    var e := b[n];
    MarksElsewhere(s, e, r);
    if AckKey(e).Some? {
      if at.PatchPosted? {
        PatchElsewhere(s, e.ref, r, env.outcome, at.base, at.base.(posted := AckKey(e).value));
        PatchFrame(s, e.ref, env.outcome, at.base, at.base.(posted := AckKey(e).value));
        SameAt(s, Patched(s, e.ref, env.outcome, at.base, at.base.(posted := AckKey(e).value)), r);
      }
      if at.Confirm? { AckElsewhere(s, e.ref, r, AckKey(e).value, at.a, env); }
    }
    var s' := AckEventStep(s, b, n, at, env);
    FlusherElsewhere(s, s, s'.flusher, r);
    if AckKey(e).Some? && e.ref != r {
      var key := AckKey(e).value;
      FlusherElsewhere(s, s.WithMem(s.mem.MarkAckPending(e.ref, key)), s'.flusher, r);
      FlusherElsewhere(s, s.WithMem(s.mem.ClearInFlight(e.ref)), s'.flusher, r);
      FlusherElsewhere(s, s.WithMem(s.mem.ClearPosting(e.ref, key)), s'.flusher, r);
      if at.PatchPosted? {
        FlusherElsewhere(s, Patched(s, e.ref, env.outcome, at.base, at.base.(posted := key)), s'.flusher, r);
      }
      if at.Confirm? { FlusherElsewhere(s, AckStep(s, e.ref, key, at.a, env).0, s'.flusher, r); }
    }
  }

  lemma MarksElsewhere(s: State, e: Event, r: Ref)
    ensures SameFor(s, s, r)
    ensures e.ref != r && AckKey(e).Some? ==>
      && SameFor(s, s.WithMem(s.mem.MarkAckPending(e.ref, AckKey(e).value)), r)
      && SameFor(s, s.WithMem(s.mem.ClearInFlight(e.ref)), r)
      && SameFor(s, s.WithMem(s.mem.ClearPosting(e.ref, AckKey(e).value)), r)
  {
    hide AckKey;
  }

  lemma SameAt(s: State, s': State, r: Ref)
    requires s'.Current(r) == s.Current(r) && s'.mem == s.mem && s'.locals == s.locals
    ensures SameFor(s, s', r)
  {
  }

  lemma FlusherElsewhere(s: State, s': State, f: Flusher, r: Ref)
    requires SameFor(s, s', r)
    ensures SameFor(s, s'.At(f), r)
  {
  }

  /** The event is the copy: it has been accepted, so none is on its way. */
  ghost predicate AckingOwn(s: State, r: Ref, k: string, n0: nat) {
    && Single(s, r, k, n0) && s.flusher.Acking? && s.flusher.n < |s.flusher.batch|
    && s.flusher.batch[s.flusher.n].ref == r && AckKey(s.flusher.batch[s.flusher.n]) == Some(k)
    && Copies(s.line.accepted, r, k) > n0
    && !Among(s.flusher.batch[s.flusher.n + 1..], r, k)
  }

  lemma AckOwnMark(s: State, r: Ref, k: string, n0: nat, env: Env)
    requires AckingOwn(s, r, k, n0)
    requires s.flusher.at.MarkPending? || s.flusher.at.DropFlight? || s.flusher.at.DropPosting?
    ensures Single(AckEventStep(s, s.flusher.batch, s.flusher.n, s.flusher.at, env), r, k, n0)
  {
    hide ManagedStorageEventKey, ManagedStorageReportKeyFromEventKey, AckKey, Copies, Among, Own, Runs.Do, Patched,
      MergePatch;
    var Acking(b, n, at) := s.flusher;
    match at
    case MarkPending => AckOwnMem(s, s.mem.MarkAckPending(r, k), r, k, n0, DropFlight);
    case DropFlight => AckOwnMem(s, s.mem.ClearInFlight(r), r, k, n0, AckAt.DropPosting);
    case _ => AckOwnMem(s, s.mem.ClearPosting(r, k), r, k, n0, GetPosted);
  }

  lemma AckOwnMem(s: State, m: Memory, r: Ref, k: string, n0: nat, at: AckAt)
    requires AckingOwn(s, r, k, n0) && !at.MarkPending? && !at.Confirm?
    requires r in m.inFlight ==> m.inFlight[r] == k
    requires r in m.posting ==> m.posting[r] == k
    requires Lookup(m.ackPending, r) == Some(k)
      || (!s.flusher.at.MarkPending? && Lookup(m.ackPending, r) == Lookup(s.mem.ackPending, r))
    ensures Single(s.WithMem(m).At(Acking(s.flusher.batch, s.flusher.n, at)), r, k, n0)
  {
    hide ManagedStorageEventKey, ManagedStorageReportKeyFromEventKey, AckKey, Copies, Among, Own, Runs.Do, Patched,
      MergePatch;
  }

  lemma AckOwnMove(s: State, s1: State, r: Ref, k: string, n0: nat, f: Flusher)
    requires AckingOwn(s, r, k, n0) && !s.flusher.at.MarkPending?
    requires s1.line == s.line && s1.mem == s.mem && s1.flusher == s.flusher && s1.locals == s.locals
    requires s1.Current(r).reported == k || s1.Current(r).reported == s.Current(r).reported
    requires f.Acking? && f.batch == s.flusher.batch
    requires (f.n == s.flusher.n && !f.at.MarkPending?) || (f.n == s.flusher.n + 1 && f.at.MarkPending?)
    requires f.n == s.flusher.n && f.at.Confirm? ==> AckFact(s1.Current(r), k, f.at.a)
    ensures Single(s1.At(f), r, k, n0)
  {
    hide AckKey, Copies, Among, Own, AllOwn, Carries, Runs.Do;
    assert Unmarked(f) == s.flusher.batch[s.flusher.n + 1..];
  }

  lemma AckOwnGet(s: State, r: Ref, k: string, n0: nat, env: Env)
    requires AckingOwn(s, r, k, n0) && s.flusher.at.GetPosted?
    ensures Single(AckEventStep(s, s.flusher.batch, s.flusher.n, s.flusher.at, env), r, k, n0)
  {
    hide ManagedStorageEventKey, ManagedStorageReportKeyFromEventKey, AckKey, Copies, Among, Own, Runs.Do, Single,
      Acked;
    var Acking(b, n, at) := s.flusher;
    var base := s.Snapshot(r, env.age);
    AckOwnMove(s, s, r, k, n0,
      if !env.outcome.Ok? then Acking(b, n + 1, AckAt.MarkPending)
      else Acking(b, n, if base.posted == k then Confirm(Get(0)) else PatchPosted(base)));
  }

  lemma AckOwnPatch(s: State, r: Ref, k: string, n0: nat, env: Env)
    requires AckingOwn(s, r, k, n0) && s.flusher.at.PatchPosted?
    ensures Single(AckEventStep(s, s.flusher.batch, s.flusher.n, s.flusher.at, env), r, k, n0)
  {
    hide ManagedStorageEventKey, ManagedStorageReportKeyFromEventKey, AckKey, Copies, Among, Own, Runs.Do, Single,
      Acked;
    var Acking(b, n, at) := s.flusher;
    var target := at.base.(posted := k);
    var s1 := Patched(s, r, env.outcome, at.base, target);
    PatchFrame(s, r, env.outcome, at.base, target);
    assert s1.Current(r).reported == s.Current(r).reported;
    AckOwnMove(s, s1, r, k, n0, if env.outcome.Ok? then Acking(b, n, Confirm(Get(0)))
      else Acking(b, n + 1, AckAt.MarkPending));
  }

  lemma AckOwnConfirm(s: State, r: Ref, k: string, n0: nat, env: Env)
    requires AckingOwn(s, r, k, n0) && s.flusher.at.Confirm? && !s.flusher.at.a.Clear? && env.age == 0
    requires AckFact(s.Current(r), k, s.flusher.at.a)
    ensures Single(AckEventStep(s, s.flusher.batch, s.flusher.n, s.flusher.at, env), r, k, n0)
  {
    hide ManagedStorageEventKey, ManagedStorageReportKeyFromEventKey, AckKey, Copies, Among, Own, Runs.Do, Single,
      Acked, Patched;
    var Acking(b, n, at) := s.flusher;
    var (s1, next) := AckStep(s, r, k, at.a, env);
    if at.a.Patch? {
      AckPatch(s, r, k, env.outcome, at.a.base);
      PatchFrame(s, r, env.outcome, at.a.base, Annotations(k, "", ""));
    }
    AckOwnMove(s, s1, r, k, n0, if next.Go? then Acking(b, n, Confirm(next.a))
      else Acking(b, n + 1, AckAt.MarkPending));
  }

  lemma AckOwnClear(s: State, r: Ref, k: string, n0: nat, env: Env)
    requires AckingOwn(s, r, k, n0) && s.flusher.at.Confirm? && s.flusher.at.a.Clear? && s.Current(r).reported == k
    ensures Single(AckEventStep(s, s.flusher.batch, s.flusher.n, s.flusher.at, env), r, k, n0)
  {
    hide ManagedStorageEventKey, ManagedStorageReportKeyFromEventKey, AckKey, Copies, Among, Own, Runs.Do, Patched,
      MergePatch;
  }

  lemma AckingSingle(s: State, r: Ref, k: string, n0: nat, env: Env)
    requires InHand(s) && Single(s, r, k, n0) && (AckNextIsOwn(s.flusher, r, k) ==> env.age == 0)
    requires s.flusher.Acking? && s.flusher.n < |s.flusher.batch|
    ensures Single(AckEventStep(s, s.flusher.batch, s.flusher.n, s.flusher.at, env), r, k, n0)
  {
    hide ManagedStorageReportKeyFromEventKey, EndpointsReportKeyFromEventKey, AckKey, AckEventStep, Copies;
    var Acking(b, n, at) := s.flusher;
    assert WellKeyed(b[n]) && Own(b[n], r, k);
    AckKeyAgrees(b[n]);
    if AckKey(b[n]).None? || b[n].ref != r {
      AckEventFrame(s, env);
      AckEventElsewhere(s, r, k, env);
      AckOtherSingle(s, AckEventStep(s, b, n, at, env), r, k, n0);
    } else {
      assert Carries(b[n], r, k);
      assert Among(b, r, k);
      OnlyCarrier(b, n, r, k);
      if at.PatchPosted? { AckOwnPatch(s, r, k, n0, env); }
      else if at.GetPosted? { AckOwnGet(s, r, k, n0, env); }
      else if at.Confirm? && at.a.Clear? { AckOwnClear(s, r, k, n0, env); }
      else if at.Confirm? { AckOwnConfirm(s, r, k, n0, env); }
      else { AckOwnMark(s, r, k, n0, env); }
    }
  }

  lemma FlushSingle(s: State, r: Ref, k: string, n0: nat, env: Env)
    requires InHand(s) && Single(s, r, k, n0) && (AckNextIsOwn(s.flusher, r, k) ==> env.age == 0)
    ensures Single(FlushStep(s, env), r, k, n0)
  {
    hide Single, AckEventStep;
    match s.flusher
    case Preparing(_, _) => PreparingSingle(s, r, k, n0, env);
    case Posting(_) => PostingSingle(s, r, k, n0, env);
    case Aborting(_, _) => AbortingSingle(s, r, k, n0, env);
    case Aborted(_) => AbortedSingle(s, r, k, n0, env);
    case Acking(b, n, at) =>
      if n < |b| { AckingSingle(s, r, k, n0, env); } else { ClosingSingle(s, r, k, n0, env); }
    case Closing => ClosingSingle(s, r, k, n0, env);
    case Idle => TakeSingle(s, r, k, n0, env);
    case Taken(_) => TakenSingle(s, r, k, n0, env);
  }

  lemma ReconcileOtherSingle(s: State, q: Ref, r: Ref, k: string, n0: nat, env: Env)
    requires Single(s, r, k, n0) && q in s.locals && q != r
    ensures Single(ReconcileStep(s, q, env), r, k, n0)
  {
    hide ReconcileStep, Runs.Do, Single, ManagedStorageEventKey, ManagedStorageReportKeyFromEventKey;
    ReconcileFrame(s, q, env);
    ReconcileElsewhere(s, q, r, env);
    ElsewhereSingle(s, ReconcileStep(s, q, env), r, k, n0, StorageEvent(q, s.locals[q].key, env.now, env.payload),
      env.now);
  }

  lemma StepSingle(s: State, step: Step, r: Ref, k: string, n0: nat)
    requires Inv(s) && Single(s, r, k, n0) && Allowed(s, step, r, k) && Enabled(s, step)
    ensures Single(Do(s, step), r, k, n0)
  {
    hide Inv, FlushStep, ReconcileStep, Single, ManagedStorageReportKeyFromEventKey;
    match step
    case Others(e, now) => ElsewhereSingle(s, s.WithLine(Runs.Enqueue(e, now)), r, k, n0, e, now);
    case Flush(env) => InHandOf(s); FlushSingle(s, r, k, n0, env);
    case Begin(q, key, age) =>
      if q == r { OwnBegin(s, r, k, n0); }
      else {
        var none := Event("", Ref("", ""), "", 0, 0);
        NoneKey();
        ElsewhereSingle(s, Do(s, step), r, k, n0, none, 0);
      }
    case Reconcile(q, env) =>
      if q == r { OwnStep(s, r, k, n0, env); } else { ReconcileOtherSingle(s, q, r, k, n0, env); }
  }

  lemma InHandOf(s: State)
    requires Inv(s)
    ensures InHand(s)
  {
  }

  lemma NoneKey()
    ensures ManagedStorageReportKeyFromEventKey("").None?
  {
  }

  lemma {:induction false} ScheduledSingle(s: State, steps: seq<Step>, r: Ref, k: string, n0: nat)
    requires Inv(s) && Single(s, r, k, n0)
    ensures Single(Scheduled(s, steps, r, k), r, k, n0)
    decreases |steps|
  {
    hide Inv, Single, Do, Allowed;
    if steps != [] {
      if Allowed(s, steps[0], r, k) {
        StepInv(s, steps[0]);
        if Enabled(s, steps[0]) { StepSingle(s, steps[0], r, k, n0); } else { Stutter(s, steps[0]); }
        ScheduledSingle(Do(s, steps[0]), steps[1..], r, k, n0);
      } else {
        ScheduledSingle(s, steps[1..], r, k, n0);
      }
    }
  }

  lemma Stutter(s: State, step: Step)
    requires !Enabled(s, step)
    ensures Do(s, step) == s
  {
  }

  lemma RestartedSingle(s: State, posted: bool, r: Ref, k: string)
    ensures var s0 := Do(s, Restart(posted)); Single(s0, r, k, Copies(s0.line.accepted, r, k))
  {
    hide Carries;
  }

  /** One process lifetime, started from whatever any run left behind: as long as no reconcile of the
      instance looks at the marks while it is misled, reads are current and the credentials stay the
      same, at most one copy of the event is buffered or in flight, PostEvents accepts it at most once,
      and after that no copy is on its way, whichever acknowledgement patches fail and however the steps
      of the reconciles, of the flusher and of everybody else interleave. */
  lemma OneOutstandingCopy(maxBatch: int, maxBuffer: int, before: seq<Step>, posted: bool, steps: seq<Step>, r: Ref,
      k: string)
    ensures var s0 := Do(Run(Start(maxBatch, maxBuffer), before), Restart(posted));
      var s := Scheduled(s0, steps, r, k);
      && OnItsWay(s, r, k) <= 1
      && Copies(s0.line.accepted, r, k) <= Copies(s.line.accepted, r, k) <= Copies(s0.line.accepted, r, k) + 1
      && (Copies(s.line.accepted, r, k) > Copies(s0.line.accepted, r, k) ==> OnItsWay(s, r, k) == 0)
  {
    hide Inv, Do, Copies;
    var s1 := Run(Start(maxBatch, maxBuffer), before);
    var s0 := Do(s1, Restart(posted));
    Reachable(maxBatch, maxBuffer, before);
    StepInv(s1, Restart(posted));
    RestartedSingle(s1, posted, r, k);
    ScheduledSingle(s0, steps, r, k, Copies(s0.line.accepted, r, k));
  }

  // ---------- A misled look sends again ----------

  /** Past the marks, nothing keeps a reconcile from sending that finds no event of its key buffered and
      does not know of a post. */
  lemma BufferedSends(s: State, r: Ref, env: Env)
    requires r in s.locals && s.locals[r].pc.Buffered? && Smooth(env)
    requires var k := s.locals[r].key;
      Plain(r, k) && Untold(s.locals[r].app, k) && !s.line.buf.HasKey(StorageKey(r, k))
    ensures Sent(s, RunToEnd(s, r, env), r, s.locals[r].key, env)
  {
    hide ManagedStorageEventKey, Runs.Do, Sent, MergePatch;
    var k := s.locals[r].key;
    var s1 := ReconcileStep(s, r, env);
    SmoothStep(s, r, env);
    var s2 := if s1.locals[r].pc.Report? then s1 else ReconcileStep(s1, r, env);
    if !s1.locals[r].pc.Report? { SmoothStep(s1, r, env); }
    assert s2.locals[r].pc.Report? && s2.locals[r].key == k && s2.line == s.line;
    assert RunToEnd(s, r, env) == RunToEnd(s2, r, env);
    ReportSends(s2, r, env);
    SentSame(s, s2, RunToEnd(s2, r, env), r, k, env);
  }

  /** A misled look takes the reconcile past the marks. */
  lemma MisledPasses(s: State, r: Ref, k: string, env: Env) returns (s': State)
    requires Misled(s, r, k) && s.locals[r].key == k && Smooth(env)
    ensures RunToEnd(s, r, env) == RunToEnd(s', r, env) && s'.line == s.line
    ensures r in s'.locals && s'.locals[r] == Local(Buffered, k, s.locals[r].app) && r !in s'.mem.inFlight
  {
    hide ManagedStorageEventKey, Runs.Do, MergePatch, Copies;
    s' := ReconcileStep(s, r, env);
    SmoothStep(s, r, env);
    if s.locals[r].pc.FlightPosting? {
      SmoothStep(s', r, env);
      s' := ReconcileStep(s', r, env);
    }
  }

  /** The looks that the schedule excludes are those that go wrong. In any reachable state in which a
      reconcile is misled, does not know of a post and has no copy in the buffer, a copy is in the
      flusher's hands or was accepted, and the rest of the reconcile, its calls succeeding, sends
      another. */
  lemma MisledSendsAgain(maxBatch: int, maxBuffer: int, steps: seq<Step>, r: Ref, k: string, env: Env)
    requires Smooth(env)
    requires var s := Run(Start(maxBatch, maxBuffer), steps);
      && Misled(s, r, k) && s.locals[r].key == k && Untold(s.locals[r].app, k)
      && !Among(s.line.buf.events, r, k)
    ensures var s := Run(Start(maxBatch, maxBuffer), steps);
      && Sent(s, Run(s, Repeat(Reconcile(r, env), ENOUGH)), r, k, env)
      && (Copies(s.line.inFlight, r, k) > 0 || Delivered(s.line.accepted, r, k))
  {
    hide Inv, Run, Sent, RunToEnd, Misled, Rank, Among, Delivered, Copies;
    var s := Run(Start(maxBatch, maxBuffer), steps);
    Reachable(maxBatch, maxBuffer, steps);
    MisledFacts(s, r, k);
    var s' := MisledPasses(s, r, k, env);
    BufferedSends(s', r, env);
    SentSame(s, s', RunToEnd(s', r, env), r, k, env);
    AnyRank(s.locals[r].pc);
    EndIsRun(s, r, env, ENOUGH);
  }

  lemma AnyRank(pc: Pc)
    ensures Rank(pc) < ENOUGH
  {
  }

  lemma MisledFacts(s: State, r: Ref, k: string)
    requires Inv(s) && Misled(s, r, k) && s.locals[r].key == k && !Among(s.line.buf.events, r, k)
    ensures Plain(r, k) && !s.line.buf.HasKey(StorageKey(r, k))
    ensures Copies(s.line.inFlight, r, k) > 0 || Delivered(s.line.accepted, r, k)
    ensures r in s.locals
  {
    PlainKey(s, r);
    BufferCheckExact(s, r, k);
    CopiesAmong(s.line.buf.events, r, k);
    ReadsHonest(s, r, 0);
    hide Copies, Among, Delivered, ManagedStorageEventKey;
  }

  /** A copy is in the flusher's hands and not marked as being posted: it was extracted and is not yet
      prepared, or its post failed and it is not yet back in the buffer. */
  predicate Gap(s: State, r: Ref, k: string) {
    Copies(s.line.inFlight, r, k) > 0 && !Holds(s.mem.posting, r, k)
  }

  /** A whole reconcile in a gap is misled: in any reachable state in a gap, with the key never accepted
      and no copy buffered, a reconcile whose calls succeed puts a second copy on its way. */
  lemma GapSendsAgain(maxBatch: int, maxBuffer: int, steps: seq<Step>, r: Ref, k: string, env: Env)
    requires Plain(r, k) && Smooth(env)
    requires var s := Run(Start(maxBatch, maxBuffer), steps);
      r !in s.locals && Gap(s, r, k) && !Delivered(s.line.accepted, r, k) && !Among(s.line.buf.events, r, k)
    ensures var s' := Run(Run(Start(maxBatch, maxBuffer), steps), [Begin(r, k, 0)] + Repeat(Reconcile(r, env), ENOUGH));
      r !in s'.locals && Copies(s'.line.buf.events, r, k) >= 1 && Copies(s'.line.inFlight, r, k) >= 1
  {
    var s := Run(Start(maxBatch, maxBuffer), steps);
    Reachable(maxBatch, maxBuffer, steps);
    hide Inv, Run, Among, Delivered, Copies, Runs.Do;
    UndeliveredSent(s, r, k, env);
    var s' := Run(s, [Begin(r, k, 0)] + Repeat(Reconcile(r, env), ENOUGH));
    LastCopy(s'.line.buf.events, r, k, env);
    EnqueueKeepsInFlight(s.line, StorageEvent(r, k, env.now, env.payload), env.now);
  }

  lemma LastCopy(es: seq<Event>, r: Ref, k: string, env: Env)
    requires Plain(r, k) && es != [] && es[|es| - 1] == StorageEvent(r, k, env.now, env.payload)
    ensures Copies(es, r, k) >= 1
  {
    hide Carries;
    StorageEventWellKeyed(r, k, env.now, env.payload);
    assert Among(es, r, k);
    CopiesAmong(es, r, k);
  }

  lemma EnqueueKeepsInFlight(l: Runs.Line, e: Event, now: int)
    ensures Runs.Do(l, Runs.Enqueue(e, now)).inFlight == l.inFlight
  {
  }
}
