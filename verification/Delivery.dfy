/** Managed-storage delivery as the processes run it: every critical section, every API call and
    every annotation patch is a step of its own, and steps of the flusher, of the reconciles of all
    instances and of other reporters interleave freely. */
module Delivery {
  import opened Text
  import opened EventKeys
  import opened Events
  import Runs = BatcherRuns
  import CP = ControlPlane

  // ---------- Annotations ----------

  /** The three delivery annotations of an ApplicationInstance; "" stands for an absent one. */
  datatype Annotations = Annotations(reported: string, claim: string, posted: string)

  const BARE := Annotations("", "", "")

  /** A merge patch carries only what the caller changed: fields that agree with the copy it read
      are left as the server has them. */
  function MergePatch(server: Annotations, base: Annotations, target: Annotations): Annotations {
    Annotations(
      if base.reported == target.reported then server.reported else target.reported,
      if base.claim == target.claim then server.claim else target.claim,
      if base.posted == target.posted then server.posted else target.posted)
  }

  // ---------- In-memory delivery state ----------

  datatype Memory = Memory(inFlight: map<Ref, string>, posting: map<Ref, string>, ackPending: map<Ref, string>) {
    function ClearInFlight(r: Ref): Memory { this.(inFlight := inFlight - {r}) }
    function MarkInFlight(r: Ref, k: string): Memory { this.(inFlight := inFlight[r := k]) }
    function ClearAckPending(r: Ref): Memory { this.(ackPending := ackPending - {r}) }
    function MarkAckPending(r: Ref, k: string): Memory { this.(ackPending := ackPending[r := k]) }
    function MarkPosting(r: Ref, k: string): Memory { this.(posting := posting[r := k]) }
    function ClearPosting(r: Ref, k: string): Memory {
      if Holds(posting, r, k) then this.(posting := posting - {r}) else this
    }
    function Wipe(r: Ref): Memory {
      Memory(inFlight - {r}, posting - {r}, ackPending - {r})
    }
  }

  predicate Holds(m: map<Ref, string>, r: Ref, k: string) {
    r in m && m[r] == k
  }

  const FRESH_MEMORY := Memory(map[], map[], map[])

  // ---------- Events ----------

  const READY := "Ready"
  const TRUE_STATUS := "True"
  const TRANSITION := "ConditionTransition"
  const FAILED_KIND := "ManagedStorageFailed"

  function StorageKey(r: Ref, k: string): string {
    ManagedStorageEventKey(r, READY, TRUE_STATUS, k)
  }

  function StorageEvent(r: Ref, k: string, now: int, payload: int): Event {
    Event(TRANSITION, r, StorageKey(r, k), now, payload)
  }

  predicate Carries(e: Event, r: Ref, k: string) {
    e.ref == r && ManagedStorageReportKeyFromEventKey(e.key) == Some(k)
  }

  /** PostEvents succeeded on a batch that carried the instance's managed-storage event for `k`. */
  predicate Delivered(accepted: seq<Event>, r: Ref, k: string) {
    exists i :: 0 <= i < |accepted| && Carries(accepted[i], r, k)
  }

  // ---------- Program counters ----------

  /** Inside patchManagedStorageAck. */
  datatype AckPc = Get(attempt: nat) | Patch(attempt: nat, base: Annotations) | Clear

  datatype AckNext = Go(a: AckPc) | Return(ok: bool)

  /** Inside AckManagedStorageDelivered, at one event. */
  datatype AckAt =
    | MarkPending | DropFlight | DropPosting | GetPosted | PatchPosted(base: Annotations) | Confirm(a: AckPc)

  datatype Flusher =
    | Idle
    | Taken(batch: seq<Event>)
    | Preparing(batch: seq<Event>, n: nat)
    | Posting(batch: seq<Event>)
    | Aborting(batch: seq<Event>, n: nat)
    | Aborted(batch: seq<Event>)
    | Acking(batch: seq<Event>, n: nat, at: AckAt)
    | Closing

  /** Inside reconcileSeaweedManagedStorage, past the read of the instance. */
  datatype Pc =
    | WipeState | DropClaim | ReadPending | DropPending | Ack(a: AckPc)
    | ReadInFlight | FlightBuffered | FlightPosting | DropInFlight
    | Buffered | Remark | Claim | Report | MarkFlight

  datatype Local = Local(pc: Pc, key: string, app: Annotations)

  // ---------- The system ----------

  datatype State = State(
    line: Runs.Line, mem: Memory, history: map<Ref, seq<Annotations>>,
    flusher: Flusher, locals: map<Ref, Local>, cp: CP.Store)
  {
    function History(r: Ref): seq<Annotations> {
      if r in history && history[r] != [] then history[r] else [BARE]
    }

    function Current(r: Ref): Annotations {
      var h := History(r); h[|h| - 1]
    }

    /** What a read returns when the cache lags `age` writes behind. */
    function Snapshot(r: Ref, age: nat): Annotations {
      var h := History(r); if age < |h| then h[|h| - 1 - age] else h[0]
    }

    function Write(r: Ref, a: Annotations): State {
      this.(history := history[r := History(r) + [a]])
    }

    function WithMem(m: Memory): State { this.(mem := m) }
    function WithLine(a: Runs.Action): State { this.(line := Runs.Do(line, a)) }
    function At(f: Flusher): State { this.(flusher := f) }
    function Set(r: Ref, l: Local): State { this.(locals := locals[r := l]) }
    function Finish(r: Ref): State { this.(locals := locals - {r}) }
    function Post(batch: seq<Event>): State { this.(cp := CP.Ingest(cp, batch)) }
  }

  /** An API call succeeds, conflicts, fails, or is carried out while its reply is lost. */
  datatype Outcome = Ok | Conflict | Fail | Lost

  datatype Env = Env(outcome: Outcome, age: nat, hasClient: bool, now: int, payload: int)

  datatype Step =
    | Others(e: Event, now: int)             // any other reporter enqueues an event
    | Flush(env: Env)                        // the flusher takes its next step
    | Begin(r: Ref, key: string, age: nat)   // a reconcile reads the instance and resolves its report key
    | Reconcile(r: Ref, env: Env)            // that reconcile takes its next step
    | Restart(posted: bool)                  // memory is wiped; a post on its way may still arrive

  function Start(maxBatch: int, maxBuffer: int): State {
    State(Runs.Start(maxBatch, maxBuffer), FRESH_MEMORY, map[], Idle, map[], CP.EMPTY)
  }

  function Patched(s: State, r: Ref, outcome: Outcome, base: Annotations, target: Annotations): State {
    if outcome.Ok? || outcome.Lost? then s.Write(r, MergePatch(s.Current(r), base, target)) else s
  }

  // ---------- patchManagedStorageAck ----------

  const ATTEMPTS := 3

  function AckStep(s: State, r: Ref, key: string, a: AckPc, env: Env): (State, AckNext) {
    match a
    case Get(attempt) =>
      if !env.outcome.Ok? then (s, Return(false))
      else
        var base := s.Snapshot(r, env.age);
        (s, Go(if base.reported == key then Clear else Patch(attempt, base)))
    case Patch(attempt, base) =>
      var s' := Patched(s, r, env.outcome, base, Annotations(key, "", ""));
      if env.outcome.Ok? then (s', Go(Clear))
      else if env.outcome.Conflict? && attempt + 1 < ATTEMPTS then (s', Go(Get(attempt + 1)))
      else (s', Return(false))
    case Clear => (s.WithMem(s.mem.Wipe(r)), Return(true))
  }

  // ---------- Flush and its callbacks ----------

  function PrepareOne(m: Memory, e: Event): Memory {
    var k := ManagedStorageReportKeyFromEventKey(e.key);
    if k.Some? then m.MarkPosting(e.ref, k.value) else m
  }

  function AbortOne(m: Memory, e: Event): Memory {
    var k := ManagedStorageReportKeyFromEventKey(e.key);
    if k.Some? then m.ClearPosting(e.ref, k.value) else m
  }

  /** The events AckManagedStorageDelivered treats as managed-storage ones. */
  function AckKey(e: Event): Option<string> {
    if e.kind == FAILED_KIND || EndpointsReportKeyFromEventKey(e.key).Some? then None
    else ManagedStorageReportKeyFromEventKey(e.key)
  }

  function NextEvent(s: State, batch: seq<Event>, n: nat): State {
    s.At(Acking(batch, n + 1, MarkPending))
  }

  function AckEventStep(s: State, batch: seq<Event>, n: nat, at: AckAt, env: Env): State
    requires n < |batch|
  {
    var e := batch[n];
    if AckKey(e).None? then NextEvent(s, batch, n)
    else
      var r, key := e.ref, AckKey(e).value;
      match at
      case MarkPending => s.WithMem(s.mem.MarkAckPending(r, key)).At(Acking(batch, n, DropFlight))
      case DropFlight => s.WithMem(s.mem.ClearInFlight(r)).At(Acking(batch, n, DropPosting))
      case DropPosting => s.WithMem(s.mem.ClearPosting(r, key)).At(Acking(batch, n, GetPosted))
      case GetPosted =>
        if !env.outcome.Ok? then NextEvent(s, batch, n)
        else
          var base := s.Snapshot(r, env.age);
          s.At(Acking(batch, n, if base.posted == key then Confirm(Get(0)) else PatchPosted(base)))
      case PatchPosted(base) =>
        var s' := Patched(s, r, env.outcome, base, base.(posted := key));
        if env.outcome.Ok? then s'.At(Acking(batch, n, Confirm(Get(0)))) else NextEvent(s', batch, n)
      case Confirm(a) =>
        var (s', next) := AckStep(s, r, key, a, env);
        if next.Go? then s'.At(Acking(batch, n, Confirm(next.a))) else NextEvent(s', batch, n)
  }

  function FlushStep(s: State, env: Env): State {
    match s.flusher
    case Idle =>
      if s.line.buf.events == [] then s
      else s.WithLine(Runs.Take).At(Taken(s.line.buf.Batch()))
    case Taken(batch) =>
      if env.hasClient then s.At(Preparing(batch, 0)) else s.WithLine(Runs.Discard).At(Idle)
    case Preparing(batch, n) =>
      if n < |batch| then s.WithMem(PrepareOne(s.mem, batch[n])).At(Preparing(batch, n + 1))
      else s.At(Posting(batch))
    case Posting(batch) =>
      if env.outcome.Ok? then s.Post(batch).WithLine(Runs.Accept).At(Acking(batch, 0, MarkPending))
      else if env.outcome.Lost? then s.Post(batch).At(Aborting(batch, 0))
      else s.At(Aborting(batch, 0))
    case Aborting(batch, n) =>
      if n < |batch| then s.WithMem(AbortOne(s.mem, batch[n])).At(Aborting(batch, n + 1))
      else s.At(Aborted(batch))
    case Aborted(batch) => s.WithLine(Runs.Requeue).At(Idle)
    case Acking(batch, n, at) =>
      if n < |batch| then AckEventStep(s, batch, n, at, env) else s.At(Closing)
    case Closing => s.WithLine(Runs.Close).At(Idle)
  }

  // ---------- reconcileSeaweedManagedStorage ----------

  function AfterRead(key: string, app: Annotations): Pc {
    if app.reported == key then WipeState
    else if app.claim != "" && app.claim != key then DropClaim
    else ReadPending
  }

  /** Past the last buffer check: retry the ack of a recorded post, give up, resend on an own claim,
      or claim first. */
  function AfterBuffered(s: State, r: Ref, key: string, app: Annotations): State {
    if app.posted == key then s.Set(r, Local(Remark, key, app))
    else if app.reported == key then s.Finish(r)
    else if app.claim == key then s.Set(r, Local(Report, key, app))
    else s.Set(r, Local(Claim, key, app))
  }

  function ReconcileStep(s: State, r: Ref, env: Env): State
    requires r in s.locals
  {
    var Local(pc, key, app) := s.locals[r];
    match pc
    case WipeState => s.WithMem(s.mem.Wipe(r)).Finish(r)
    case DropClaim =>
      var s' := Patched(s, r, env.outcome, app, app.(claim := ""));
      if env.outcome.Ok? then s'.Set(r, Local(ReadPending, key, s'.Current(r))) else s'.Finish(r)
    case ReadPending =>
      if r !in s.mem.ackPending then s.Set(r, Local(ReadInFlight, key, app))
      else if s.mem.ackPending[r] != key then s.Set(r, Local(DropPending, key, app))
      else s.Set(r, Local(Ack(Get(0)), key, app))
    case DropPending => s.WithMem(s.mem.ClearAckPending(r)).Set(r, Local(ReadInFlight, key, app))
    case Ack(a) =>
      var (s', next) := AckStep(s, r, key, a, env);
      if next.Go? then s'.Set(r, Local(Ack(next.a), key, app)) else s'.Finish(r)
    case ReadInFlight =>
      if r !in s.mem.inFlight then s.Set(r, Local(Buffered, key, app))
      else if s.mem.inFlight[r] != key then s.Set(r, Local(DropInFlight, key, app))
      else s.Set(r, Local(FlightBuffered, key, app))
    case FlightBuffered =>
      if s.line.buf.HasKey(StorageKey(r, key)) then s.Finish(r) else s.Set(r, Local(FlightPosting, key, app))
    case FlightPosting =>
      if Holds(s.mem.posting, r, key) then s.Finish(r) else s.Set(r, Local(DropInFlight, key, app))
    case DropInFlight => s.WithMem(s.mem.ClearInFlight(r)).Set(r, Local(Buffered, key, app))
    case Buffered =>
      if s.line.buf.HasKey(StorageKey(r, key)) then s.Finish(r) else AfterBuffered(s, r, key, app)
    case Remark => s.WithMem(s.mem.MarkAckPending(r, key)).Set(r, Local(Ack(Get(0)), key, app))
    case Claim =>
      var s' := Patched(s, r, env.outcome, app, app.(claim := key));
      if env.outcome.Ok? then s'.Set(r, Local(Report, key, s'.Current(r))) else s'.Finish(r)
    case Report =>
      s.WithLine(Runs.Enqueue(StorageEvent(r, key, env.now, env.payload), env.now)).Set(r, Local(MarkFlight, key, app))
    case MarkFlight => s.WithMem(s.mem.MarkInFlight(r, key)).Finish(r)
  }

  // ---------- Steps and runs ----------

  /** Names are Kubernetes names and report keys are hexadecimal, so none holds a slash. */
  predicate Plain(r: Ref, key: string) {
    key != "" && SLASH !in key && SLASH !in r.namespace && SLASH !in r.name
  }

  predicate Enabled(s: State, step: Step) {
    match step
    case Others(e, _) => ManagedStorageReportKeyFromEventKey(e.key).None?
    case Flush(_) => true
    case Begin(r, key, _) => r !in s.locals && Plain(r, key)
    case Reconcile(r, _) => r in s.locals
    case Restart(_) => true
  }

  function Do(s: State, step: Step): State {
    if !Enabled(s, step) then s
    else
      match step
      case Others(e, now) => s.WithLine(Runs.Enqueue(e, now))
      case Flush(env) => FlushStep(s, env)
      case Begin(r, key, age) =>
        var app := s.Snapshot(r, age);
        s.Set(r, Local(AfterRead(key, app), key, app))
      case Reconcile(r, env) => ReconcileStep(s, r, env)
      case Restart(posted) =>
        var s' := if s.flusher.Posting? && posted then s.Post(s.flusher.batch) else s;
        s'.(line := Runs.Do(s.line, Runs.Crash), mem := FRESH_MEMORY, flusher := Idle, locals := map[])
  }

  function Run(s: State, steps: seq<Step>): State
    decreases |steps|
  {
    if steps == [] then s else Run(Do(s, steps[0]), steps[1..])
  }

  lemma {:induction false} RunAppend(s: State, a: seq<Step>, b: seq<Step>)
    ensures Run(s, a + b) == Run(Run(s, a), b)
    decreases |a|
  {
    if a == [] {
      assert a + b == b;
    } else {
      assert (a + b)[1..] == a[1..] + b;
      RunAppend(Do(s, a[0]), a[1..], b);
    }
  }
}
