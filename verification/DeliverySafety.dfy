/** What every step of the delivery protocol keeps: no acknowledgement without an accepted post,
    posting marks only for events in hand, and exactly-once storage at the control plane. */
module DeliverySafety {
  import opened Text
  import opened EventKeys
  import opened Events
  import opened Delivery
  import Runs = BatcherRuns
  import CP = ControlPlane

  // ---------- No false acknowledgement ----------

  predicate Honest(accepted: seq<Event>, r: Ref, a: Annotations) {
    && (a.reported != "" ==> Delivered(accepted, r, a.reported))
    && (a.posted != "" ==> Delivered(accepted, r, a.posted))
  }

  predicate HonestAck(accepted: seq<Event>, r: Ref, key: string, a: AckPc) {
    && Delivered(accepted, r, key)
    && (a.Patch? ==> Honest(accepted, r, a.base))
  }

  predicate HonestLocal(accepted: seq<Event>, r: Ref, l: Local) {
    && Honest(accepted, r, l.app)
    && (l.pc.Ack? ==> HonestAck(accepted, r, l.key, l.pc.a))
    && (l.pc.Remark? ==> Delivered(accepted, r, l.key))
  }

  predicate HonestAt(accepted: seq<Event>, e: Event, at: AckAt) {
    AckKey(e).Some? ==>
      && Delivered(accepted, e.ref, AckKey(e).value)
      && (at.PatchPosted? ==> Honest(accepted, e.ref, at.base))
      && (at.Confirm? ==> HonestAck(accepted, e.ref, AckKey(e).value, at.a))
  }

  predicate HonestHistory(accepted: seq<Event>, r: Ref, h: seq<Annotations>) {
    forall i :: 0 <= i < |h| ==> Honest(accepted, r, h[i])
  }

  ghost predicate Truthful(s: State) {
    var acc := s.line.accepted;
    && (forall r :: r in s.history ==> HonestHistory(acc, r, s.history[r]))
    && (forall r :: r in s.mem.ackPending ==> Delivered(acc, r, s.mem.ackPending[r]))
    && (forall r :: r in s.locals ==> HonestLocal(acc, r, s.locals[r]))
    && (s.flusher.Acking? ==>
          && (forall i :: 0 <= i < |s.flusher.batch| ==> HonestAt(acc, s.flusher.batch[i], MarkPending))
          && (s.flusher.n < |s.flusher.batch| ==> HonestAt(acc, s.flusher.batch[s.flusher.n], s.flusher.at)))
  }

  lemma DeliveredGrows(acc: seq<Event>, more: seq<Event>, r: Ref, k: string)
    requires Delivered(acc, r, k)
    ensures Delivered(acc + more, r, k)
  {
    var i :| 0 <= i < |acc| && Carries(acc[i], r, k);
    assert Carries((acc + more)[i], r, k);
  }

  lemma HonestGrows(acc: seq<Event>, more: seq<Event>, r: Ref, a: Annotations)
    requires Honest(acc, r, a)
    ensures Honest(acc + more, r, a)
  {
    if a.reported != "" { DeliveredGrows(acc, more, r, a.reported); }
    if a.posted != "" { DeliveredGrows(acc, more, r, a.posted); }
  }

  lemma LocalGrows(acc: seq<Event>, more: seq<Event>, r: Ref, l: Local)
    requires HonestLocal(acc, r, l)
    ensures HonestLocal(acc + more, r, l)
  {
    HonestGrows(acc, more, r, l.app);
    if l.pc.Ack? || l.pc.Remark? { DeliveredGrows(acc, more, r, l.key); }
    if l.pc.Ack? && l.pc.a.Patch? { HonestGrows(acc, more, r, l.pc.a.base); }
  }

  /** Reads, however stale, and what the server holds are honest. */
  lemma ReadsHonest(s: State, r: Ref, age: nat)
    requires Truthful(s)
    ensures Honest(s.line.accepted, r, s.Snapshot(r, age))
    ensures Honest(s.line.accepted, r, s.Current(r))
  {
    if r in s.history { assert HonestHistory(s.line.accepted, r, s.history[r]); }
  }

  /** A patch of honest copies that adds only delivered keys keeps every instance honest. */
  lemma PatchTruthful(s: State, r: Ref, outcome: Outcome, base: Annotations, target: Annotations)
    requires Truthful(s) && Honest(s.line.accepted, r, base) && Honest(s.line.accepted, r, target)
    ensures Truthful(Patched(s, r, outcome, base, target))
  {
    ReadsHonest(s, r, 0);
    var s' := Patched(s, r, outcome, base, target);
    if s' != s {
      var a := MergePatch(s.Current(r), base, target);
      assert Honest(s.line.accepted, r, a);
      assert s'.history[r] == s.History(r) + [a];
      assert HonestHistory(s.line.accepted, r, s.History(r)) by {
        if r in s.history { assert HonestHistory(s.line.accepted, r, s.history[r]); }
      }
      assert HonestHistory(s.line.accepted, r, s'.history[r]);
    }
  }

  lemma AckTruthful(s: State, r: Ref, key: string, a: AckPc, env: Env)
    requires Truthful(s) && HonestAck(s.line.accepted, r, key, a)
    ensures var (s', next) := AckStep(s, r, key, a, env);
      && Truthful(s') && s'.line == s.line && s'.locals == s.locals && s'.flusher == s.flusher
      && (next.Go? ==> HonestAck(s.line.accepted, r, key, next.a))
  {
    ReadsHonest(s, r, env.age);
    if a.Patch? { PatchTruthful(s, r, env.outcome, a.base, Annotations(key, "", "")); }
  }

  lemma NextEventTruthful(s: State, batch: seq<Event>, n: nat)
    requires Truthful(s) && s.flusher.Acking? && s.flusher.batch == batch && n < |batch|
    ensures Truthful(NextEvent(s, batch, n))
  {
  }

  /** Moving on within one event. */
  lemma AtTruthful(s: State, at: AckAt)
    requires Truthful(s) && s.flusher.Acking? && s.flusher.n < |s.flusher.batch|
    requires HonestAt(s.line.accepted, s.flusher.batch[s.flusher.n], at)
    ensures Truthful(s.At(Acking(s.flusher.batch, s.flusher.n, at)))
  {
  }

  lemma AckEventTruthful(s: State, env: Env)
    requires Truthful(s) && s.flusher.Acking? && s.flusher.n < |s.flusher.batch|
    ensures Truthful(AckEventStep(s, s.flusher.batch, s.flusher.n, s.flusher.at, env))
  {
    var Acking(batch, n, at) := s.flusher;
    var e := batch[n];
    assert HonestAt(s.line.accepted, e, AckAt.MarkPending) && HonestAt(s.line.accepted, e, at);
    if AckKey(e).None? {
      NextEventTruthful(s, batch, n);
    } else if at.MarkPending? || at.DropFlight? || at.DropPosting? {
      AckMarkTruthful(s);
    } else if at.GetPosted? {
      ReadsHonest(s, e.ref, env.age);
      NextEventTruthful(s, batch, n);
      AtTruthful(s, if s.Snapshot(e.ref, env.age).posted == AckKey(e).value then Confirm(Get(0))
                    else PatchPosted(s.Snapshot(e.ref, env.age)));
    } else {
      AckPatchTruthful(s, env);
    }
  }

  lemma AckMarkTruthful(s: State)
    requires Truthful(s) && s.flusher.Acking? && s.flusher.n < |s.flusher.batch|
    requires s.flusher.at.MarkPending? || s.flusher.at.DropFlight? || s.flusher.at.DropPosting?
    requires AckKey(s.flusher.batch[s.flusher.n]).Some?
    ensures forall env :: Truthful(AckEventStep(s, s.flusher.batch, s.flusher.n, s.flusher.at, env))
  {
    var e := s.flusher.batch[s.flusher.n];
    assert HonestAt(s.line.accepted, e, AckAt.MarkPending);
  }

  lemma AckPatchTruthful(s: State, env: Env)
    requires Truthful(s) && s.flusher.Acking? && s.flusher.n < |s.flusher.batch|
    requires s.flusher.at.PatchPosted? || s.flusher.at.Confirm?
    requires AckKey(s.flusher.batch[s.flusher.n]).Some?
    ensures Truthful(AckEventStep(s, s.flusher.batch, s.flusher.n, s.flusher.at, env))
  {
    var Acking(batch, n, at) := s.flusher;
    var e := batch[n];
    var key := AckKey(e).value;
    assert HonestAt(s.line.accepted, e, at);
    if at.PatchPosted? {
      PatchTruthful(s, e.ref, env.outcome, at.base, at.base.(posted := key));
      var s' := Patched(s, e.ref, env.outcome, at.base, at.base.(posted := key));
      NextEventTruthful(s', batch, n);
      AtTruthful(s', Confirm(Get(0)));
    } else {
      AckTruthful(s, e.ref, key, at.a, env);
      var (s', next) := AckStep(s, e.ref, key, at.a, env);
      NextEventTruthful(s', batch, n);
      if next.Go? { AtTruthful(s', Confirm(next.a)); }
    }
  }

  lemma PostTruthful(s: State)
    requires Truthful(s) && s.flusher.Posting? && s.line.stage.Holding? && s.line.inFlight == s.flusher.batch
    ensures Truthful(s.Post(s.flusher.batch).WithLine(Runs.Accept).At(Acking(s.flusher.batch, 0, AckAt.MarkPending)))
  {
    var acc, more := s.line.accepted, s.flusher.batch;
    forall r | r in s.history
      ensures HonestHistory(acc + more, r, s.history[r])
    {
      forall i | 0 <= i < |s.history[r]| ensures Honest(acc + more, r, s.history[r][i]) {
        assert HonestHistory(acc, r, s.history[r]);
        HonestGrows(acc, more, r, s.history[r][i]);
      }
    }
    forall r | r in s.mem.ackPending ensures Delivered(acc + more, r, s.mem.ackPending[r]) {
      DeliveredGrows(acc, more, r, s.mem.ackPending[r]);
    }
    forall r | r in s.locals ensures HonestLocal(acc + more, r, s.locals[r]) {
      LocalGrows(acc, more, r, s.locals[r]);
    }
    forall i | 0 <= i < |more| ensures HonestAt(acc + more, more[i], AckAt.MarkPending) {
      if AckKey(more[i]).Some? {
        assert Carries((acc + more)[|acc| + i], more[i].ref, AckKey(more[i]).value);
      }
    }
  }

  // ---------- Shape: the flusher's batch, event keys, posting marks ----------

  /** Every managed-storage event was printed by the reporter for its own resource. */
  predicate WellKeyed(e: Event) {
    var k := ManagedStorageReportKeyFromEventKey(e.key);
    k.Some? ==> e.kind == TRANSITION && e.key == StorageKey(e.ref, k.value)
  }

  predicate AllWellKeyed(es: seq<Event>) {
    forall i :: 0 <= i < |es| ==> WellKeyed(es[i])
  }

  predicate InHand(s: State) {
    match s.flusher
    case Idle => s.line.stage.Idle?
    case Taken(b) => s.line.stage.Holding? && s.line.inFlight == b
    case Preparing(b, n) => s.line.stage.Holding? && s.line.inFlight == b && n <= |b|
    case Posting(b) => s.line.stage.Holding? && s.line.inFlight == b
    case Aborting(b, n) => s.line.stage.Holding? && s.line.inFlight == b && n <= |b|
    case Aborted(b) => s.line.stage.Holding? && s.line.inFlight == b
    case Acking(b, n, _) => s.line.stage.Delivered? && n <= |b| && AllWellKeyed(b)
    case Closing => s.line.stage.Delivered?
  }

  /** The events of the batch in hand whose posting mark may be set. */
  function Markable(f: Flusher): seq<Event>
    requires f.Aborting? || f.Acking? ==> f.n <= |f.batch|
  {
    match f
    case Preparing(b, n) => b
    case Posting(b) => b
    case Aborting(b, n) => b[n..]
    case Acking(b, n, at) =>
      if n < |b| && !at.MarkPending? && !at.DropFlight? && !at.DropPosting? then b[n + 1..] else b[n..]
    case _ => []
  }

  predicate Among(es: seq<Event>, r: Ref, k: string) {
    exists i :: 0 <= i < |es| && Carries(es[i], r, k)
  }

  ghost predicate PostingInHand(s: State)
    requires InHand(s)
  {
    forall r :: r in s.mem.posting ==> Among(Markable(s.flusher), r, s.mem.posting[r])
  }

  ghost predicate PlainLocals(s: State) {
    forall r :: r in s.locals ==> Plain(r, s.locals[r].key)
  }

  ghost predicate Shaped(s: State) {
    && InHand(s)
    && AllWellKeyed(s.line.buf.events) && AllWellKeyed(s.line.inFlight)
    && PostingInHand(s)
    && PlainLocals(s)
  }

  /** What the control plane stores is exact, and holds every keyed event whose post succeeded. */
  ghost predicate Stored(s: State) {
    && CP.Exact(s.cp)
    && (forall i :: 0 <= i < |s.line.accepted| ==> KeyStored(s.cp, s.line.accepted[i]))
  }

  predicate KeyStored(cp: CP.Store, e: Event) {
    Trim(e.key) != "" ==> Trim(e.key) in cp.keys
  }

  ghost predicate Inv(s: State) {
    Truthful(s) && Shaped(s) && Stored(s) && Runs.Inv(s.line)
  }

  // ---------- Well-keyed buffers ----------

  lemma StorageEventWellKeyed(r: Ref, k: string, now: int, payload: int)
    requires Plain(r, k)
    ensures WellKeyed(StorageEvent(r, k, now, payload))
    ensures Carries(StorageEvent(r, k, now, payload), r, k)
    ensures AckKey(StorageEvent(r, k, now, payload)) == Some(k)
  {
    assert SLASH !in READY && SLASH !in TRUE_STATUS;
    ManagedStorageKeyParses(r, READY, TRUE_STATUS, k);
    ParsersDisjoint(StorageKey(r, k));
  }

  /** A well-keyed managed-storage event is never skipped by the ack callback. */
  lemma AckKeyAgrees(e: Event)
    requires WellKeyed(e)
    ensures AckKey(e) == ManagedStorageReportKeyFromEventKey(e.key)
  {
    ParsersDisjoint(e.key);
  }

  lemma LineWellKeyed(l: Runs.Line, a: Runs.Action)
    requires AllWellKeyed(l.buf.events) && AllWellKeyed(l.inFlight)
    requires a.Enqueue? ==> WellKeyed(a.e)
    ensures AllWellKeyed(Runs.Do(l, a).buf.events) && AllWellKeyed(Runs.Do(l, a).inFlight)
  {
  }

  // ---------- Posting marks ----------

  lemma PrepareMarks(s: State)
    requires Shaped(s) && s.flusher.Preparing? && s.flusher.n < |s.flusher.batch|
    ensures PostingInHand(s.WithMem(PrepareOne(s.mem, s.flusher.batch[s.flusher.n]))
                           .At(Preparing(s.flusher.batch, s.flusher.n + 1)))
  {
    var b, n := s.flusher.batch, s.flusher.n;
    var k := ManagedStorageReportKeyFromEventKey(b[n].key);
    if k.Some? { assert Carries(b[n], b[n].ref, k.value); }
  }

  /** Once an event's mark is cleared, a mark that is left belongs to a later event. */
  lemma ClearedMarks(m: Memory, b: seq<Event>, n: nat, r: Ref)
    requires n < |b| && r in AbortOne(m, b[n]).posting
    requires Among(b[n..], r, m.posting[r])
    ensures Among(b[n + 1..], r, m.posting[r])
  {
    var i :| 0 <= i < |b[n..]| && Carries(b[n..][i], r, m.posting[r]);
    assert b[n..][0] == b[n];
    assert i != 0;
    assert b[n + 1..][i - 1] == b[n..][i];
  }

  lemma AbortMarks(s: State)
    requires Shaped(s) && s.flusher.Aborting? && s.flusher.n < |s.flusher.batch|
    ensures PostingInHand(s.WithMem(AbortOne(s.mem, s.flusher.batch[s.flusher.n]))
                           .At(Aborting(s.flusher.batch, s.flusher.n + 1)))
  {
    var b, n := s.flusher.batch, s.flusher.n;
    forall r | r in AbortOne(s.mem, b[n]).posting
      ensures Among(b[n + 1..], r, AbortOne(s.mem, b[n]).posting[r])
    {
      ClearedMarks(s.mem, b, n, r);
    }
  }

  /** The ack callback leaves the buffer, the control plane and the reconciles alone, and moves on
      through its batch. */
  lemma AckEventFrame(s: State, env: Env)
    requires s.flusher.Acking? && s.flusher.n < |s.flusher.batch|
    ensures var s' := AckEventStep(s, s.flusher.batch, s.flusher.n, s.flusher.at, env);
      && s'.line == s.line && s'.cp == s.cp && s'.locals == s.locals
      && s'.flusher.Acking? && s'.flusher.batch == s.flusher.batch
      && (s'.flusher.n == s.flusher.n || (s'.flusher.n == s.flusher.n + 1 && s'.flusher.at.MarkPending?))
  {
    hide AckKey, MergePatch;
  }

  /** Leaving an event behind, the callback has cleared its posting mark. */
  lemma AckEventMarks(s: State, env: Env, r: Ref)
    requires s.flusher.Acking? && s.flusher.n < |s.flusher.batch|
    requires WellKeyed(s.flusher.batch[s.flusher.n])
    requires r in s.mem.posting ==> Among(Markable(s.flusher), r, s.mem.posting[r])
    ensures var s' := AckEventStep(s, s.flusher.batch, s.flusher.n, s.flusher.at, env);
      s'.flusher.Acking? && s'.flusher.n <= |s'.flusher.batch|
      && (r in s'.mem.posting ==> Among(Markable(s'.flusher), r, s'.mem.posting[r]))
  {
    var Acking(b, n, at) := s.flusher;
    AckKeyAgrees(b[n]);
    AckEventFrame(s, env);
    AckEventPosting(s, env);
    var s' := AckEventStep(s, b, n, at, env);
    hide AckEventStep, AckKey, ManagedStorageReportKeyFromEventKey, EndpointsReportKeyFromEventKey, Among;
    if r in s'.mem.posting && Markable(s.flusher) == b[n..] && Markable(s'.flusher) == b[n + 1..] {
      ClearedMarks(s.mem, b, n, r);
    }
  }

  /** The posting marks after one step of the callback: only its DropPosting step clears one, and it
      does not leave an event with a key before that. */
  lemma AckEventPosting(s: State, env: Env)
    requires s.flusher.Acking? && s.flusher.n < |s.flusher.batch|
    requires AckKey(s.flusher.batch[s.flusher.n]) ==
      ManagedStorageReportKeyFromEventKey(s.flusher.batch[s.flusher.n].key)
    ensures var b, n := s.flusher.batch, s.flusher.n;
      var s' := AckEventStep(s, b, n, s.flusher.at, env);
      && (forall q :: q in s'.mem.posting ==> q in s.mem.posting && s'.mem.posting[q] == s.mem.posting[q])
      && (s'.flusher.Acking? && s'.flusher.n <= |b| ==>
            || Markable(s'.flusher) == Markable(s.flusher)
            || (Markable(s.flusher) == b[n..] && Markable(s'.flusher) == b[n + 1..]
                && forall q :: q in s'.mem.posting ==> q in AbortOne(s.mem, b[n]).posting))
  {
    hide ManagedStorageReportKeyFromEventKey, AckKey, MergePatch;
    AckEventFrame(s, env);
  }

  lemma AckEventShaped(s: State, env: Env)
    requires Shaped(s) && s.flusher.Acking? && s.flusher.n < |s.flusher.batch|
    ensures Shaped(AckEventStep(s, s.flusher.batch, s.flusher.n, s.flusher.at, env))
  {
    hide ManagedStorageReportKeyFromEventKey, EndpointsReportKeyFromEventKey, AckEventStep;
    AckEventFrame(s, env);
    var s' := AckEventStep(s, s.flusher.batch, s.flusher.n, s.flusher.at, env);
    forall r | r in s'.mem.posting
      ensures Among(Markable(s'.flusher), r, s'.mem.posting[r])
    {
      AckEventMarks(s, env, r);
    }
  }

  lemma HoldingShaped(s: State, env: Env)
    requires Shaped(s) && (s.flusher.Idle? || s.flusher.Taken? || s.flusher.Aborted? || s.flusher.Closing?)
    ensures Shaped(FlushStep(s, env))
  {
    hide ManagedStorageReportKeyFromEventKey, EndpointsReportKeyFromEventKey;
    LineWellKeyed(s.line, Runs.Take);
    LineWellKeyed(s.line, Runs.Discard);
    LineWellKeyed(s.line, Runs.Requeue);
    LineWellKeyed(s.line, Runs.Close);
  }

  lemma MarkingShaped(s: State, env: Env)
    requires Shaped(s) && (s.flusher.Preparing? || s.flusher.Aborting?)
    ensures Shaped(FlushStep(s, env))
  {
    hide ManagedStorageReportKeyFromEventKey, EndpointsReportKeyFromEventKey;
    if s.flusher.n < |s.flusher.batch| {
      if s.flusher.Preparing? { PrepareMarks(s); } else { AbortMarks(s); }
    }
  }

  lemma PostingShaped(s: State, env: Env)
    requires Shaped(s) && s.flusher.Posting?
    ensures Shaped(FlushStep(s, env))
  {
    hide ManagedStorageReportKeyFromEventKey, EndpointsReportKeyFromEventKey, Among, CP.Ingest;
    LineWellKeyed(s.line, Runs.Accept);
    assert s.flusher.batch[0..] == s.flusher.batch;
  }

  lemma FlushShaped(s: State, env: Env)
    requires Shaped(s)
    ensures Shaped(FlushStep(s, env))
  {
    hide ManagedStorageReportKeyFromEventKey, EndpointsReportKeyFromEventKey, AckEventStep;
    match s.flusher
    case Preparing(b, n) => MarkingShaped(s, env);
    case Aborting(b, n) => MarkingShaped(s, env);
    case Posting(b) => PostingShaped(s, env);
    case Acking(b, n, at) => if n < |b| { AckEventShaped(s, env); }
    case _ => HoldingShaped(s, env);
  }

  lemma FlushTruthful(s: State, env: Env)
    requires Truthful(s) && InHand(s)
    ensures Truthful(FlushStep(s, env))
  {
    hide ManagedStorageReportKeyFromEventKey, EndpointsReportKeyFromEventKey, AckEventStep;
    if s.flusher.Posting? {
      if env.outcome.Ok? { PostTruthful(s); }
    } else if s.flusher.Acking? && s.flusher.n < |s.flusher.batch| {
      AckEventTruthful(s, env);
    } else {
      RestTruthful(s, env);
    }
  }

  /** Steps of the flusher that accept nothing and acknowledge nothing. */
  lemma RestTruthful(s: State, env: Env)
    requires Truthful(s) && !s.flusher.Posting? && (s.flusher.Acking? ==> s.flusher.n >= |s.flusher.batch|)
    ensures Truthful(FlushStep(s, env))
  {
    hide HonestLocal, Delivered, HonestHistory, HonestAt, AckEventStep, ManagedStorageReportKeyFromEventKey;
  }

  lemma FlushStored(s: State, env: Env)
    requires Stored(s) && InHand(s)
    ensures Stored(FlushStep(s, env))
  {
    hide ManagedStorageReportKeyFromEventKey, EndpointsReportKeyFromEventKey, Trim, AckEventStep;
    var acc := s.line.accepted;
    if s.flusher.Posting? {
      var b := s.flusher.batch;
      PostStored(s.cp, acc, b);
      assert forall i :: 0 <= i < |acc| ==> acc[i] == (acc + b)[i];
    } else if s.flusher.Acking? && s.flusher.n < |s.flusher.batch| {
      AckEventFrame(s, env);
    }
  }

  /** Whether or not the reply arrives, a post keeps the store exact and what was accepted stored. */
  lemma PostStored(cp: CP.Store, acc: seq<Event>, batch: seq<Event>)
    requires CP.Exact(cp)
    requires forall i :: 0 <= i < |acc| ==> KeyStored(cp, acc[i])
    ensures CP.Exact(CP.Ingest(cp, batch))
    ensures forall i :: 0 <= i < |acc + batch| ==> KeyStored(CP.Ingest(cp, batch), (acc + batch)[i])
  {
    CP.IngestExact(cp, batch);
    forall i | 0 <= i < |acc + batch|
      ensures KeyStored(CP.Ingest(cp, batch), (acc + batch)[i])
    {
      if i < |acc| {
        assert KeyStored(cp, acc[i]);
      } else {
        assert (acc + batch)[i] in batch;
      }
    }
  }

  lemma ReconcileTruthful(s: State, r: Ref, env: Env)
    requires Truthful(s) && r in s.locals && s.locals[r].key != ""
    ensures Truthful(ReconcileStep(s, r, env))
  {
    var Local(pc, key, app) := s.locals[r];
    assert HonestLocal(s.line.accepted, r, s.locals[r]);
    match pc {
      case DropClaim => ClaimTruthful(s, r, env, app.(claim := ""), ReadPending);
      case Claim => ClaimTruthful(s, r, env, app.(claim := key), Report);
      case Ack(a) => AckTruthful(s, r, key, a, env);
      case Buffered => BufferedTruthful(s, r);
      case Report => assert ReconcileStep(s, r, env).line.accepted == s.line.accepted;
      case _ => QuietTruthful(s, r, env);
    }
  }

  lemma ClaimTruthful(s: State, r: Ref, env: Env, target: Annotations, pc: Pc)
    requires Truthful(s) && r in s.locals && !pc.Ack? && !pc.Remark?
    requires target.reported == s.locals[r].app.reported && target.posted == s.locals[r].app.posted
    ensures var s' := Patched(s, r, env.outcome, s.locals[r].app, target);
      && Truthful(s'.Set(r, Local(pc, s.locals[r].key, s'.Current(r))))
      && Truthful(s'.Finish(r))
  {
    assert HonestLocal(s.line.accepted, r, s.locals[r]);
    PatchTruthful(s, r, env.outcome, s.locals[r].app, target);
    var s' := Patched(s, r, env.outcome, s.locals[r].app, target);
    ReadsHonest(s', r, 0);
  }

  lemma BufferedTruthful(s: State, r: Ref)
    requires Truthful(s) && r in s.locals && s.locals[r].key != ""
    ensures Truthful(s.Finish(r))
    ensures Truthful(AfterBuffered(s, r, s.locals[r].key, s.locals[r].app))
  {
    hide Delivered, HonestHistory, HonestAt;
    assert HonestLocal(s.line.accepted, r, s.locals[r]);
  }

  /** Steps that only move the reconcile on or touch the in-memory maps. */
  lemma QuietTruthful(s: State, r: Ref, env: Env)
    requires Truthful(s) && r in s.locals
    requires var pc := s.locals[r].pc;
      pc.WipeState? || pc.ReadPending? || pc.DropPending? || pc.ReadInFlight? || pc.FlightBuffered?
      || pc.FlightPosting? || pc.DropInFlight? || pc.Remark? || pc.MarkFlight?
    ensures Truthful(ReconcileStep(s, r, env))
  {
    hide Truthful, HonestLocal, ReconcileStep;
    var m, next := SimpleForm(s, r, env);
    QuietLocal(s, r, env);
    MovedTruthful(s, r, m, next);
  }

  lemma QuietLocal(s: State, r: Ref, env: Env)
    requires Truthful(s) && r in s.locals
    requires var pc := s.locals[r].pc;
      pc.WipeState? || pc.ReadPending? || pc.DropPending? || pc.ReadInFlight? || pc.FlightBuffered?
      || pc.FlightPosting? || pc.DropInFlight? || pc.Remark? || pc.MarkFlight?
    ensures var s' := ReconcileStep(s, r, env);
      && (r in s'.locals ==> HonestLocal(s.line.accepted, r, s'.locals[r]))
      && (r in s'.mem.ackPending ==> Delivered(s.line.accepted, r, s'.mem.ackPending[r]))
  {
    hide ManagedStorageEventKey, Delivered, Honest, AckStep, Patched;
    assert HonestLocal(s.line.accepted, r, s.locals[r]);
  }

  lemma MovedTruthful(s: State, r: Ref, m: Memory, next: Option<Local>)
    requires Truthful(s) && r in s.locals && OwnTouch(s.mem, m, r, s.locals[r].key)
    requires next.Some? ==> HonestLocal(s.line.accepted, r, next.value)
    requires r in m.ackPending ==> Delivered(s.line.accepted, r, m.ackPending[r])
    ensures Truthful(Moved(s, r, m, next))
  {
    hide HonestLocal, Delivered, HonestHistory, HonestAt;
  }

  /** Nothing of the flusher or the control plane changes, posting marks are only cleared, and the
      reconciles in progress keep their keys. */
  ghost predicate Keeps(s: State, s': State) {
    && s'.flusher == s.flusher && s'.cp == s.cp
    && (forall q :: q in s'.mem.posting ==> q in s.mem.posting && s'.mem.posting[q] == s.mem.posting[q])
    && (forall q :: q in s'.locals ==> q in s.locals && s'.locals[q].key == s.locals[q].key)
  }

  lemma KeepsSet(s: State, s': State, r: Ref, l: Local)
    requires Keeps(s, s') && r in s.locals && l.key == s.locals[r].key
    ensures Keeps(s, s'.Set(r, l)) && Keeps(s, s'.Finish(r))
  {
  }

  lemma KeepsPatched(s: State, r: Ref, outcome: Outcome, base: Annotations, target: Annotations)
    ensures Keeps(s, Patched(s, r, outcome, base, target)) && Patched(s, r, outcome, base, target).line == s.line
  {
  }

  lemma AckKeeps(s: State, r: Ref, key: string, a: AckPc, env: Env)
    ensures Keeps(s, AckStep(s, r, key, a, env).0) && AckStep(s, r, key, a, env).0.line == s.line
  {
    if a.Patch? { KeepsPatched(s, r, env.outcome, a.base, Annotations(key, "", "")); }
  }

  /** A reconcile keeps the rest of the system, and the one event it may enqueue is its own. */
  lemma ReconcileFrame(s: State, r: Ref, env: Env)
    requires r in s.locals
    ensures var s' := ReconcileStep(s, r, env);
      && Keeps(s, s')
      && s'.line == (if s.locals[r].pc.Report?
                     then Runs.Do(s.line, Runs.Enqueue(StorageEvent(r, s.locals[r].key, env.now, env.payload), env.now))
                     else s.line)
  {
    hide ManagedStorageEventKey, Runs.Do, MergePatch, Keeps, Patched, AckStep;
    var Local(pc, key, app) := s.locals[r];
    MemKeeps(s, r, key);
    match pc {
      case DropClaim => ClaimKeeps(s, r, env, app.(claim := ""), ReadPending);
      case Claim => ClaimKeeps(s, r, env, app.(claim := key), Report);
      case Ack(a) =>
        AckKeeps(s, r, key, a, env);
        var (s', next) := AckStep(s, r, key, a, env);
        KeepsSet(s, s', r, s.locals[r]);
        if next.Go? { KeepsSet(s, s', r, Local(Ack(next.a), key, app)); }
      case Report =>
        LineKeeps(s, Runs.Enqueue(StorageEvent(r, key, env.now, env.payload), env.now));
        KeepsSet(s, s.WithLine(Runs.Enqueue(StorageEvent(r, key, env.now, env.payload), env.now)), r,
          Local(MarkFlight, key, app));
      case _ => SimpleKeeps(s, r, env);
    }
  }

  lemma LineKeeps(s: State, a: Runs.Action)
    ensures Keeps(s, s.WithLine(a))
  {
  }

  lemma MemKeeps(s: State, r: Ref, key: string)
    ensures Keeps(s, s) && Keeps(s, s.WithMem(s.mem.Wipe(r))) && Keeps(s, s.WithMem(s.mem.ClearAckPending(r)))
    ensures Keeps(s, s.WithMem(s.mem.ClearInFlight(r))) && Keeps(s, s.WithMem(s.mem.MarkAckPending(r, key)))
    ensures Keeps(s, s.WithMem(s.mem.MarkInFlight(r, key)))
  {
  }

  lemma ClaimKeeps(s: State, r: Ref, env: Env, target: Annotations, pc: Pc)
    requires r in s.locals
    ensures var s' := Patched(s, r, env.outcome, s.locals[r].app, target);
      && Keeps(s, s'.Set(r, Local(pc, s.locals[r].key, s'.Current(r)))) && Keeps(s, s'.Finish(r)) && s'.line == s.line
  {
    KeepsPatched(s, r, env.outcome, s.locals[r].app, target);
    var s' := Patched(s, r, env.outcome, s.locals[r].app, target);
    KeepsSet(s, s', r, Local(pc, s.locals[r].key, s'.Current(r)));
  }

  /** A reconcile moves on or ends, with new in-memory maps. */
  function Moved(s: State, r: Ref, m: Memory, next: Option<Local>): State {
    if next.Some? then s.WithMem(m).Set(r, next.value) else s.WithMem(m).Finish(r)
  }

  /** What a reconcile does to the in-memory maps in one step. */
  predicate OwnTouch(m: Memory, m': Memory, r: Ref, key: string) {
    || m' == m || m' == m.Wipe(r) || m' == m.ClearAckPending(r)
    || m' == m.ClearInFlight(r) || m' == m.MarkAckPending(r, key) || m' == m.MarkInFlight(r, key)
  }

  /** The steps that neither patch nor enqueue. */
  lemma SimpleForm(s: State, r: Ref, env: Env) returns (m: Memory, next: Option<Local>)
    requires r in s.locals
    requires var pc := s.locals[r].pc; !pc.DropClaim? && !pc.Claim? && !pc.Ack? && !pc.Report?
    ensures ReconcileStep(s, r, env) == Moved(s, r, m, next) && OwnTouch(s.mem, m, r, s.locals[r].key)
    ensures next.Some? ==> next.value.key == s.locals[r].key
  {
    hide ManagedStorageEventKey, Runs.Do, Patched, AckStep;
    var Local(pc, key, app) := s.locals[r];
    var s' := ReconcileStep(s, r, env);
    next := if r in s'.locals then Some(s'.locals[r]) else None;
    m := match pc
      case WipeState => s.mem.Wipe(r)
      case DropPending => s.mem.ClearAckPending(r)
      case DropInFlight => s.mem.ClearInFlight(r)
      case Remark => s.mem.MarkAckPending(r, key)
      case MarkFlight => s.mem.MarkInFlight(r, key)
      case _ => s.mem;
  }

  lemma SimpleKeeps(s: State, r: Ref, env: Env)
    requires r in s.locals
    requires var pc := s.locals[r].pc; !pc.DropClaim? && !pc.Claim? && !pc.Ack? && !pc.Report?
    ensures Keeps(s, ReconcileStep(s, r, env)) && ReconcileStep(s, r, env).line == s.line
  {
    hide Keeps, ReconcileStep;
    var m, next := SimpleForm(s, r, env);
    MemKeeps(s, r, s.locals[r].key);
    KeepsSet(s, s.WithMem(m), r, if next.Some? then next.value else s.locals[r]);
  }

  lemma ReconcileShaped(s: State, r: Ref, env: Env)
    requires Shaped(s) && r in s.locals
    ensures Shaped(ReconcileStep(s, r, env))
  {
    hide ManagedStorageReportKeyFromEventKey, ReconcileStep;
    ReconcileFrame(s, r, env);
    var key := s.locals[r].key;
    if s.locals[r].pc.Report? {
      StorageEventWellKeyed(r, key, env.now, env.payload);
      LineWellKeyed(s.line, Runs.Enqueue(StorageEvent(r, key, env.now, env.payload), env.now));
    }
  }

  lemma ReconcileInv(s: State, r: Ref, env: Env)
    requires Inv(s) && r in s.locals
    ensures Inv(ReconcileStep(s, r, env))
  {
    hide Truthful, Shaped, Runs.Inv, ReconcileStep, CP.Exact, KeyStored;
    ReconcileFrame(s, r, env);
    PlainKey(s, r);
    ReconcileTruthful(s, r, env);
    ReconcileShaped(s, r, env);
    Runs.StepInv(s.line, Runs.Enqueue(StorageEvent(r, s.locals[r].key, env.now, env.payload), env.now));
  }

  lemma PlainKey(s: State, r: Ref)
    requires Shaped(s) && r in s.locals
    ensures Plain(r, s.locals[r].key)
  {
  }

  lemma ShapedInHand(s: State)
    requires Shaped(s)
    ensures InHand(s)
  {
  }

  lemma FlushInv(s: State, env: Env)
    requires Inv(s)
    ensures Inv(FlushStep(s, env))
  {
    hide Truthful, Shaped, Stored, Runs.Inv;
    ShapedInHand(s);
    FlushTruthful(s, env);
    FlushShaped(s, env);
    FlushStored(s, env);
    FlushLine(s, env);
  }

  /** A flush moves the event line by at most one of its own actions. */
  lemma FlushLine(s: State, env: Env)
    requires Runs.Inv(s.line)
    ensures Runs.Inv(FlushStep(s, env).line)
  {
    hide ManagedStorageReportKeyFromEventKey, EndpointsReportKeyFromEventKey, Runs.Inv, AckEventStep;
    Runs.StepInv(s.line, Runs.Take);
    Runs.StepInv(s.line, Runs.Discard);
    Runs.StepInv(s.line, Runs.Accept);
    Runs.StepInv(s.line, Runs.Requeue);
    Runs.StepInv(s.line, Runs.Close);
    if s.flusher.Acking? && s.flusher.n < |s.flusher.batch| { AckEventFrame(s, env); }
  }

  lemma BeginInv(s: State, r: Ref, key: string, age: nat)
    requires Inv(s) && Enabled(s, Begin(r, key, age))
    ensures Inv(Do(s, Begin(r, key, age)))
  {
    hide ManagedStorageReportKeyFromEventKey, Runs.Inv, CP.Exact, KeyStored;
    ReadsHonest(s, r, age);
  }

  lemma OthersInv(s: State, e: Event, now: int)
    requires Inv(s) && Enabled(s, Others(e, now))
    ensures Inv(Do(s, Others(e, now)))
  {
    hide Runs.Inv, CP.Exact, KeyStored;
    Runs.StepInv(s.line, Runs.Enqueue(e, now));
    LineWellKeyed(s.line, Runs.Enqueue(e, now));
  }

  lemma RestartInv(s: State, posted: bool)
    requires Inv(s)
    ensures Inv(Do(s, Restart(posted)))
  {
    hide ManagedStorageReportKeyFromEventKey, Runs.Inv, CP.Exact, Trim;
    Runs.StepInv(s.line, Runs.Crash);
    LineWellKeyed(s.line, Runs.Crash);
    var acc := s.line.accepted;
    if s.flusher.Posting? {
      PostStored(s.cp, acc, s.flusher.batch);
      assert forall i :: 0 <= i < |acc| ==> acc[i] == (acc + s.flusher.batch)[i];
    }
  }

  lemma StepInv(s: State, step: Step)
    requires Inv(s)
    ensures Inv(Do(s, step))
  {
    hide Inv, FlushStep, ReconcileStep;
    if Enabled(s, step) {
      match step
      case Others(e, now) => OthersInv(s, e, now);
      case Flush(env) => FlushInv(s, env);
      case Begin(r, key, age) => BeginInv(s, r, key, age);
      case Reconcile(r, env) => ReconcileInv(s, r, env);
      case Restart(posted) => RestartInv(s, posted);
    }
  }

  lemma {:induction false} RunInv(s: State, steps: seq<Step>)
    requires Inv(s)
    ensures Inv(Run(s, steps))
    decreases |steps|
  {
    hide Inv, Do;
    if steps != [] {
      StepInv(s, steps[0]);
      RunInv(Do(s, steps[0]), steps[1..]);
    }
  }

  lemma StartInv(maxBatch: int, maxBuffer: int)
    ensures Inv(Start(maxBatch, maxBuffer))
  {
    Runs.StartInv(maxBatch, maxBuffer);
  }

  lemma Reachable(maxBatch: int, maxBuffer: int, steps: seq<Step>)
    ensures Inv(Run(Start(maxBatch, maxBuffer), steps))
  {
    hide Inv;
    StartInv(maxBatch, maxBuffer);
    RunInv(Start(maxBatch, maxBuffer), steps);
  }

  // ---------- Main results ----------

  /** In every state of every run, whatever interleaves, fails, lags or restarts: a report key in
      the reported annotation, the posted annotation (now or in any cached copy) or the pending-ack
      map was carried for that instance by a batch PostEvents accepted. */
  lemma NoFalseAcknowledgement(maxBatch: int, maxBuffer: int, steps: seq<Step>, r: Ref, age: nat)
    ensures var s := Run(Start(maxBatch, maxBuffer), steps);
      && (s.Snapshot(r, age).reported != "" ==> Delivered(s.line.accepted, r, s.Snapshot(r, age).reported))
      && (s.Snapshot(r, age).posted != "" ==> Delivered(s.line.accepted, r, s.Snapshot(r, age).posted))
      && (r in s.mem.ackPending ==> Delivered(s.line.accepted, r, s.mem.ackPending[r]))
  {
    Reachable(maxBatch, maxBuffer, steps);
    ReadsHonest(Run(Start(maxBatch, maxBuffer), steps), r, age);
  }

  /** A posting mark stands for an event of the batch being posted. */
  lemma PostingMeansInHand(maxBatch: int, maxBuffer: int, steps: seq<Step>, r: Ref)
    ensures var s := Run(Start(maxBatch, maxBuffer), steps);
      r in s.mem.posting ==>
        && (s.flusher.Preparing? || s.flusher.Posting? || s.flusher.Aborting? || s.flusher.Acking?)
        && Among(s.flusher.batch, r, s.mem.posting[r])
  {
    hide Among, Run, Truthful, Stored, Runs.Inv, AllWellKeyed;
    Reachable(maxBatch, maxBuffer, steps);
    var s := Run(Start(maxBatch, maxBuffer), steps);
    if r in s.mem.posting {
      MarkInBatch(s.flusher, r, s.mem.posting[r]);
    }
  }

  lemma MarkInBatch(f: Flusher, r: Ref, k: string)
    requires (f.Aborting? || f.Acking? ==> f.n <= |f.batch|) && Among(Markable(f), r, k)
    ensures (f.Preparing? || f.Posting? || f.Aborting? || f.Acking?) && Among(f.batch, r, k)
  {
    hide Carries;
    var m := Markable(f);
    var i :| 0 <= i < |m| && Carries(m[i], r, k);
    var b := f.batch;
    assert m == b[|b| - |m|..];
    assert b[|b| - |m| + i] == m[i];
  }

  /** Although failed posts are retried and may have arrived all the same, the control plane never
      stores two events under one key, and stores an event for every key whose post succeeded. */
  lemma ExactlyOnceAtControlPlane(maxBatch: int, maxBuffer: int, steps: seq<Step>)
    ensures var s := Run(Start(maxBatch, maxBuffer), steps);
      && (forall i, j :: 0 <= i < j < |s.cp.events| && Trim(s.cp.events[i].key) != "" ==>
            Trim(s.cp.events[i].key) != Trim(s.cp.events[j].key))
      && (forall i :: 0 <= i < |s.line.accepted| && Trim(s.line.accepted[i].key) != "" ==>
            CP.StoredAt(s.cp, Trim(s.line.accepted[i].key)))
  {
    hide Trim, ManagedStorageReportKeyFromEventKey, Truthful, Shaped, Runs.Inv;
    Reachable(maxBatch, maxBuffer, steps);
    var s := Run(Start(maxBatch, maxBuffer), steps);
    forall i | 0 <= i < |s.line.accepted| && Trim(s.line.accepted[i].key) != ""
      ensures CP.StoredAt(s.cp, Trim(s.line.accepted[i].key))
    {
      assert KeyStored(s.cp, s.line.accepted[i]);
    }
  }

  /** The buffer's order, conservation and overflow laws hold through the whole protocol. */
  lemma OrderAndConservation(maxBatch: int, maxBuffer: int, steps: seq<Step>)
    ensures var l := Run(Start(maxBatch, maxBuffer), steps).line;
      Runs.InOrder(l.Order(), l.enqueued) && Runs.Conserved(l) && Runs.OverflowExact(l)
      && |l.buf.events| <= l.buf.Limit()
  {
    hide Truthful, Shaped, Stored;
    Reachable(maxBatch, maxBuffer, steps);
  }
}
