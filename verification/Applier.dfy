/** Applying pull jobs: expiry, idempotency check, dispatch, record. */
module Applier {
  import opened Text
  import opened Idempotency

  /** `expiresAt` None stands for the zero time. */
  datatype Job = Job(kind: string, idempotencyKey: string, expiresAt: Option<int>)

  datatype Outcome = Succeeded | Expired | Replay | Error

  /** How the outside world behaves during one ApplyJob: the clock, the two ConfigMap reads, the
      cluster the dispatched apply, delete or intent leaves behind and whether it reports success,
      and the ConfigMap write. */
  datatype Env = Env(now: int, readOk: bool, after: int, applied: bool, rereadOk: bool, write: Write)

  /** `cluster` stands for the contents of the cluster the jobs act on. */
  datatype Node = Node(idem: Store, cluster: int)

  predicate Supported(kind: string) {
    kind == "apply" || kind == "delete" || kind == "intent"
  }

  predicate IsExpired(job: Job, now: int) {
    job.expiresAt.Some? && now > job.expiresAt.value
  }

  ghost predicate Dispatched(n: Node, job: Job, env: Env, n': Node, out: Outcome) {
    if !Supported(job.kind) then n' == n && out == Error
    else if !env.applied then n' == n.(cluster := env.after) && out == Error
    else if job.idempotencyKey == "" then n' == n.(cluster := env.after) && out == Succeeded
    else
      && n'.cluster == env.after
      && (out == Succeeded || out == Error)
      && Recorded(n.idem, job.idempotencyKey, env.rereadOk, env.write, n'.idem, out == Succeeded)
  }

  ghost predicate Applied(n: Node, job: Job, env: Env, n': Node, out: Outcome) {
    if IsExpired(job, env.now) then n' == n && out == Expired
    else if job.idempotencyKey == "" then Dispatched(n, job, env, n', out)
    else
      var (idem, seen) := Checked(n.idem, job.idempotencyKey, env.readOk);
      if seen.None? then n' == n.(idem := idem) && out == Error
      else if seen.value then n' == n.(idem := idem) && out == Replay
      else Dispatched(n.(idem := idem), job, env, n', out)
  }

  // ---------- When a job is dispatched ----------

  /** The keys that a check of this store goes by. */
  function KnownKeys(s: Store): set<string> {
    if s.cache.Some? then s.cache.value else Persisted(s)
  }

  /** A check of this store comes to an answer. */
  predicate Answers(s: Store, readOk: bool) {
    s.cache.Some? || (s.namespace != "" && readOk && s.configMap != Some(Garbled))
  }

  /** The job has not expired, its kind is one of the three, and its trimmed key is blank or was read and
      not seen. */
  predicate Dispatchable(n: Node, job: Job, env: Env) {
    var k := Trim(job.idempotencyKey);
    && (job.expiresAt.None? || env.now <= job.expiresAt.value)
    && (job.kind == "apply" || job.kind == "delete" || job.kind == "intent")
    && (k == "" || (Answers(n.idem, env.readOk) && k !in KnownKeys(n.idem)))
  }

  /** What the check of the key comes to. */
  lemma CheckedExact(s: Store, key: string, readOk: bool)
    ensures var (s', seen) := Checked(s, key, readOk);
      var k := Trim(key);
      && (seen.None? <==> k != "" && !Answers(s, readOk))
      && (seen == Some(true) <==> k != "" && Answers(s, readOk) && k in KnownKeys(s))
      && s' == (if k != "" && Answers(s, readOk) then s.(cache := Some(KnownKeys(s))) else s)
  {
    hide Trim, LoadKeys;
  }

  /** Exactly when a job changes the cluster, and what it is answered. Past its expiry it is answered
      Expired and nothing changes. With a key that was seen it is answered Replay. It changes the cluster
      exactly when it is dispatchable, and succeeds exactly when moreover the dispatch succeeded and a
      non-blank key was written. Everything else is an error. */
  lemma ApplyExact(n: Node, job: Job, env: Env, n': Node, out: Outcome)
    requires Applied(n, job, env, n', out)
    ensures var k := Trim(job.idempotencyKey);
      var expired := job.expiresAt.Some? && job.expiresAt.value < env.now;
      && (out == Expired <==> expired) && (expired ==> n' == n)
      && (out == Replay <==> !expired && k != "" && Answers(n.idem, env.readOk) && k in KnownKeys(n.idem))
      && n'.cluster == (if Dispatchable(n, job, env) then env.after else n.cluster)
      && (out == Succeeded <==> Dispatchable(n, job, env) && env.applied && (k == "" || env.write.Written?))
  {
    hide Trim, LoadKeys, Lists;
    CheckedExact(n.idem, job.idempotencyKey, env.readOk);
    BlankTrim();
  }

  lemma BlankTrim()
    ensures Trim("") == ""
  {
  }

  class JobApplier {
    const idempotency: IdempotencyStore
    var cluster: int

    function View(): Node
      reads this, idempotency
    {
      Node(idempotency.View(), cluster)
    }

    constructor (idempotency: IdempotencyStore, cluster: int)
      ensures this.idempotency == idempotency && this.cluster == cluster
    {
      this.idempotency, this.cluster := idempotency, cluster;
    }

    method ApplyJob(job: Job, env: Env) returns (out: Outcome)
      modifies this, idempotency
      ensures Applied(old(View()), job, env, View(), out)
      ensures View().cluster == if Dispatchable(old(View()), job, env) then env.after else old(View()).cluster
      ensures out == Succeeded <==>
        Dispatchable(old(View()), job, env) && env.applied && (Trim(job.idempotencyKey) == "" || env.write.Written?)
      ensures out == Expired <==> job.expiresAt.Some? && job.expiresAt.value < env.now
      ensures out == Expired ==> View() == old(View())
    {
      hide Trim, LoadKeys, Lists;
      CheckedExact(idempotency.View(), job.idempotencyKey, env.readOk);
      BlankTrim();
      if job.expiresAt.Some? && env.now > job.expiresAt.value {
        return Expired;
      }
      if job.idempotencyKey != "" {
        var seen := idempotency.Contains(job.idempotencyKey, env.readOk);
        if seen.None? {
          return Error;
        }
        if seen.value {
          return Replay;
        }
      }
      if !Supported(job.kind) {
        return Error;
      }
      cluster := env.after;
      if !env.applied {
        return Error;
      }
      if job.idempotencyKey != "" {
        var ok := idempotency.Record(job.idempotencyKey, env.rereadOk, env.write);
        if !ok {
          return Error;
        }
      }
      out := Succeeded;
    }
  }

  // ---------- Runs with crashes ----------

  datatype Action =
    | Apply(job: Job, env: Env)
    | CrashIn(job: Job, env: Env)  // the process dies inside ApplyJob, anywhere up to its reply
    | Restart

  function Wiped(n: Node): Node {
    n.(idem := n.idem.(cache := None))
  }

  /** One action; `out` is what the caller saw, nothing when the process died. */
  ghost predicate Next(n: Node, a: Action, n': Node, out: Option<Outcome>) {
    match a
    case Apply(job, env) => out.Some? && Applied(n, job, env, n', out.value)
    case CrashIn(job, env) => out.None? && exists n1, o :: Applied(n, job, env, n1, o) && n' == Wiped(n1)
    case Restart => out.None? && n' == Wiped(n)
  }

  datatype Trace = Trace(nodes: seq<Node>, actions: seq<Action>, outs: seq<Option<Outcome>>)

  /** A serial run of the poller, from any store whose cache covers its ConfigMap: in particular from a
      process that has loaded nothing, over a ConfigMap that is missing, blank, unreadable or full. */
  ghost predicate IsRun(t: Trace) {
    && |t.nodes| == |t.actions| + 1 && |t.outs| == |t.actions|
    && Sound(t.nodes[0].idem)
    && forall i :: 0 <= i < |t.actions| ==> Next(t.nodes[i], t.actions[i], t.nodes[i + 1], t.outs[i])
  }

  /** The action is an ApplyJob for this trimmed key. */
  predicate For(a: Action, k: string) {
    !a.Restart? && Trim(a.job.idempotencyKey) == k
  }

  // ---------- One ApplyJob ----------

  lemma AppliedSound(n: Node, job: Job, env: Env, n': Node, out: Outcome)
    requires Sound(n.idem) && Applied(n, job, env, n', out)
    ensures Sound(n'.idem) && Persisted(n.idem) <= Persisted(n'.idem)
  {
    hide Trim, Tight, LoadKeys;
    LoadSound(n.idem, env.readOk);
    if job.idempotencyKey != "" && !IsExpired(job, env.now) {
      var (idem, seen) := Checked(n.idem, job.idempotencyKey, env.readOk);
      if seen == Some(false) && Supported(job.kind) && env.applied {
        RecordSound(idem, job.idempotencyKey, env.rereadOk, env.write, n'.idem, out == Succeeded);
      }
    }
  }

  /** A success of a non-blank key means that the key is persisted and the ConfigMap holds exactly
      the cached keys. */
  lemma SuccessPersists(n: Node, job: Job, env: Env, n': Node, out: Outcome)
    requires Sound(n.idem) && Applied(n, job, env, n', out)
    requires out == Succeeded && Trim(job.idempotencyKey) != ""
    ensures Trim(job.idempotencyKey) in Persisted(n'.idem)
    ensures n'.idem.cache.Some? && Persisted(n'.idem) == n'.idem.cache.value
  {
    hide Tight, LoadKeys;
    LoadSound(n.idem, env.readOk);
    assert job.idempotencyKey != "";
    var (idem, seen) := Checked(n.idem, job.idempotencyKey, env.readOk);
    RecordSound(idem, job.idempotencyKey, env.rereadOk, env.write, n'.idem, true);
  }

  /** A persisted key is never applied again: the cluster stays as it is. */
  lemma PersistedBlocks(n: Node, job: Job, env: Env, n': Node, out: Outcome)
    requires Sound(n.idem) && Applied(n, job, env, n', out)
    requires Trim(job.idempotencyKey) in Persisted(n.idem) && Trim(job.idempotencyKey) != ""
    ensures n'.cluster == n.cluster && out != Succeeded
  {
    hide Tight, LoadKeys;
    LoadSound(n.idem, env.readOk);
    assert job.idempotencyKey != "";
  }

  /** What a job leaves of its key. After a dispatch that succeeded, a non-blank key is cached, whether or
      not the write went through, and persisted with all known keys exactly when the write reached the
      ConfigMap; nothing else changes what is persisted. */
  lemma KeysAfterApply(n: Node, job: Job, env: Env, n': Node, out: Outcome)
    requires Sound(n.idem) && Applied(n, job, env, n', out)
    ensures var k := Trim(job.idempotencyKey);
      var recorded := Dispatchable(n, job, env) && env.applied && k != "";
      && (recorded ==> n'.idem.cache == Some(KnownKeys(n.idem) + {k}))
      && Persisted(n'.idem) ==
           if recorded && !env.write.Failed? then KnownKeys(n.idem) + {k} else Persisted(n.idem)
  {
    hide Tight, LoadKeys, Trim;
    var k := Trim(job.idempotencyKey);
    CheckedExact(n.idem, job.idempotencyKey, env.readOk);
    BlankTrim();
    LoadSound(n.idem, env.readOk);
    if Dispatchable(n, job, env) && env.applied && k != "" {
      var keys := KnownKeys(n.idem) + {k};
      TrimTight(job.idempotencyKey);
      assert Clean(keys);
      if !env.write.Failed? { LoadRestores(n'.idem.configMap.value.list, keys); }
    }
  }

  /** A failed write therefore turns the next attempt, in the same process, into a replay: the job is not
      applied again, although its key was not persisted and it was not answered with success. */
  lemma FailedWriteReplays(n: Node, job: Job, env: Env, n1: Node, out: Outcome, again: Env, n2: Node, out2: Outcome)
    requires Sound(n.idem) && Applied(n, job, env, n1, out) && Applied(n1, job, again, n2, out2)
    requires Dispatchable(n, job, env) && env.applied && Trim(job.idempotencyKey) != "" && env.write.Failed?
    ensures out == Error && Trim(job.idempotencyKey) !in Persisted(n1.idem)
    ensures n2.cluster == n1.cluster && (out2 == Replay || out2 == Expired)
  {
    KeysAfterApply(n, job, env, n1, out);
    ApplyExact(n, job, env, n1, out);
    ApplyExact(n1, job, again, n2, out2);
    hide Trim, LoadKeys, Applied;
  }

  /** A key that is blank after trimming is not tracked at all: such a job can succeed every time. */
  lemma BlankKeysAreNotTracked(n: Node, job: Job, env: Env)
    requires Trim(job.idempotencyKey) == "" && Supported(job.kind) && !IsExpired(job, env.now) && env.applied
    ensures Applied(n, job, env, n.(cluster := env.after), Succeeded)
  {
  }

  // ---------- Whole runs ----------

  lemma NextSound(n: Node, a: Action, n': Node, out: Option<Outcome>)
    requires Sound(n.idem) && Next(n, a, n', out)
    ensures Sound(n'.idem) && Persisted(n.idem) <= Persisted(n'.idem)
  {
    hide Sound, Applied;
    match a
    case Apply(job, env) => AppliedSound(n, job, env, n', out.value);
    case CrashIn(job, env) =>
      var n1, o :| Applied(n, job, env, n1, o) && n' == Wiped(n1);
      AppliedSound(n, job, env, n1, o);
      WipedSound(n1);
    case Restart => WipedSound(n);
  }

  lemma WipedSound(n: Node)
    requires Sound(n.idem)
    ensures Sound(Wiped(n).idem) && Persisted(Wiped(n).idem) == Persisted(n.idem)
  {
  }

  lemma {:induction false} RunSound(t: Trace, i: nat)
    requires IsRun(t) && i < |t.nodes|
    ensures Sound(t.nodes[i].idem)
    decreases i
  {
    if i > 0 {
      RunSound(t, i - 1);
      assert Next(t.nodes[i - 1], t.actions[i - 1], t.nodes[i - 1 + 1], t.outs[i - 1]);
      NextSound(t.nodes[i - 1], t.actions[i - 1], t.nodes[i], t.outs[i - 1]);
    }
  }

  /** No run ever loses a persisted key, across failed writes, crashes and restarts. */
  lemma {:induction false} PersistedGrows(t: Trace, i: nat, j: nat)
    requires IsRun(t) && i <= j < |t.nodes|
    ensures Persisted(t.nodes[i].idem) <= Persisted(t.nodes[j].idem)
    decreases j - i
  {
    hide Sound, Next;
    if i < j {
      PersistedGrows(t, i, j - 1);
      RunSound(t, j - 1);
      assert Next(t.nodes[j - 1], t.actions[j - 1], t.nodes[j - 1 + 1], t.outs[j - 1]);
      NextSound(t.nodes[j - 1], t.actions[j - 1], t.nodes[j], t.outs[j - 1]);
    }
  }

  /** At most one success per key in every serial run with crashes and failed or half-done writes:
      once ApplyJob reported success for a trimmed non-blank key, no later job with that key reports
      success or changes the cluster, whether or not it lives to reply. */
  lemma AtMostOneSuccess(t: Trace, i: nat, j: nat, k: string)
    requires IsRun(t) && i < j < |t.actions| && k != ""
    requires t.actions[i].Apply? && For(t.actions[i], k) && t.outs[i] == Some(Succeeded)
    requires For(t.actions[j], k)
    ensures t.outs[j] != Some(Succeeded)
    ensures t.nodes[j + 1].cluster == t.nodes[j].cluster
  {
    hide Sound, Applied, Persisted, Trim;
    var a, b := t.actions[i], t.actions[j];
    RunSound(t, i);
    assert Next(t.nodes[i], a, t.nodes[i + 1], t.outs[i]);
    SuccessPersists(t.nodes[i], a.job, a.env, t.nodes[i + 1], Succeeded);
    PersistedGrows(t, i + 1, j);
    RunSound(t, j);
    assert Next(t.nodes[j], b, t.nodes[j + 1], t.outs[j]);
    if b.Apply? {
      PersistedBlocks(t.nodes[j], b.job, b.env, t.nodes[j + 1], t.outs[j].value);
    } else {
      var n1, o :| Applied(t.nodes[j], b.job, b.env, n1, o) && t.nodes[j + 1] == Wiped(n1);
      PersistedBlocks(t.nodes[j], b.job, b.env, n1, o);
    }
  }

  /** In every run the ConfigMap's keys are among the cached ones whenever a cache is loaded. */
  lemma CacheCoversConfigMap(t: Trace, i: nat)
    requires IsRun(t) && i < |t.nodes|
    ensures t.nodes[i].idem.cache.Some? ==> Persisted(t.nodes[i].idem) <= t.nodes[i].idem.cache.value
  {
    RunSound(t, i);
  }
}
