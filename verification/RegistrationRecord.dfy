/** The record of the exchange: exactly which reconciles of a run write the fingerprint of a token, and
    how the record of an inline token is lost and found again. */
module RegistrationRecord {
  import opened Text
  import opened Conditions
  import opened Registration
  import opened RegistrationSafety

  // ---------- When a reconcile writes the record ----------

  function Issued(c: Cluster, env: Env): Credentials
    requires env.register.Some?
  {
    Credentials(Endpoint(c.spec), env.register.value.clusterID, env.register.value.token)
  }

  /** The exchange is made and answered with credentials that can be stored. */
  predicate Exchanges(c: Cluster, env: Env) {
    Endpoint(c.spec) != "" && env.register.Some? && CompleteCredentials(Issued(c, env))
  }

  /** No spec write is needed after the exchange, or it lands. */
  predicate SpecSettled(r: Run, token: Token, env: Env)
    requires token.Token? && env.register.Some?
  {
    (RegisteredSpec(r.local.spec, token, env) == r.local.spec && !r.local.reRegister) || r.Landed(env.specWrite)
  }

  /** The exchange got as far as the status write. */
  predicate ReachesStatus(r: Run, token: Token, env: Env)
    requires token.Token?
  {
    Exchanges(r.local, env) && env.persist.Written? && SpecSettled(r, token, env)
  }

  function SecretAfter(r: Run, env: Env): Option<Credentials> {
    if Exchanges(r.local, env) && Arrives(env.persist) then Some(Trimmed(Issued(r.local, env))) else r.world.secret
  }

  /** A reconcile that starts from this copy resolves a token that it takes for unrecorded, and its
      success write or an adopting write gets through. */
  predicate Records(r: Run, fp: string -> string, env: Env) {
    var token := ResolveToken(r.local.spec, env.tokenSecret);
    var success, adopt := Retry(env.successTries, 0), Retry(env.adoptTries, 0);
    && token.Token? && (r.local.reRegister || fp(token.value) != r.local.status.observedToken)
    && if !r.local.reRegister && LoadOk(r.world.secret, env, InGuard) then Arrives(adopt)
       else
         || (ReachesStatus(r, token, env) && Arrives(success))
         || (&& !(ReachesStatus(r, token, env) && success.Written?)
             && !r.local.reRegister && LoadOk(SecretAfter(r, env), env, InRescue) && Arrives(adopt))
  }

  function TokenOf(r: Run, env: Env): string {
    var token := ResolveToken(r.local.spec, env.tokenSecret);
    if token.Token? then token.value else ""
  }

  function Observed(w: World): string {
    w.cluster.status.observedToken
  }

  /** A copy that can still be written shows the recorded fingerprint. */
  predicate Synced(r: Run) {
    r.current ==> r.local.status.observedToken == Observed(r.world)
  }

  lemma RecordRegistrationRecords(r: Run, token: Token, fingerprint: string, env: Env)
    requires token.Token? && env.register.Some? && Synced(r)
    ensures var (r', ok) := RecordRegistration(r, token, fingerprint, env);
      && Synced(r') && r'.world.secret == r.world.secret
      && ok == (SpecSettled(r, token, env) && Retry(env.successTries, 0).Written?)
      && Observed(r'.world) ==
           if SpecSettled(r, token, env) && Arrives(Retry(env.successTries, 0)) then fingerprint else Observed(r.world)
  {
    hide RegisteredSpec, Retry, SuccessStatus, Run.WriteSpec;
    var spec := RegisteredSpec(r.local.spec, token, env);
    SpecWriteKeeps(r, spec, false, env.specWrite);
    SuccessShows(r.world.cluster.status, fingerprint, env);
  }

  lemma SpecWriteKeeps(r: Run, spec: Spec, reRegister: bool, w: Write)
    requires Synced(r)
    ensures var r' := r.WriteSpec(spec, reRegister, w);
      Synced(r') && r'.world.secret == r.world.secret && r'.world.cluster.status == r.world.cluster.status
  {
  }

  lemma SuccessShows(s: Status, fingerprint: string, env: Env)
    ensures SuccessStatus(s, fingerprint, env).observedToken == fingerprint
  {
    hide Set;
  }

  lemma RegisterRecords(r: Run, token: Token, fingerprint: string, env: Env)
    requires token.Token? && Synced(r)
    ensures var (r', ok) := Register(r, token, fingerprint, env);
      && Synced(r') && r'.world.secret == SecretAfter(r, env)
      && ok == (ReachesStatus(r, token, env) && Retry(env.successTries, 0).Written?)
      && Observed(r'.world) ==
           if ReachesStatus(r, token, env) && Arrives(Retry(env.successTries, 0)) then fingerprint
             else Observed(r.world)
  {
    hide CompleteCredentials, Trim, Endpoint, RegisteredSpec, Retry, RecordRegistration;
    if Exchanges(r.local, env) && env.persist.Written? {
      var r1 := r.(called := Some(token.value));
      RecordRegistrationRecords(r1.(world := r1.world.(secret := Some(Trimmed(Issued(r.local, env))))), token,
        fingerprint, env);
    }
  }

  lemma AdoptRecords(r: Run, fingerprint: string, env: Env)
    requires Synced(r)
    ensures var r' := Adopt(r, fingerprint, env);
      Synced(r') && Observed(r'.world) == if Arrives(Retry(env.adoptTries, 0)) then fingerprint else Observed(r.world)
  {
    hide Retry;
  }

  lemma StatusesKeepToken(s: Status, env: Env)
    ensures PendingStatus(s, env).observedToken == s.observedToken
      && FailureStatus(s, env).observedToken == s.observedToken
  {
    hide Set, SyncOverflow;
  }

  lemma EnrollRecords(r: Run, fp: string -> string, env: Env)
    requires Synced(r)
    ensures var r' := Enroll(r, fp, env);
      Synced(r') && Observed(r'.world) == if Records(r, fp, env) then fp(TokenOf(r, env)) else Observed(r.world)
  {
    hide CompleteCredentials, ResolveToken, Register, Adopt, PendingStatus, FailureStatus, Retry, ReachesStatus,
      SecretAfter;
    var token := ResolveToken(r.local.spec, env.tokenSecret);
    StatusesKeepToken(r.local.status, env);
    if token.Token? {
      var r1 := Register(r, token, fp(token.value), env).0;
      RegisterRecords(r, token, fp(token.value), env);
      AdoptRecords(r, fp(token.value), env);
      AdoptRecords(r1, fp(token.value), env);
      StatusesKeepToken(r1.local.status, env);
    }
  }

  lemma RotateKeepsRecord(r: Run, env: Env)
    requires Synced(r)
    ensures Synced(Rotate(r, env)) && Observed(Rotate(r, env).world) == Observed(r.world)
  {
    hide RotationFailedStatus, RotateCredentials;
    RotateCredentialsFrame(r, env);
    RotateCurrent(r, env);
    StatusesKeepRecord(RotateCredentials(r, env).0.local.status, env);
  }

  lemma RotateCurrent(r: Run, env: Env)
    ensures RotateCredentials(r, env).0.current ==> r.current
  {
    hide CompleteCredentials, Trim;
  }

  lemma BeatKeepsRecord(r: Run, env: Env)
    requires Synced(r)
    ensures Observed(Beat(r, env).world) == Observed(r.world)
  {
    hide CompleteCredentials, NoClientStatus, UnreachableStatus, AliveStatus;
    StatusesKeepRecord(r.local.status, env);
  }

  /** The record after a reconcile, exactly. */
  lemma ReconcileRecords(w: World, fp: string -> string, env: Env)
    ensures Observed(Reconcile(w, fp, env).world) ==
      if Records(Opening(w, env), fp, env) then fp(TokenOf(Opening(w, env), env)) else Observed(w)
  {
    hide Enroll, Rotate, Beat, Records, TokenOf;
    var r := Opening(w, env);
    EnrollRecords(r, fp, env);
    RotateKeepsRecord(Enroll(r, fp, env), env);
    BeatKeepsRecord(Rotate(Enroll(r, fp, env), env), env);
  }

  // ---------- Over whole runs ----------

  /** Step `i` of the run is a reconcile that writes the record. */
  predicate RecordsAt(w: World, steps: seq<Step>, fp: string -> string, i: nat)
    requires i < |steps|
  {
    steps[i].Cycle? && Records(Opening(WorldAt(w, steps, fp, i), steps[i].env), fp, steps[i].env)
  }

  lemma StepRecords(w: World, steps: seq<Step>, fp: string -> string, i: nat)
    requires i < |steps|
    ensures var now := WorldAt(w, steps, fp, i);
      Observed(WorldAt(w, steps, fp, i + 1)) ==
        if RecordsAt(w, steps, fp, i) then fp(TokenOf(Opening(now, steps[i].env), steps[i].env)) else Observed(now)
  {
    hide Reconcile, Records, TokenOf;
    if steps[i].Cycle? { ReconcileRecords(WorldAt(w, steps, fp, i), fp, steps[i].env); }
  }

  /** The record is that of the last reconcile that wrote one, and what it was at the start if none did. */
  lemma {:induction false} RecordIsLast(w: World, steps: seq<Step>, fp: string -> string, i: nat, n: nat)
    requires i <= n <= |steps| && forall j :: i <= j < n ==> !RecordsAt(w, steps, fp, j)
    ensures Observed(WorldAt(w, steps, fp, n)) == Observed(WorldAt(w, steps, fp, i))
    ensures i > 0 && RecordsAt(w, steps, fp, i - 1) ==>
      var env := steps[i - 1].env;
      Observed(WorldAt(w, steps, fp, n)) == fp(TokenOf(Opening(WorldAt(w, steps, fp, i - 1), env), env))
    decreases n
  {
    hide RecordsAt, Records, TokenOf, After;
    if i < n {
      RecordIsLast(w, steps, fp, i, n - 1);
      StepRecords(w, steps, fp, n - 1);
    } else if i > 0 {
      StepRecords(w, steps, fp, i - 1);
    }
  }

  /** Fingerprints are not blank. */
  ghost predicate Marks(fp: string -> string) {
    forall token :: fp(token) != ""
  }

  /** In every run from an unrecorded cluster a fingerprint is recorded exactly when some reconcile that
      resolved a token, from a current or an outdated copy, got its success or adopting write through. */
  lemma {:induction false} RecordedExactlyWhen(w: World, steps: seq<Step>, fp: string -> string, n: nat)
    requires Marks(fp) && Observed(w) == "" && n <= |steps|
    ensures Observed(WorldAt(w, steps, fp, n)) != "" <==> exists i :: 0 <= i < n && RecordsAt(w, steps, fp, i)
    decreases n
  {
    hide RecordsAt, TokenOf, After;
    if n > 0 {
      RecordedExactlyWhen(w, steps, fp, n - 1);
      StepRecords(w, steps, fp, n - 1);
    }
  }

  // ---------- Inline tokens ----------

  /** The spec has no token: an inline one was cleared, and no Secret is referenced. */
  predicate Tokenless(spec: Spec) {
    spec.tokenRef.None? && Trim(spec.token) == ""
  }

  predicate BringsNoToken(step: Step) {
    step.Edit? ==> Tokenless(step.spec)
  }

  /** No edit puts a token back. */
  predicate NoTokenBack(steps: seq<Step>) {
    forall i :: 0 <= i < |steps| ==> BringsNoToken(steps[i])
  }

  predicate RunTokenless(r: Run) {
    Tokenless(r.world.cluster.spec) && (r.current ==> Tokenless(r.local.spec))
  }

  lemma RegisteredTokenless(spec: Spec, token: Token, env: Env)
    requires token.Token? && env.register.Some? && Tokenless(spec)
    ensures Tokenless(RegisteredSpec(spec, token, env))
  {
    assert Trim("") == "";
  }

  lemma RegisterTokenless(r: Run, token: Token, fingerprint: string, env: Env)
    requires token.Token? && RunTokenless(r)
    ensures RunTokenless(Register(r, token, fingerprint, env).0)
  {
    hide CompleteCredentials, Endpoint, Retry, SuccessStatus, Trimmed, Trim, RegisteredSpec, Tokenless;
    if env.register.Some? && r.current { RegisteredTokenless(r.local.spec, token, env); }
  }

  lemma ReconcileTokenless(w: World, fp: string -> string, env: Env)
    requires Tokenless(w.cluster.spec)
    ensures Tokenless(Reconcile(w, fp, env).world.cluster.spec)
  {
    hide Enroll, Rotate, Beat, Tokenless;
    var r := Opening(w, env);
    EnrollTokenless(r, fp, env);
    RotateTokenless(Enroll(r, fp, env), env);
    BeatTokenless(Rotate(Enroll(r, fp, env), env), env);
  }

  lemma EnrollTokenless(r: Run, fp: string -> string, env: Env)
    requires RunTokenless(r)
    ensures RunTokenless(Enroll(r, fp, env))
  {
    hide CompleteCredentials, Trim, ResolveToken, Register, PendingStatus, FailureStatus, AdoptedStatus, Retry,
      Tokenless, LoadOk;
    var token := ResolveToken(r.local.spec, env.tokenSecret);
    if token.Token? { RegisterTokenless(r, token, fp(token.value), env); }
  }

  lemma RotateTokenless(r: Run, env: Env)
    requires RunTokenless(r)
    ensures RunTokenless(Rotate(r, env))
  {
    hide RotationFailedStatus, RotateCredentials, Tokenless;
    RotateCredentialsTokenless(r, env);
  }

  lemma RotateCredentialsTokenless(r: Run, env: Env)
    requires RunTokenless(r)
    ensures RunTokenless(RotateCredentials(r, env).0)
  {
    hide CompleteCredentials, Trim;
  }

  lemma BeatTokenless(r: Run, env: Env)
    requires RunTokenless(r)
    ensures RunTokenless(Beat(r, env))
  {
    hide CompleteCredentials, Trim, NoClientStatus, UnreachableStatus, AliveStatus;
  }

  lemma {:induction false} TokenlessAt(w: World, steps: seq<Step>, fp: string -> string, n: nat)
    requires Tokenless(w.cluster.spec) && NoTokenBack(steps) && n <= |steps|
    ensures Tokenless(WorldAt(w, steps, fp, n).cluster.spec)
  {
    hide Tokenless, Reconcile;
    if n > 0 {
      TokenlessAt(w, steps, fp, n - 1);
      assert BringsNoToken(steps[n - 1]);
      if steps[n - 1].Cycle? { ReconcileTokenless(WorldAt(w, steps, fp, n - 1), fp, steps[n - 1].env); }
    }
  }

  /** The reconcile starts from an outdated copy that still has a token. */
  predicate FromStaleToken(step: Step) {
    step.Cycle? && step.env.stale.Some? && ResolveToken(step.env.stale.value.spec, step.env.tokenSecret).Token?
  }

  /** Once the spec has no token and none is put back, only reconciles that start from an outdated copy
      with the token can write the record. */
  lemma TokenlessRecords(w: World, steps: seq<Step>, fp: string -> string, i: nat)
    requires Tokenless(w.cluster.spec) && NoTokenBack(steps) && i < |steps|
    ensures RecordsAt(w, steps, fp, i) ==> FromStaleToken(steps[i])
  {
    hide LoadOk, Retry, ReachesStatus, SecretAfter, NoTokenBack, WorldAt, Trim;
    TokenlessAt(w, steps, fp, i);
  }

  /** Exactly when the lost record of an inline token is made up for: some reconcile starts from an
      outdated copy that still has the token and gets its success or adopting write through. */
  lemma InlineRecordExactlyWhen(w: World, steps: seq<Step>, fp: string -> string, n: nat)
    requires Marks(fp) && Observed(w) == "" && Tokenless(w.cluster.spec) && NoTokenBack(steps) && n <= |steps|
    ensures Observed(WorldAt(w, steps, fp, n)) != "" <==>
      exists i :: 0 <= i < n && FromStaleToken(steps[i]) && RecordsAt(w, steps, fp, i)
  {
    hide RecordsAt, FromStaleToken, WorldAt, Tokenless;
    RecordedExactlyWhen(w, steps, fp, n);
    forall i | 0 <= i < n && RecordsAt(w, steps, fp, i)
      ensures FromStaleToken(steps[i])
    {
      TokenlessRecords(w, steps, fp, i);
    }
  }

  /** Without such a copy no reconcile of any run changes the record again. */
  lemma InlineRecordStaysLost(w: World, steps: seq<Step>, fp: string -> string, n: nat)
    requires Tokenless(w.cluster.spec) && NoTokenBack(steps) && n <= |steps|
    requires forall i :: 0 <= i < n ==> !FromStaleToken(steps[i])
    ensures Observed(WorldAt(w, steps, fp, n)) == Observed(w)
  {
    hide RecordsAt, FromStaleToken, Tokenless;
    forall i | 0 <= i < n
      ensures !RecordsAt(w, steps, fp, i)
    {
      TokenlessRecords(w, steps, fp, i);
    }
    RecordIsLast(w, steps, fp, 0, n);
  }

  // ---------- How the record is lost ----------

  /** An inline token is exchanged, the credentials are stored and the spec is written, and then no
      status write gets through. */
  predicate LosesRecord(w: World, fp: string -> string, env: Env) {
    var spec := w.cluster.spec;
    && env.stale.None? && !w.cluster.reRegister && Observed(w) == "" && w.secret.None?
    && spec.tokenRef.None? && Trim(spec.token) != "" && fp(Trim(spec.token)) != ""
    && Exchanges(w.cluster, env) && env.persist.Written? && env.specWrite.Written?
    && !Arrives(Retry(env.successTries, 0)) && !Arrives(Retry(env.adoptTries, 0))
  }

  /** Then complete credentials are stored, the token is gone from the spec and nothing is recorded. */
  lemma InlineRecordLost(w: World, fp: string -> string, env: Env)
    requires LosesRecord(w, fp, env)
    ensures var w' := Reconcile(w, fp, env).world;
      Complete(w'.secret) && Tokenless(w'.cluster.spec) && Observed(w') == ""
  {
    ReconcileRecords(w, fp, env);
    assert !Records(Opening(w, env), fp, env);
    EnrollLoses(w, fp, env);
    hide Enroll, Rotate, Beat, Records, LosesRecord, CompleteCredentials, Trim;
    var r1 := Enroll(Opening(w, env), fp, env);
    RotateTokenless(r1, env);
    RotateKeeps(r1, env);
    BeatTokenless(Rotate(r1, env), env);
    BeatKeeps(Rotate(r1, env), env);
  }

  lemma EnrollLoses(w: World, fp: string -> string, env: Env)
    requires LosesRecord(w, fp, env)
    ensures var r := Enroll(Opening(w, env), fp, env);
      Complete(r.world.secret) && RunTokenless(r)
  {
    hide CompleteCredentials, Retry, Set, FailureStatus;
    TrimmedComplete(Issued(w.cluster, env));
    assert Trim("") == "";
  }

  const NEW_STATUS := Status(NoPhase, [], "", None, false)
  const INLINE_SPEC := Spec("token", None, "", "https://control.plane", "", false)
  const FRESH := World(Cluster(INLINE_SPEC, false, NEW_STATUS), None, [])

  /** A reconcile of a new cluster after whose exchange every status write is refused. */
  function Unlucky(): Env {
    Env(None, NotFound, {}, Some(Response("cluster", "bearer")), Written, Written, [Refused], [Refused], true, Refused,
        None, Written, Written, true, true, Refused, None, "", 0)
  }

  /** The loss happens: a new cluster, one reconcile, and from then on no run without the token and
      without an outdated copy of it ever records the exchange. */
  lemma InlineLossReachable(fp: string -> string, steps: seq<Step>, n: nat)
    requires fp("token") != "" && NoTokenBack(steps) && n <= |steps|
    requires forall i :: 0 <= i < n ==> !FromStaleToken(steps[i])
    ensures var w := Reconcile(FRESH, fp, Unlucky()).world;
      Complete(w.secret) && Tokenless(w.cluster.spec) && Observed(WorldAt(w, steps, fp, n)) == ""
  {
    hide Reconcile, FromStaleToken, WorldAt;
    UnluckyLoses(fp);
    InlineRecordLost(FRESH, fp, Unlucky());
    InlineRecordStaysLost(Reconcile(FRESH, fp, Unlucky()).world, steps, fp, n);
  }

  lemma UnluckyLoses(fp: string -> string)
    requires fp("token") != ""
    ensures LosesRecord(FRESH, fp, Unlucky())
  {
    var env := Unlucky();
    TrimTight("token");
    TrimTight("https://control.plane");
    TrimTight("cluster");
    TrimTight("bearer");
    hide Trim;
    assert Endpoint(FRESH.cluster.spec) == "https://control.plane";
    assert Retry([Refused], 0) == Refused;
  }

  /** And it can be made up for, without any token in the spec: a reconcile that starts from an outdated
      copy with the token finds the stored credentials and records it. */
  lemma StaleCopyMakesUp(w: World, fp: string -> string, env: Env)
    requires Complete(w.secret) && InGuard !in env.badReads && Arrives(Retry(env.adoptTries, 0))
    requires env.stale.Some? && !env.stale.value.reRegister
      && ResolveToken(env.stale.value.spec, env.tokenSecret).Token?
    requires fp(ResolveToken(env.stale.value.spec, env.tokenSecret).value) != env.stale.value.status.observedToken
    ensures Observed(Reconcile(w, fp, env).world) == fp(ResolveToken(env.stale.value.spec, env.tokenSecret).value)
  {
    hide Reconcile, ResolveToken, CompleteCredentials, Retry;
    ReconcileRecords(w, fp, env);
  }

  /** A reconcile that starts from the copy the lost exchange started from, and may adopt. */
  function Late(): Env {
    Unlucky().(stale := Some(FRESH.cluster), adoptTries := [Written])
  }

  /** It happens: after the loss of InlineLossReachable a reconcile from the copy of the new cluster, which
      the cache may still hold, records the exchange. */
  lemma StaleRecoveryReachable(fp: string -> string)
    requires fp("token") != ""
    ensures var w := Reconcile(FRESH, fp, Unlucky()).world;
      Observed(w) == "" && Tokenless(w.cluster.spec) && Observed(Reconcile(w, fp, Late()).world) == fp("token")
  {
    UnluckyLoses(fp);
    TrimTight("token");
    hide Reconcile, Trim, Tokenless, LosesRecord, Complete;
    assert Retry([Written], 0) == Written;
    assert ResolveToken(INLINE_SPEC, NotFound) == Token("token", true);
    hide Retry, ResolveToken;
    InlineRecordLost(FRESH, fp, Unlucky());
    StaleCopyMakesUp(Reconcile(FRESH, fp, Unlucky()).world, fp, Late());
  }

  // ---------- A token spent twice ----------

  const REFERRED_SPEC := Spec("", Some(TokenRef("registration", "token")), "cluster", "https://control.plane", "",
    false)
  const REFERRED := World(Cluster(REFERRED_SPEC, false, NEW_STATUS), None, [])

  /** The token Secret is read; the exchange is stored and every status write is refused. */
  function UnluckyReferred(): Env {
    Unlucky().(tokenSecret := Holds("token"))
  }

  lemma ReferredStored(fp: string -> string)
    requires fp("token") != ""
    ensures var w := Reconcile(REFERRED, fp, UnluckyReferred()).world;
      && Complete(w.secret) && Observed(w) == "" && !w.cluster.reRegister
      && w.cluster.spec.tokenRef == REFERRED.cluster.spec.tokenRef
      && Endpoint(w.cluster.spec) == "https://control.plane"
  {
    var env := UnluckyReferred();
    TrimTight("token");
    TrimTight("registration");
    TrimTight("https://control.plane");
    TrimTight("cluster");
    TrimTight("bearer");
    hide Trim, Set;
    TrimmedComplete(Issued(REFERRED.cluster, env));
    assert Retry([Refused], 0) == Refused;
    assert Enroll(Opening(REFERRED, env), fp, env).stop;
  }

  /** A new cluster whose first exchange is stored but not recorded, and whose next reconcile cannot
      read the stored credentials, gives the same token to Register twice. */
  lemma TokenSpentTwice(fp: string -> string) returns (second: Env)
    requires fp("token") != ""
    ensures Reconcile(REFERRED, fp, UnluckyReferred()).called == Some("token")
    ensures var w := Reconcile(REFERRED, fp, UnluckyReferred()).world;
      Complete(w.secret) && Reconcile(w, fp, second).called == Some("token")
  {
    hide Reconcile, ResolveToken, Complete, Endpoint;
    FirstSpent(fp);
    ReferredStored(fp);
    second := UnluckyReferred().(badReads := {InGuard});
    var w := Reconcile(REFERRED, fp, UnluckyReferred()).world;
    ReferredToken(w.cluster.spec);
    UnreadableGuardSpendsAgain(w, fp, second);
  }

  lemma ReferredToken(spec: Spec)
    requires spec.tokenRef == REFERRED_SPEC.tokenRef
    ensures ResolveToken(spec, Holds("token")) == Token("token", false)
  {
    TrimTight("token");
    TrimTight("registration");
  }

  lemma FirstSpent(fp: string -> string)
    requires fp("token") != ""
    ensures Reconcile(REFERRED, fp, UnluckyReferred()).called == Some("token")
  {
    TrimTight("token");
    TrimTight("registration");
    TrimTight("https://control.plane");
    hide Trim, Set, CompleteCredentials, Retry, Rotate, Beat, Register;
    var env := UnluckyReferred();
    var r := Opening(REFERRED, env);
    OnlyEnrollCalls(REFERRED, fp, env);
    assert ResolveToken(r.local.spec, env.tokenSecret) == Token("token", false);
    RegisterFrame(r, Token("token", false), fp("token"), env);
  }
}
