/** What every run of cluster reconciles keeps: the one-time token is not spent again once credentials
    are stored, a lost record is made up for, and the phase agrees with the conditions. */
module RegistrationSafety {
  import opened Text
  import opened Conditions
  import opened Registration

  // ---------- Phase and conditions ----------

  predicate Says(s: Status, ctype: string, status: string) {
    StatusOf(s.conditions, ctype) == Some(status)
  }

  /** What each phase says about the three connectivity conditions. */
  predicate PhaseAgrees(s: Status) {
    match s.phase
    case NoPhase => true
    case Pending => Says(s, CONNECTED, FALSE) && Says(s, AUTHENTICATED, FALSE)
    case Registering => Says(s, CONNECTED, TRUE) && Says(s, AUTHENTICATED, TRUE)
    case Connected => Says(s, CONNECTED, TRUE) && Says(s, AUTHENTICATED, TRUE) && Says(s, DISCONNECTED, FALSE)
    case Disconnected => Says(s, CONNECTED, FALSE) && Says(s, AUTHENTICATED, FALSE) && Says(s, DISCONNECTED, TRUE)
    case Failed => Says(s, AUTHENTICATED, FALSE)
  }

  /** A fingerprint is recorded only together with the consumed mark. */
  predicate Recorded(s: Status) {
    s.observedToken != "" ==> s.consumed == Some(true)
  }

  predicate Fine(s: Status) {
    PhaseAgrees(s) && Recorded(s)
  }

  lemma SyncKeeps(cs: seq<Condition>, env: Env, u: string)
    requires u != BUFFER_OVERFLOW
    ensures StatusOf(SyncOverflow(cs, env), u) == StatusOf(cs, u)
  {
    hide Set, StatusOf;
    if env.overflow.Some? {
      SetStatus(cs, BUFFER_OVERFLOW, TRUE, "EventBufferFull", env.message, env.now, u);
      SetStatus(cs, BUFFER_OVERFLOW, FALSE, "BufferDrained", "Outbound event buffer has drained successfully", env.now,
        u);
    }
  }

  lemma SyncKeepsAll(cs: seq<Condition>, env: Env)
    ensures StatusOf(SyncOverflow(cs, env), CONNECTED) == StatusOf(cs, CONNECTED)
    ensures StatusOf(SyncOverflow(cs, env), AUTHENTICATED) == StatusOf(cs, AUTHENTICATED)
    ensures StatusOf(SyncOverflow(cs, env), DISCONNECTED) == StatusOf(cs, DISCONNECTED)
  {
    SyncKeeps(cs, env, CONNECTED);
    SyncKeeps(cs, env, AUTHENTICATED);
    SyncKeeps(cs, env, DISCONNECTED);
  }

  /** Two conditions of different types set one after the other. */
  lemma SetTwo(cs: seq<Condition>, t: string, s: string, r: string, m: string, t': string, s': string, r': string,
      m': string, now: int)
    requires t != t'
    ensures var c2 := Set(Set(cs, t, s, r, m, now), t', s', r', m', now);
      StatusOf(c2, t) == Some(s) && StatusOf(c2, t') == Some(s')
  {
    var c1 := Set(cs, t, s, r, m, now);
    SetStatus(cs, t, s, r, m, now, t);
    SetStatus(c1, t', s', r', m', now, t);
    SetStatus(c1, t', s', r', m', now, t');
  }

  lemma WaitingFine(s: Status, env: Env)
    requires Recorded(s)
    ensures Fine(PendingStatus(s, env)) && Fine(FailureStatus(s, env)) && Fine(NoClientStatus(s, env))
  {
    hide Set, StatusOf, SyncOverflow;
    var cs := s.conditions;
    var m := "registration token is not yet resolvable";
    SetTwo(cs, AUTHENTICATED, FALSE, "TokenSecretMissing", env.message, CONNECTED, FALSE, "RegistrationPending", m,
      env.now);
    SyncKeepsAll(Set(Set(cs, AUTHENTICATED, FALSE, "TokenSecretMissing", env.message, env.now), CONNECTED, FALSE,
      "RegistrationPending", m, env.now), env);
    var m' := "registration token exchange failed";
    SetTwo(cs, AUTHENTICATED, FALSE, "RegistrationFailed", env.message, CONNECTED, FALSE, "RegistrationPending", m',
      env.now);
    SyncKeepsAll(Set(Set(cs, AUTHENTICATED, FALSE, "RegistrationFailed", env.message, env.now), CONNECTED, FALSE,
      "RegistrationPending", m', env.now), env);
    var m'' := "bootstrap credential is not available";
    SetTwo(cs, CONNECTED, FALSE, "CredentialMissing", m'', AUTHENTICATED, FALSE, "CredentialMissing", m'', env.now);
    SyncKeepsAll(Set(Set(cs, CONNECTED, FALSE, "CredentialMissing", m'', env.now), AUTHENTICATED, FALSE,
      "CredentialMissing", m'', env.now), env);
  }

  lemma RegisteredFine(s: Status, fingerprint: string, env: Env)
    ensures Fine(SuccessStatus(s, fingerprint, env))
    ensures PhaseAgrees(s) ==> Fine(AdoptedStatus(s, fingerprint))
  {
    hide Set, StatusOf;
    SetTwo(s.conditions, AUTHENTICATED, TRUE, "RegistrationComplete",
      "registration token exchanged for bootstrap credential",
           CONNECTED, TRUE, "ControlPlaneReachable", "registration exchange succeeded", env.now);
  }

  lemma RotationFine(s: Status, env: Env)
    requires Recorded(s)
    ensures Fine(RotationFailedStatus(s, env))
  {
    hide Set, StatusOf, SyncOverflow;
    SetStatus(s.conditions, AUTHENTICATED, FALSE, "RotationFailed", env.message, env.now, AUTHENTICATED);
    SyncKeepsAll(Set(s.conditions, AUTHENTICATED, FALSE, "RotationFailed", env.message, env.now), env);
  }

  lemma HeartbeatFine(s: Status, env: Env)
    requires Recorded(s)
    ensures Fine(UnreachableStatus(s, env)) && Fine(AliveStatus(s, env))
  {
    hide Set, StatusOf, SyncOverflow;
    var c1 := Set(s.conditions, CONNECTED, FALSE, "ControlPlaneUnreachable", env.message, env.now);
    var c2 := Set(c1, DISCONNECTED, TRUE, "NoRecentRoundTrip", env.message, env.now);
    var c3 := Set(c2, AUTHENTICATED, FALSE, "ControlPlaneAuthenticationFailed", env.message, env.now);
    SetTwo(s.conditions, CONNECTED, FALSE, "ControlPlaneUnreachable", env.message, DISCONNECTED, TRUE,
      "NoRecentRoundTrip", env.message, env.now);
    SetTwo(c1, DISCONNECTED, TRUE, "NoRecentRoundTrip", env.message, AUTHENTICATED, FALSE,
      "ControlPlaneAuthenticationFailed", env.message, env.now);
    SetStatus(c2, AUTHENTICATED, FALSE, "ControlPlaneAuthenticationFailed", env.message, env.now, CONNECTED);
    SyncKeepsAll(c3, env);
    var d1 := Set(s.conditions, CONNECTED, TRUE, "RoundTripOK", "Recent round-trip to the control plane succeeded",
      env.now);
    var d2 := Set(d1, DISCONNECTED, FALSE, "Connected", "Connection is alive", env.now);
    var d3 := Set(d2, AUTHENTICATED, TRUE, "CredentialAccepted", "Bearer token accepted", env.now);
    SetTwo(s.conditions, CONNECTED, TRUE, "RoundTripOK", "Recent round-trip to the control plane succeeded",
           DISCONNECTED, FALSE, "Connected", "Connection is alive", env.now);
    SetTwo(d1, DISCONNECTED, FALSE, "Connected", "Connection is alive", AUTHENTICATED, TRUE, "CredentialAccepted",
      "Bearer token accepted", env.now);
    SetStatus(d2, AUTHENTICATED, TRUE, "CredentialAccepted", "Bearer token accepted", env.now, CONNECTED);
    SyncKeepsAll(d3, env);
  }

  // ---------- The invariant of a reconcile in progress ----------

  predicate LogFine(log: seq<Status>) {
    forall i :: 0 <= i < |log| ==> Fine(log[i])
  }

  predicate WorldOk(w: World) {
    Fine(w.cluster.status) && LogFine(w.log)
  }

  /** The copy in hand, as far as it can still be written. */
  predicate RunOk(r: Run) {
    WorldOk(r.world) && (r.current ==> Recorded(r.local.status))
  }

  lemma WriteStatusOk(r: Run, s: Status, w: Write)
    requires RunOk(r) && (r.current ==> Fine(s))
    ensures RunOk(r.WriteStatus(s, w))
  {
    hide Fine, PhaseAgrees;
    FineRecorded(s);
  }

  lemma FineRecorded(s: Status)
    ensures Fine(s) ==> Recorded(s)
  {
  }

  lemma PutOk(w: World, s: Status)
    requires WorldOk(w) && Fine(s)
    ensures WorldOk(w.PutStatus(s))
  {
  }

  lemma AdoptOk(r: Run, fingerprint: string, env: Env)
    requires RunOk(r)
    ensures RunOk(Adopt(r, fingerprint, env))
  {
    hide PhaseAgrees, Retry;
    var s := AdoptedStatus(r.world.cluster.status, fingerprint);
    RegisteredFine(r.world.cluster.status, fingerprint, env);
    PutOk(r.world, s);
  }

  lemma RecordRegistrationOk(r: Run, token: Token, fingerprint: string, env: Env)
    requires RunOk(r) && token.Token? && env.register.Some?
    ensures RunOk(RecordRegistration(r, token, fingerprint, env).0)
  {
    hide PhaseAgrees, Retry, Trim, SuccessStatus;
    RegisteredFine(r.world.cluster.status, fingerprint, env);
    PutOk(r.world, SuccessStatus(r.world.cluster.status, fingerprint, env));
  }

  lemma RegisterOk(r: Run, token: Token, fingerprint: string, env: Env)
    requires RunOk(r) && token.Token?
    ensures RunOk(Register(r, token, fingerprint, env).0)
  {
    hide PhaseAgrees, Retry, Trim, RecordRegistration, Endpoint, CompleteCredentials;
    if env.register.Some? {
      var creds := Credentials(Endpoint(r.local.spec), env.register.value.clusterID, env.register.value.token);
      var r1 := r.(called := Some(token.value));
      RecordRegistrationOk(r1.(world := r1.world.(secret := Some(Trimmed(creds)))), token, fingerprint, env);
    }
  }

  lemma EnrollOk(r: Run, fp: string -> string, env: Env)
    requires RunOk(r)
    ensures RunOk(Enroll(r, fp, env))
  {
    hide PhaseAgrees, Trim, ResolveToken, Register, Adopt, PendingStatus, FailureStatus, CompleteCredentials;
    var token := ResolveToken(r.local.spec, env.tokenSecret);
    if r.current {
      WaitingFine(r.local.status, env);
    }
    WriteStatusOk(r, PendingStatus(r.local.status, env), env.failureWrite);
    if token.Token? {
      AdoptOk(r, fp(token.value), env);
      RegisterOk(r, token, fp(token.value), env);
      var r1 := Register(r, token, fp(token.value), env).0;
      AdoptOk(r1, fp(token.value), env);
      if r1.current { WaitingFine(r1.local.status, env); }
      WriteStatusOk(r1, FailureStatus(r1.local.status, env), env.failureWrite);
      ReloadOk(r1, env.reloadOk);
    }
  }

  lemma ReloadOk(r: Run, ok: bool)
    requires RunOk(r)
    ensures RunOk(r.Reload(ok))
  {
  }

  lemma RotateOk(r: Run, env: Env)
    requires RunOk(r)
    ensures RunOk(Rotate(r, env))
  {
    hide PhaseAgrees, Trim, RotationFailedStatus, RotateCredentials, CompleteCredentials;
    RotateCredentialsOk(r, env);
    var r1 := RotateCredentials(r, env).0;
    ReloadOk(r1, env.reloadOk);
    if r1.current { RotationFine(r1.local.status, env); }
    WriteStatusOk(r1, RotationFailedStatus(r1.local.status, env), env.failureWrite);
  }

  lemma RotateCredentialsOk(r: Run, env: Env)
    requires RunOk(r)
    ensures RunOk(RotateCredentials(r, env).0)
  {
    hide PhaseAgrees, Trim, CompleteCredentials;
  }

  lemma BeatOk(r: Run, env: Env)
    requires RunOk(r)
    ensures RunOk(Beat(r, env))
  {
    hide PhaseAgrees, Trim, NoClientStatus, UnreachableStatus, AliveStatus;
    if r.current {
      WaitingFine(r.local.status, env);
      HeartbeatFine(r.local.status, env);
    }
    WriteStatusOk(r, NoClientStatus(r.local.status, env), env.heartbeatWrite);
    WriteStatusOk(r, UnreachableStatus(r.local.status, env), env.heartbeatWrite);
    WriteStatusOk(r, AliveStatus(r.local.status, env), env.heartbeatWrite);
  }

  /** One reconcile keeps every persisted status fine. */
  lemma ReconcileOk(w: World, fp: string -> string, env: Env)
    requires WorldOk(w)
    ensures WorldOk(Reconcile(w, fp, env).world)
  {
    hide PhaseAgrees, Enroll, Rotate, Beat, Recorded;
    var r0 := Opening(w, env);
    OpeningOk(w, env);
    EnrollOk(r0, fp, env);
    var r1 := Enroll(r0, fp, env);
    RotateOk(r1, env);
    BeatOk(Rotate(r1, env), env);
  }

  lemma OpeningOk(w: World, env: Env)
    requires WorldOk(w)
    ensures RunOk(Opening(w, env))
  {
  }

  // ---------- Credentials and requests ----------

  lemma TrimmedComplete(c: Credentials)
    requires CompleteCredentials(c)
    ensures CompleteCredentials(Trimmed(c))
  {
    hide Trim, Tight;
    TrimTight(c.baseURL);
    TrimTight(c.clusterID);
    TrimTight(c.token);
  }

  predicate Unrequested(r: Run) {
    !r.local.reRegister && !r.world.cluster.reRegister
  }

  /** Complete credentials are not lost, and no re-registration is asked for that was not. */
  predicate Keeps(r: Run, r': Run) {
    && (Complete(r.world.secret) ==> Complete(r'.world.secret))
    && (Unrequested(r) ==> Unrequested(r'))
  }

  lemma RegisterKeeps(r: Run, token: Token, fingerprint: string, env: Env)
    requires token.Token?
    ensures Keeps(r, Register(r, token, fingerprint, env).0)
  {
    hide Retry, Trim, Endpoint, CompleteCredentials, SuccessStatus, RegisteredSpec;
    if env.register.Some? {
      var creds := Credentials(Endpoint(r.local.spec), env.register.value.clusterID, env.register.value.token);
      if CompleteCredentials(creds) { TrimmedComplete(creds); }
    }
  }

  lemma EnrollKeeps(r: Run, fp: string -> string, env: Env)
    ensures Keeps(r, Enroll(r, fp, env))
  {
    hide Trim, ResolveToken, Register, PendingStatus, FailureStatus, AdoptedStatus, CompleteCredentials, Retry;
    var token := ResolveToken(r.local.spec, env.tokenSecret);
    if token.Token? { RegisterKeeps(r, token, fp(token.value), env); }
  }

  lemma RotateKeeps(r: Run, env: Env)
    ensures Keeps(r, Rotate(r, env))
  {
    hide Trim, RotationFailedStatus, CompleteCredentials;
    if LoadOk(r.world.secret, env, InRotate) && env.rotated.Some? {
      var creds := r.world.secret.value.(token := env.rotated.value);
      if CompleteCredentials(creds) { TrimmedComplete(creds); }
    }
  }

  lemma BeatKeeps(r: Run, env: Env)
    ensures Keeps(r, Beat(r, env))
  {
    hide Trim, NoClientStatus, UnreachableStatus, AliveStatus, CompleteCredentials;
  }

  lemma ReconcileKeeps(w: World, fp: string -> string, env: Env)
    ensures Keeps(Opening(w, env), Reconcile(w, fp, env))
  {
    hide Enroll, Rotate, Beat, Complete, Opening;
    var r := Opening(w, env);
    EnrollKeeps(r, fp, env);
    RotateKeeps(Enroll(r, fp, env), env);
    BeatKeeps(Rotate(Enroll(r, fp, env), env), env);
  }

  // ---------- The token is not spent again ----------

  /** Rotation and heartbeat never call Register. */
  lemma OnlyEnrollCalls(w: World, fp: string -> string, env: Env)
    ensures var r := Reconcile(w, fp, env);
      var r1 := Enroll(Opening(w, env), fp, env);
      r.called == r1.called && r.blamed == r1.blamed
  {
    hide Enroll, Retry, RotationFailedStatus, NoClientStatus, UnreachableStatus, AliveStatus, CompleteCredentials,
      Trimmed;
  }

  /** With credentials stored, and readable before an exchange, the registration path calls no Register
      and does not write Error. If it persists the Error phase although credentials can be read after
      a failed exchange, no complete credentials are stored, not even by itself. */
  lemma EnrollSpares(r: Run, fp: string -> string, env: Env)
    requires !r.local.reRegister && InGuard !in env.badReads && r.called.None? && !r.blamed
    ensures Complete(r.world.secret) ==> Enroll(r, fp, env).called.None? && !Enroll(r, fp, env).blamed
    ensures Enroll(r, fp, env).blamed ==> Enroll(r, fp, env).stop
    ensures Enroll(r, fp, env).blamed && InRescue !in env.badReads ==> !Complete(Enroll(r, fp, env).world.secret)
  {
    hide CompleteCredentials, Trim, Retry, ResolveToken, Register, PendingStatus, FailureStatus;
    var token := ResolveToken(r.local.spec, env.tokenSecret);
    if token.Token? { RegisterNotBlamed(r, token, fp(token.value), env); }
  }

  lemma RegisterNotBlamed(r: Run, token: Token, fingerprint: string, env: Env)
    requires token.Token?
    ensures Register(r, token, fingerprint, env).0.blamed == r.blamed
  {
    hide CompleteCredentials, Trim, Retry, SuccessStatus;
  }

  // ---------- Whole runs ----------

  /** A reconcile, or an edit by a user of the spec and of the request to register again. */
  datatype Step = Cycle(env: Env) | Edit(spec: Spec, reRegister: bool)

  function After(w: World, step: Step, fp: string -> string): World {
    match step
    case Cycle(env) => Reconcile(w, fp, env).world
    case Edit(spec, reRegister) => w.(cluster := w.cluster.(spec := spec, reRegister := reRegister))
  }

  predicate CallsRegister(w: World, step: Step, fp: string -> string) {
    step.Cycle? && Reconcile(w, fp, step.env).called.Some?
  }

  /** The registration path persists the Error phase. */
  predicate WritesError(w: World, step: Step, fp: string -> string) {
    step.Cycle? && Reconcile(w, fp, step.env).blamed
  }

  /** The API server before step `n`. */
  function WorldAt(w: World, steps: seq<Step>, fp: string -> string, n: nat): World
    requires n <= |steps|
  {
    if n == 0 then w else After(WorldAt(w, steps, fp, n - 1), steps[n - 1], fp)
  }

  lemma StepOk(w: World, step: Step, fp: string -> string)
    requires WorldOk(w)
    ensures WorldOk(After(w, step, fp))
  {
    hide Reconcile, Fine, LogFine;
    if step.Cycle? { ReconcileOk(w, fp, step.env); }
  }

  lemma {:induction false} RunOkAt(w: World, steps: seq<Step>, fp: string -> string, n: nat)
    requires WorldOk(w) && n <= |steps|
    ensures WorldOk(WorldAt(w, steps, fp, n))
  {
    hide WorldOk, After;
    if n > 0 {
      RunOkAt(w, steps, fp, n - 1);
      StepOk(WorldAt(w, steps, fp, n - 1), steps[n - 1], fp);
    }
  }

  /** In every run, with any request to register again, any unreadable Secret and any lost write, every
      status that is ever persisted has a phase its conditions bear out, and a fingerprint only with
      the consumed mark. */
  lemma PersistedStatusesFine(w: World, steps: seq<Step>, fp: string -> string, n: nat, i: nat)
    requires WorldOk(w) && n <= |steps| && i < |WorldAt(w, steps, fp, n).log|
    ensures PhaseAgrees(WorldAt(w, steps, fp, n).log[i]) && Recorded(WorldAt(w, steps, fp, n).log[i])
  {
    hide PhaseAgrees, After;
    RunOkAt(w, steps, fp, n);
  }

  // ---------- Runs without a request ----------

  predicate PlainStep(step: Step) {
    match step
    case Cycle(env) => (env.stale.Some? ==> !env.stale.value.reRegister) && InGuard !in env.badReads
    case Edit(_, reRegister) => !reRegister
  }

  /** Registration is never asked for again, not even in an outdated copy, and the read of the
      credentials Secret that guards an exchange works. */
  predicate Plain(steps: seq<Step>) {
    forall i :: 0 <= i < |steps| ==> PlainStep(steps[i])
  }

  lemma StepKeeps(w: World, step: Step, fp: string -> string)
    requires !w.cluster.reRegister && PlainStep(step)
    ensures !After(w, step, fp).cluster.reRegister
    ensures Complete(w.secret) ==> Complete(After(w, step, fp).secret)
  {
    hide Reconcile, Complete;
    if step.Cycle? { ReconcileKeeps(w, fp, step.env); }
  }

  lemma {:induction false} UnrequestedAt(w: World, steps: seq<Step>, fp: string -> string, n: nat)
    requires !w.cluster.reRegister && Plain(steps) && n <= |steps|
    ensures !WorldAt(w, steps, fp, n).cluster.reRegister
  {
    hide After, PlainStep;
    if n > 0 {
      UnrequestedAt(w, steps, fp, n - 1);
      StepKeeps(WorldAt(w, steps, fp, n - 1), steps[n - 1], fp);
    }
  }

  lemma {:induction false} CompleteStays(w: World, steps: seq<Step>, fp: string -> string, i: nat, j: nat)
    requires !w.cluster.reRegister && Plain(steps) && i <= j <= |steps|
    requires Complete(WorldAt(w, steps, fp, i).secret)
    ensures Complete(WorldAt(w, steps, fp, j).secret)
    decreases j
  {
    hide After, Complete, PlainStep;
    if i < j {
      CompleteStays(w, steps, fp, i, j - 1);
      UnrequestedAt(w, steps, fp, j - 1);
      StepKeeps(WorldAt(w, steps, fp, j - 1), steps[j - 1], fp);
    }
  }

  lemma CycleSpares(w: World, fp: string -> string, env: Env)
    requires !w.cluster.reRegister && PlainStep(Cycle(env))
    ensures Complete(w.secret) ==> Reconcile(w, fp, env).called.None? && !Reconcile(w, fp, env).blamed
    ensures Reconcile(w, fp, env).blamed && InRescue !in env.badReads ==> !Complete(Reconcile(w, fp, env).world.secret)
  {
    hide Enroll, Rotate, Beat, Complete;
    OnlyEnrollCalls(w, fp, env);
    EnrollSpares(Opening(w, env), fp, env);
  }

  /** In every run without a request to register again and with the Secret read that guards an exchange
      reliable, whatever spec and status writes conflict, fail or lose their reply: Register is called
      only while no complete credentials are stored; once they are, no later reconcile calls Register
      or has its registration path write the Error phase; and neither does the reconcile that stored
      them, if it can read them back after a failed exchange. */
  lemma TokenNotSpentAgain(w: World, steps: seq<Step>, fp: string -> string, i: nat, j: nat)
    requires !w.cluster.reRegister && Plain(steps) && i <= j < |steps|
    ensures CallsRegister(WorldAt(w, steps, fp, j), steps[j], fp) ==> !Complete(WorldAt(w, steps, fp, j).secret)
    ensures Complete(WorldAt(w, steps, fp, i).secret) ==>
      && !CallsRegister(WorldAt(w, steps, fp, j), steps[j], fp)
      && !WritesError(WorldAt(w, steps, fp, j), steps[j], fp)
    ensures WritesError(WorldAt(w, steps, fp, j), steps[j], fp) && InRescue !in steps[j].env.badReads ==>
      !Complete(WorldAt(w, steps, fp, j + 1).secret)
  {
    hide Reconcile, Complete, PlainStep;
    UnrequestedAt(w, steps, fp, j);
    assert PlainStep(steps[j]);
    if steps[j].Cycle? { CycleSpares(WorldAt(w, steps, fp, j), fp, steps[j].env); }
    if Complete(WorldAt(w, steps, fp, i).secret) { CompleteStays(w, steps, fp, i, j); }
  }

  // ---------- Recovery ----------

  /** Nothing fails, and the token Secret holds a token. Rotation and heartbeat may go either way. */
  predicate Smooth(env: Env) {
    && env.stale.None? && env.badReads == {}
    && env.tokenSecret.Holds? && Trim(env.tokenSecret.value) != ""
    && Retry(env.adoptTries, 0).Written? && env.reloadOk
    && env.failureWrite.Written? && env.rotateSpec.Written? && env.heartbeatWrite.Written?
  }

  predicate Shows(s: Status, fingerprint: string) {
    s.observedToken == fingerprint && s.consumed == Some(true)
  }

  /** The copy in hand and the object in the server both show the fingerprint. */
  predicate BothShow(r: Run, fingerprint: string) {
    r.current && Shows(r.local.status, fingerprint) && Shows(r.world.cluster.status, fingerprint)
  }

  predicate SameRecord(s: Status, s': Status) {
    s'.observedToken == s.observedToken && s'.consumed == s.consumed
  }

  /** What rotation and heartbeat write keeps the record of the exchange. */
  lemma StatusesKeepRecord(s: Status, env: Env)
    ensures SameRecord(s, NoClientStatus(s, env)) && SameRecord(s, UnreachableStatus(s, env))
    ensures SameRecord(s, AliveStatus(s, env)) && SameRecord(s, RotationFailedStatus(s, env))
  {
    hide Set, SyncOverflow;
  }

  lemma RotateCredentialsFrame(r: Run, env: Env)
    ensures var r' := RotateCredentials(r, env).0;
      r'.local.status == r.local.status && r'.world.cluster.status == r.world.cluster.status
  {
    hide CompleteCredentials, Trim;
  }

  lemma RotateShows(r: Run, env: Env, fingerprint: string)
    requires Smooth(env) && BothShow(r, fingerprint)
    ensures Shows(Rotate(r, env).world.cluster.status, fingerprint)
    ensures !Rotate(r, env).stop ==> BothShow(Rotate(r, env), fingerprint)
  {
    hide RotateCredentials, RotationFailedStatus, Retry, Trim;
    RotateCredentialsFrame(r, env);
    StatusesKeepRecord(RotateCredentials(r, env).0.local.status, env);
  }

  lemma BeatShows(r: Run, env: Env, fingerprint: string)
    requires BothShow(r, fingerprint)
    ensures Shows(Beat(r, env).world.cluster.status, fingerprint)
  {
    hide CompleteCredentials, NoClientStatus, UnreachableStatus, AliveStatus;
    StatusesKeepRecord(r.local.status, env);
  }

  lemma EnrollShows(w: World, fp: string -> string, env: Env)
    requires WorldOk(w) && Complete(w.secret) && Smooth(env) && !w.cluster.reRegister
    requires w.cluster.spec.tokenRef.Some? && Trim(w.cluster.spec.tokenRef.value.name) != ""
    requires fp(Trim(env.tokenSecret.value)) != ""
    ensures BothShow(Enroll(Opening(w, env), fp, env), fp(Trim(env.tokenSecret.value)))
    ensures !Enroll(Opening(w, env), fp, env).stop
  {
    hide CompleteCredentials, Trim, Set, SyncOverflow, Register, PhaseAgrees;
  }

  /** Credentials are stored but the record of the exchange may have been lost, or the token Secret
      was changed since: the next reconcile without API faults records the fingerprint of the token
      in the Secret and the consumed mark, whatever the run was before and whatever rotation and
      heartbeat find. */
  lemma LostRecordRecovered(w: World, steps: seq<Step>, fp: string -> string, n: nat, env: Env)
    requires WorldOk(w) && n <= |steps|
    ensures var now := WorldAt(w, steps, fp, n);
      && !now.cluster.reRegister && Smooth(env) && fp(Trim(env.tokenSecret.value)) != ""
      && Complete(now.secret) && now.cluster.spec.tokenRef.Some? && Trim(now.cluster.spec.tokenRef.value.name) != ""
      ==> Shows(Reconcile(now, fp, env).world.cluster.status, fp(Trim(env.tokenSecret.value)))
  {
    hide WorldOk, Enroll, Rotate, Beat, After, Trim, BothShow, Shows, Retry;
    var now := WorldAt(w, steps, fp, n);
    RunOkAt(w, steps, fp, n);
    if !now.cluster.reRegister && Smooth(env) && fp(Trim(env.tokenSecret.value)) != ""
       && Complete(now.secret) && now.cluster.spec.tokenRef.Some? && Trim(now.cluster.spec.tokenRef.value.name) != ""
    {
      EnrollShows(now, fp, env);
      var r1 := Enroll(Opening(now, env), fp, env);
      RotateShows(r1, env, fp(Trim(env.tokenSecret.value)));
      var r2 := Rotate(r1, env);
      if !r2.stop { BeatShows(r2, env, fp(Trim(env.tokenSecret.value))); }
    }
  }

  // ---------- Why the reads must be reliable ----------

  /** Exactly when a reconcile calls Register: a token is there whose fingerprint is not the recorded
      one, an endpoint is configured, and no credentials could be loaded. A re-registration request
      overrides the fingerprint and the credentials. */
  lemma RegisterCalledExactlyWhen(w: World, fp: string -> string, env: Env)
    ensures var c := Opening(w, env).local;
      var token := ResolveToken(c.spec, env.tokenSecret);
      Reconcile(w, fp, env).called.Some? <==>
        && token.Token? && Endpoint(c.spec) != ""
        && (c.reRegister || (fp(token.value) != c.status.observedToken && !LoadOk(w.secret, env, InGuard)))
    ensures var called := Reconcile(w, fp, env).called;
      var token := ResolveToken(Opening(w, env).local.spec, env.tokenSecret);
      called.Some? ==> token in {Token(called.value, true), Token(called.value, false)}
  {
    hide CompleteCredentials, Trim, ResolveToken, Endpoint, Reconcile, Enroll;
    OnlyEnrollCalls(w, fp, env);
    EnrollCallsExactly(Opening(w, env), fp, env);
  }

  lemma EnrollCallsExactly(r: Run, fp: string -> string, env: Env)
    requires r.called.None?
    ensures var c := r.local;
      var token := ResolveToken(c.spec, env.tokenSecret);
      Enroll(r, fp, env).called.Some? <==>
        && token.Token? && Endpoint(c.spec) != ""
        && (c.reRegister || (fp(token.value) != c.status.observedToken && !LoadOk(r.world.secret, env, InGuard)))
    ensures var called := Enroll(r, fp, env).called;
      called.Some? ==>
        ResolveToken(r.local.spec, env.tokenSecret) in {Token(called.value, true), Token(called.value, false)}
  {
    hide CompleteCredentials, Trim, ResolveToken, Endpoint, Register, FailureStatus, PendingStatus, AdoptedStatus;
    var token := ResolveToken(r.local.spec, env.tokenSecret);
    if token.Token? { RegisterFrame(r, token, fp(token.value), env); }
  }

  /** So a failed read of stored credentials, taken for missing ones, spends an unrecorded token
      again. */
  lemma UnreadableGuardSpendsAgain(w: World, fp: string -> string, env: Env)
    requires env.stale.None? && InGuard in env.badReads && !w.cluster.reRegister && Complete(w.secret)
    requires ResolveToken(w.cluster.spec, env.tokenSecret).Token?
    requires fp(ResolveToken(w.cluster.spec, env.tokenSecret).value) != w.cluster.status.observedToken
    requires Endpoint(w.cluster.spec) != ""
    ensures Reconcile(w, fp, env).called == Some(ResolveToken(w.cluster.spec, env.tokenSecret).value)
  {
    hide Reconcile, CompleteCredentials, Trim;
    RegisterCalledExactlyWhen(w, fp, env);
  }
}
