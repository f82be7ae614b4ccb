/** The stored credentials and the heartbeat: whose answer the Secret holds after any run, what a
    rotation leaves behind, when a registration is complete, and what makes a cluster Connected. */
module RegistrationCredentials {
  import opened Text
  import opened Conditions
  import opened Registration
  import opened RegistrationSafety
  import opened RegistrationRecord

  // ---------- What a reconcile stores ----------

  /** A reconcile that starts like this exchanges a token, is answered with a cluster ID and a token, and
      its write of the Secret arrives. */
  predicate StoresRegistration(r: Run, fp: string -> string, env: Env) {
    var token := ResolveToken(r.local.spec, env.tokenSecret);
    && token.Token?
    && (r.local.reRegister
        || (fp(token.value) != r.local.status.observedToken && !LoadOk(r.world.secret, env, InGuard)))
    && Endpoint(r.local.spec) != "" && env.register.Some?
    && Trim(env.register.value.clusterID) != "" && Trim(env.register.value.token) != ""
    && (env.persist.Written? || env.persist.ReplyLost?)
  }

  /** The credentials of a registration: the endpoint that was called, with what it answered. */
  function RegisteredCredentials(spec: Spec, answer: Response): Credentials {
    Credentials(Endpoint(spec), Trim(answer.clusterID), Trim(answer.token))
  }

  /** Past the registration part, a rotation is asked for and answered with a token, and its write of the
      Secret arrives. */
  predicate StoresRotation(r: Run, env: Env) {
    && !r.stop && r.local.spec.rotate && LoadOk(r.world.secret, env, InRotate)
    && env.rotated.Some? && Trim(env.rotated.value) != ""
    && (env.rotatePersist.Written? || env.rotatePersist.ReplyLost?)
  }

  lemma RegisterStores(r: Run, token: Token, fingerprint: string, env: Env)
    requires token.Token?
    ensures Register(r, token, fingerprint, env).0.world.secret ==
      if Endpoint(r.local.spec) != "" && env.register.Some?
         && Trim(env.register.value.clusterID) != "" && Trim(env.register.value.token) != ""
         && (env.persist.Written? || env.persist.ReplyLost?)
      then Some(RegisteredCredentials(r.local.spec, env.register.value)) else r.world.secret
  {
    TrimTight(r.local.spec.endpoint);
    TrimTight(r.local.spec.baseURL);
    hide Trim, Tight, Retry, SuccessStatus, RegisteredSpec;
  }

  lemma EnrollStores(r: Run, fp: string -> string, env: Env)
    ensures Enroll(r, fp, env).world.secret ==
      if StoresRegistration(r, fp, env) then Some(RegisteredCredentials(r.local.spec, env.register.value))
      else r.world.secret
  {
    hide Trim, CompleteCredentials, ResolveToken, Register, PendingStatus, FailureStatus, AdoptedStatus, Retry;
    var token := ResolveToken(r.local.spec, env.tokenSecret);
    if token.Token? { RegisterStores(r, token, fp(token.value), env); }
  }

  lemma RotateStores(r: Run, env: Env)
    requires !r.stop
    ensures Rotate(r, env).world.secret ==
      if StoresRotation(r, env)
      then var c := r.world.secret.value;
        Some(Credentials(Trim(c.baseURL), Trim(c.clusterID), Trim(env.rotated.value)))
      else r.world.secret
  {
    hide Trim, RotationFailedStatus;
  }

  lemma BeatStores(r: Run, env: Env)
    ensures Beat(r, env).world.secret == r.world.secret && Beat(r, env).world.cluster.spec == r.world.cluster.spec
  {
    hide CompleteCredentials, NoClientStatus, UnreachableStatus, AliveStatus;
  }

  /** The Secret after a reconcile, exactly. */
  lemma ReconcileStores(w: World, fp: string -> string, env: Env)
    ensures var r := Opening(w, env);
      var r1 := Enroll(r, fp, env);
      && r1.world.secret == (if StoresRegistration(r, fp, env)
           then Some(RegisteredCredentials(r.local.spec, env.register.value)) else w.secret)
      && Reconcile(w, fp, env).world.secret ==
           if StoresRotation(r1, env)
           then Some(Credentials(Trim(r1.world.secret.value.baseURL), Trim(r1.world.secret.value.clusterID),
             Trim(env.rotated.value)))
           else r1.world.secret
  {
    hide Enroll, Rotate, Beat, StoresRegistration, Trim, CompleteCredentials;
    var r := Opening(w, env);
    var r1 := Enroll(r, fp, env);
    EnrollStores(r, fp, env);
    if !r1.stop {
      RotateStores(r1, env);
      BeatStores(Rotate(r1, env), env);
    }
  }

  // ---------- Over whole runs ----------

  predicate RegisteredAt(w: World, steps: seq<Step>, fp: string -> string, i: nat)
    requires i < |steps|
  {
    steps[i].Cycle? && StoresRegistration(Opening(WorldAt(w, steps, fp, i), steps[i].env), fp, steps[i].env)
  }

  predicate RotatedAt(w: World, steps: seq<Step>, fp: string -> string, i: nat)
    requires i < |steps|
  {
    steps[i].Cycle?
    && StoresRotation(Enroll(Opening(WorldAt(w, steps, fp, i), steps[i].env), fp, steps[i].env), steps[i].env)
  }

  /** Step `i` stores credentials. */
  predicate StoredAt(w: World, steps: seq<Step>, fp: string -> string, i: nat)
    requires i < |steps|
  {
    RegisteredAt(w, steps, fp, i) || RotatedAt(w, steps, fp, i)
  }

  /** The Secret's token is the trimmed answer of this rotation or registration. */
  predicate TokenFrom(secret: Option<Credentials>, step: Step, rotation: bool) {
    && secret.Some? && step.Cycle?
    && if rotation then step.env.rotated.Some? && secret.value.token == Trim(step.env.rotated.value)
       else step.env.register.Some? && secret.value.token == Trim(step.env.register.value.token)
  }

  /** The Secret's base URL is the endpoint this registration called, its cluster ID the trimmed answer. */
  predicate ClusterFrom(secret: Option<Credentials>, now: World, step: Step) {
    && secret.Some? && step.Cycle? && step.env.register.Some?
    && secret.value.baseURL == Endpoint(Opening(now, step.env).local.spec)
    && secret.value.clusterID == Trim(step.env.register.value.clusterID)
  }

  /** The same base URL and cluster ID, up to blanks around them. */
  predicate SameCluster(a: Option<Credentials>, b: Option<Credentials>) {
    && a.Some? && b.Some?
    && b.value.baseURL == Trim(a.value.baseURL) && b.value.clusterID == Trim(a.value.clusterID)
  }

  lemma CycleStores(now: World, step: Step, fp: string -> string)
    requires step.Cycle?
    ensures var next := Reconcile(now, fp, step.env).world.secret;
      var r := Opening(now, step.env);
      var registered := StoresRegistration(r, fp, step.env);
      var rotated := StoresRotation(Enroll(r, fp, step.env), step.env);
      && (!registered && !rotated ==> next == now.secret)
      && (registered || rotated ==> TokenFrom(next, step, rotated))
      && (registered ==> ClusterFrom(next, now, step))
      && (!registered && rotated ==> SameCluster(now.secret, next))
  {
    var env := step.env;
    ReconcileStores(now, fp, env);
    EndpointTrimmed(Opening(now, env).local.spec);
    if env.register.Some? { TrimTight(env.register.value.clusterID); }
    hide Enroll, Reconcile, Trim, Tight, CompleteCredentials, ResolveToken, Endpoint;
  }

  lemma StepStores(w: World, steps: seq<Step>, fp: string -> string, i: nat)
    requires i < |steps|
    ensures var now, next := WorldAt(w, steps, fp, i), WorldAt(w, steps, fp, i + 1).secret;
      && (!StoredAt(w, steps, fp, i) ==> next == now.secret)
      && (StoredAt(w, steps, fp, i) ==> TokenFrom(next, steps[i], RotatedAt(w, steps, fp, i)))
      && (RegisteredAt(w, steps, fp, i) ==> ClusterFrom(next, now, steps[i]))
      && (!RegisteredAt(w, steps, fp, i) && RotatedAt(w, steps, fp, i) ==> SameCluster(now.secret, next))
  {
    hide Enroll, Reconcile, StoresRegistration, StoresRotation, TokenFrom, ClusterFrom, SameCluster;
    if steps[i].Cycle? { CycleStores(WorldAt(w, steps, fp, i), steps[i], fp); }
  }

  lemma EndpointTrimmed(spec: Spec)
    ensures Trim(Endpoint(spec)) == Endpoint(spec)
  {
    TrimTight(spec.endpoint);
    TrimTight(spec.baseURL);
    hide Trim, Tight;
  }

  lemma {:induction false} SecretStays(w: World, steps: seq<Step>, fp: string -> string, i: nat, n: nat)
    requires i <= n <= |steps| && forall j :: i <= j < n ==> !StoredAt(w, steps, fp, j)
    ensures WorldAt(w, steps, fp, n).secret == WorldAt(w, steps, fp, i).secret
    decreases n
  {
    hide StoredAt, After;
    if i < n {
      SecretStays(w, steps, fp, i, n - 1);
      StepStores(w, steps, fp, n - 1);
    }
  }

  /** The stored token is that of the last registration or rotation whose write of the Secret arrived, and
      what was stored at the start if there was none. */
  lemma TokenIsLastAnswer(w: World, steps: seq<Step>, fp: string -> string, i: nat, n: nat)
    requires i <= n <= |steps| && forall j :: i <= j < n ==> !StoredAt(w, steps, fp, j)
    ensures i == 0 ==> WorldAt(w, steps, fp, n).secret == w.secret
    ensures i > 0 && StoredAt(w, steps, fp, i - 1) ==>
      TokenFrom(WorldAt(w, steps, fp, n).secret, steps[i - 1], RotatedAt(w, steps, fp, i - 1))
  {
    hide StoredAt, RotatedAt, RegisteredAt, After, TokenFrom, ClusterFrom, SameCluster;
    SecretStays(w, steps, fp, i, n);
    if i > 0 { StepStores(w, steps, fp, i - 1); }
  }

  lemma ClusterKept(now: World, step: Step, a: Option<Credentials>, b: Option<Credentials>)
    requires ClusterFrom(a, now, step) && SameCluster(a, b)
    ensures ClusterFrom(b, now, step)
  {
    TrimTight(step.env.register.value.clusterID);
    EndpointTrimmed(Opening(now, step.env).local.spec);
    hide Trim, Tight, Endpoint;
  }

  /** Base URL and cluster ID are those of the last registration whose write arrived: rotations in between
      keep them. */
  lemma {:induction false} ClusterIsLastRegistered(w: World, steps: seq<Step>, fp: string -> string, i: nat, n: nat)
    requires 0 < i <= n <= |steps| && RegisteredAt(w, steps, fp, i - 1)
    requires forall j :: i <= j < n ==> !RegisteredAt(w, steps, fp, j)
    ensures ClusterFrom(WorldAt(w, steps, fp, n).secret, WorldAt(w, steps, fp, i - 1), steps[i - 1])
    decreases n
  {
    hide RegisteredAt, RotatedAt, After, TokenFrom, ClusterFrom, SameCluster;
    if i < n {
      ClusterIsLastRegistered(w, steps, fp, i, n - 1);
      StepStores(w, steps, fp, n - 1);
      var was, next := WorldAt(w, steps, fp, n - 1).secret, WorldAt(w, steps, fp, n).secret;
      if RotatedAt(w, steps, fp, n - 1) { ClusterKept(WorldAt(w, steps, fp, i - 1), steps[i - 1], was, next); }
    } else {
      StepStores(w, steps, fp, i - 1);
    }
  }

  // ---------- One rotation ----------

  /** Nothing is to be registered: there is no token, or its fingerprint is the recorded one, or it cannot
      be resolved while credentials are stored. */
  predicate NothingToRegister(w: World, fp: string -> string, env: Env) {
    var token := ResolveToken(w.cluster.spec, env.tokenSecret);
    match token
    case NoToken => true
    case Token(value, _) => fp(value) == w.cluster.status.observedToken && !w.cluster.reRegister
    case TokenError => LoadOk(w.secret, env, InResolve)
  }

  lemma NothingEnrolled(w: World, fp: string -> string, env: Env)
    requires env.stale.None? && NothingToRegister(w, fp, env)
    ensures Enroll(Opening(w, env), fp, env) == Opening(w, env)
  {
    hide ResolveToken, CompleteCredentials, Register, Adopt, PendingStatus, FailureStatus;
  }

  /** A reconcile of a registered cluster that asks for a rotation. With the stored credentials readable and
      a token answered, once the write of the Secret arrives the Secret is the old base URL and cluster ID
      with the trimmed answer; once the spec write arrives too, the request is gone from the spec, and
      nothing else of the spec changed. Otherwise Secret and spec stay as they are. */
  lemma RotationExact(w: World, fp: string -> string, env: Env)
    requires env.stale.None? && NothingToRegister(w, fp, env)
    ensures var w' := Reconcile(w, fp, env).world;
      var due := w.cluster.spec.rotate && LoadOk(w.secret, env, InRotate) && env.rotated.Some?
        && Trim(env.rotated.value) != "";
      && w'.secret == (if due && (env.rotatePersist.Written? || env.rotatePersist.ReplyLost?)
           then Some(Credentials(Trim(w.secret.value.baseURL), Trim(w.secret.value.clusterID), Trim(env.rotated.value)))
           else w.secret)
      && w'.cluster.spec == (if due && env.rotatePersist.Written?
                                && (env.rotateSpec.Written? || env.rotateSpec.ReplyLost?)
           then w.cluster.spec.(rotate := false) else w.cluster.spec)
  {
    NothingEnrolled(w, fp, env);
    RotateSpecs(Opening(w, env), env);
    hide Enroll, Rotate, Beat, Trim, CompleteCredentials, ResolveToken;
    RotateStores(Opening(w, env), env);
    BeatStores(Rotate(Opening(w, env), env), env);
  }

  lemma RotateSpecs(r: Run, env: Env)
    requires !r.stop && r.current && r.local == r.world.cluster
    ensures Rotate(r, env).world.cluster.spec ==
      if r.local.spec.rotate && LoadOk(r.world.secret, env, InRotate) && env.rotated.Some?
         && Trim(env.rotated.value) != "" && env.rotatePersist.Written?
         && (env.rotateSpec.Written? || env.rotateSpec.ReplyLost?)
      then r.local.spec.(rotate := false) else r.local.spec
  {
    hide Trim, RotationFailedStatus;
  }

  // ---------- A whole registration ----------

  /** The token of the spec: the referenced Secret's when a Secret is referenced, otherwise the inline one. */
  predicate HasToken(spec: Spec, ts: TokenSecret, token: string, inline: bool) {
    && token != ""
    && if inline then spec.tokenRef.None? && Trim(spec.token) == token
       else spec.tokenRef.Some? && Trim(spec.tokenRef.value.name) != "" && ts.Holds? && Trim(ts.value) == token
  }

  lemma TokenResolved(spec: Spec, ts: TokenSecret, token: string, inline: bool)
    requires HasToken(spec, ts, token, inline)
    ensures ResolveToken(spec, ts) == Token(token, inline)
  {
  }

  /** The exchange is due and none of its calls fails. */
  predicate ExchangeGoesThrough(w: World, fp: string -> string, env: Env, token: string, inline: bool) {
    && env.stale.None? && HasToken(w.cluster.spec, env.tokenSecret, token, inline)
    && (w.cluster.reRegister || (fp(token) != w.cluster.status.observedToken && !LoadOk(w.secret, env, InGuard)))
    && Endpoint(w.cluster.spec) != "" && env.register.Some?
    && Trim(env.register.value.clusterID) != "" && Trim(env.register.value.token) != ""
    && env.persist.Written? && env.specWrite.Written? && Retry(env.successTries, 0).Written? && env.reloadOk
  }

  /** Then Register was called with the token; the Secret holds what it answered; the spec has the cluster
      ID unless it had one, no inline token and no request to register again; and the status records the
      fingerprint, the consumed mark and the Secret. */
  ghost predicate Enrolled(w: World, r: Run, fp: string -> string, env: Env, token: string, inline: bool)
    requires env.register.Some?
  {
    var spec, status := w.cluster.spec, r.world.cluster.status;
    && r.called == Some(token) && !r.stop && r.current && r.local == r.world.cluster
    && r.world.secret == Some(RegisteredCredentials(spec, env.register.value))
    && r.world.cluster.spec == spec.(
         clusterID := if Trim(spec.clusterID) == "" then env.register.value.clusterID else spec.clusterID,
         token := if inline then "" else spec.token)
    && !r.world.cluster.reRegister
    && status.observedToken == fp(token) && status.consumed == Some(true) && status.secretRef
  }

  lemma ExchangeEnrolls(w: World, fp: string -> string, env: Env, token: string, inline: bool)
    requires ExchangeGoesThrough(w, fp, env, token, inline)
    ensures Enrolled(w, Enroll(Opening(w, env), fp, env), fp, env, token, inline)
  {
    var r := Opening(w, env);
    TokenResolved(w.cluster.spec, env.tokenSecret, token, inline);
    EnrollStores(r, fp, env);
    SuccessShows(w.cluster.status, fp(token), env);
    RegisterCompletes(r, Token(token, inline), fp(token), env);
    hide Trim, CompleteCredentials, ResolveToken, Register, Retry, LoadOk, Endpoint;
  }

  lemma RegisterCompletes(r: Run, token: Token, fingerprint: string, env: Env)
    requires token.Token? && r.current && !r.stop && r.local == r.world.cluster
    requires Endpoint(r.local.spec) != "" && env.register.Some?
    requires Trim(env.register.value.clusterID) != "" && Trim(env.register.value.token) != ""
    requires env.persist.Written? && env.specWrite.Written? && Retry(env.successTries, 0).Written?
    ensures var (r', ok) := Register(r, token, fingerprint, env);
      var spec, status := r.local.spec, r'.world.cluster.status;
      && ok && r'.called == Some(token.value) && !r'.stop
      && r'.world.cluster.spec == spec.(
           clusterID := if Trim(spec.clusterID) == "" then env.register.value.clusterID else spec.clusterID,
           token := if token.inline then "" else spec.token)
      && !r'.world.cluster.reRegister
      && status.observedToken == fingerprint && status.consumed == Some(true) && status.secretRef
  {
    TrimTight(r.local.spec.endpoint);
    TrimTight(r.local.spec.baseURL);
    hide Trim, Tight, Retry, Set;
  }

  // ---------- Without an exchange ----------

  /** Try `i` is the first of five that does not conflict. */
  predicate FirstToSettle(tries: seq<Write>, i: nat) {
    i < 5 && i < |tries| && !tries[i].Conflict? && forall j :: 0 <= j < i ==> tries[j].Conflict?
  }

  /** A retried write goes as the first try that does not conflict; without one among the first five it is
      refused. */
  lemma RetryExact(tries: seq<Write>)
    ensures forall i: nat :: FirstToSettle(tries, i) ==> Retry(tries, 0) == tries[i]
    ensures (forall i: nat :: !FirstToSettle(tries, i)) ==> Retry(tries, 0) == Refused
  {
    var i := RetryFrom(tries, 0);
    if i < 5 && i < |tries| { assert FirstToSettle(tries, i); }
    forall k: nat | FirstToSettle(tries, k) ensures Retry(tries, 0) == tries[k] {
      assert i < 5 && i < |tries|;
      assert k == i;
    }
  }

  lemma {:induction false} RetryFrom(tries: seq<Write>, from: nat) returns (i: nat)
    requires from <= 5 && from <= |tries| && forall j :: 0 <= j < from ==> tries[j].Conflict?
    ensures from <= i <= 5 && i <= |tries| && forall j :: 0 <= j < i ==> tries[j].Conflict?
    ensures if i < 5 && i < |tries| then !tries[i].Conflict? && Retry(tries, from) == tries[i]
      else Retry(tries, from) == Refused
    decreases 5 - from
  {
    if from < 5 && from < |tries| && tries[from].Conflict? { i := RetryFrom(tries, from + 1); } else { i := from; }
  }

  /** With complete credentials stored and readable, an unrecorded token is recorded without an exchange:
      the fingerprint, the consumed mark and the Secret; phase, conditions, spec and Secret stay. */
  lemma AdoptionExact(w: World, fp: string -> string, env: Env, token: string, inline: bool)
    requires env.stale.None? && HasToken(w.cluster.spec, env.tokenSecret, token, inline) && !w.cluster.reRegister
    requires fp(token) != w.cluster.status.observedToken && LoadOk(w.secret, env, InGuard)
    requires Retry(env.adoptTries, 0).Written? && env.reloadOk
    ensures var r := Enroll(Opening(w, env), fp, env);
      && r.called.None? && !r.stop && r.current && r.local == r.world.cluster && r.world.secret == w.secret
      && r.world.cluster == w.cluster.(status :=
           w.cluster.status.(observedToken := fp(token), consumed := Some(true), secretRef := true))
  {
    TokenResolved(w.cluster.spec, env.tokenSecret, token, inline);
    hide ResolveToken, Retry, CompleteCredentials, Register;
  }

  /** The reconcile ended with this phase, authentication refused for this reason, and neither spec nor
      record changed. */
  ghost predicate EndedRefused(w: World, w': World, phase: Phase, reason: string) {
    var s, s' := w.cluster.status, w'.cluster.status;
    && s'.phase == phase && Tells(s', "Authenticated", "False", reason)
    && s'.observedToken == s.observedToken && s'.consumed == s.consumed && s'.secretRef == s.secretRef
    && w'.cluster.spec == w.cluster.spec && w'.cluster.reRegister == w.cluster.reRegister
  }

  lemma RefusedTells(s: Status, env: Env)
    ensures Tells(PendingStatus(s, env), "Authenticated", "False", "TokenSecretMissing")
    ensures Tells(FailureStatus(s, env), "Authenticated", "False", "RegistrationFailed")
    ensures Tells(RotationFailedStatus(s, env), "Authenticated", "False", "RotationFailed")
    ensures PendingStatus(s, env) == s.(phase := Pending, conditions := PendingStatus(s, env).conditions)
    ensures FailureStatus(s, env) == s.(phase := Failed, conditions := FailureStatus(s, env).conditions)
    ensures RotationFailedStatus(s, env) == s.(phase := Failed, conditions := RotationFailedStatus(s, env).conditions)
  {
    hide Get, Set, SyncOverflow;
    NamesDiffer();
    var waiting := "registration token is not yet resolvable";
    var c1 := Set(s.conditions, AUTHENTICATED, FALSE, "TokenSecretMissing", env.message, env.now);
    SetTells(s.conditions, AUTHENTICATED, FALSE, "TokenSecretMissing", env.message, env.now);
    SetTells(c1, CONNECTED, FALSE, "RegistrationPending", waiting, env.now);
    OverflowTells(Set(c1, CONNECTED, FALSE, "RegistrationPending", waiting, env.now), env);
    var failed := "registration token exchange failed";
    var d1 := Set(s.conditions, AUTHENTICATED, FALSE, "RegistrationFailed", env.message, env.now);
    SetTells(s.conditions, AUTHENTICATED, FALSE, "RegistrationFailed", env.message, env.now);
    SetTells(d1, CONNECTED, FALSE, "RegistrationPending", failed, env.now);
    OverflowTells(Set(d1, CONNECTED, FALSE, "RegistrationPending", failed, env.now), env);
    SetTells(s.conditions, AUTHENTICATED, FALSE, "RotationFailed", env.message, env.now);
    OverflowTells(Set(s.conditions, AUTHENTICATED, FALSE, "RotationFailed", env.message, env.now), env);
  }

  /** A referenced token that cannot be had, with no credentials stored, makes the cluster Pending: nothing
      is exchanged, and no heartbeat changes the phase. */
  lemma UnresolvedTokenWaits(w: World, fp: string -> string, env: Env)
    requires env.stale.None? && ResolveToken(w.cluster.spec, env.tokenSecret).TokenError?
    requires !LoadOk(w.secret, env, InResolve) && Arrives(env.failureWrite)
    ensures var r := Reconcile(w, fp, env);
      r.called.None? && r.world.secret == w.secret && EndedRefused(w, r.world, Pending, "TokenSecretMissing")
  {
    RefusedTells(w.cluster.status, env);
    hide ResolveToken, CompleteCredentials, PendingStatus, Register, Adopt, Rotate, Beat, Tells;
  }

  /** An exchange that is refused, with no credentials stored, makes the cluster Failed. */
  lemma RefusedExchangeFails(w: World, fp: string -> string, env: Env, token: string, inline: bool)
    requires env.stale.None? && HasToken(w.cluster.spec, env.tokenSecret, token, inline)
    requires w.cluster.reRegister || fp(token) != w.cluster.status.observedToken
    requires w.secret.None? && env.register.None? && Arrives(env.failureWrite)
    ensures var r := Reconcile(w, fp, env);
      r.world.secret.None? && EndedRefused(w, r.world, Failed, "RegistrationFailed")
  {
    TokenResolved(w.cluster.spec, env.tokenSecret, token, inline);
    RefusedTells(w.cluster.status, env);
    RegisterRefused(Opening(w, env), Token(token, inline), fp(token), env);
    hide ResolveToken, CompleteCredentials, FailureStatus, Register, Adopt, Rotate, Beat, Tells, HasToken;
  }

  lemma RegisterRefused(r: Run, token: Token, fingerprint: string, env: Env)
    requires token.Token? && env.register.None?
    ensures var (r', ok) := Register(r, token, fingerprint, env);
      !ok && r' == r.(called := r'.called)
  {
    hide Endpoint;
  }

  /** A rotation that is refused makes the cluster Failed, keeps the stored credentials and leaves the
      request in the spec. */
  lemma RefusedRotationFails(w: World, fp: string -> string, env: Env)
    requires env.stale.None? && NothingToRegister(w, fp, env) && w.cluster.spec.rotate && env.rotated.None?
    requires Arrives(env.failureWrite)
    ensures var r := Reconcile(w, fp, env);
      r.world.secret == w.secret && EndedRefused(w, r.world, Failed, "RotationFailed")
  {
    NothingEnrolled(w, fp, env);
    RefusedTells(w.cluster.status, env);
    hide Enroll, CompleteCredentials, RotationFailedStatus, Beat, Tells;
  }

  // ---------- The heartbeat ----------

  /** A client for the heartbeat is there: the agent's own, or one from the stored credentials. */
  predicate HasClient(w: World, env: Env) {
    env.agentClient || LoadOk(w.secret, env, InHeartbeat)
  }

  /** The condition of this type, with this status and reason. */
  predicate Tells(s: Status, t: string, status: string, reason: string) {
    var c := Get(s.conditions, t);
    c.Some? && c.value.status == status && c.value.reason == reason
  }

  lemma SetTells(cs: seq<Condition>, t: string, status: string, reason: string, message: string, now: int)
    ensures var c := Get(Set(cs, t, status, reason, message, now), t);
      c.Some? && c.value.status == status && c.value.reason == reason
    ensures forall u :: u != t ==> Get(Set(cs, t, status, reason, message, now), u) == Get(cs, u)
  {
    hide Get, Set;
    SetGet(cs, t, status, reason, message, now, t);
    forall u | u != t
      ensures Get(Set(cs, t, status, reason, message, now), u) == Get(cs, u)
    {
      SetGet(cs, t, status, reason, message, now, u);
    }
  }

  lemma NamesDiffer()
    ensures "Connected" != "Authenticated" && "Connected" != "Disconnected" && "Authenticated" != "Disconnected"
    ensures "BufferOverflow" != "Connected" && "BufferOverflow" != "Authenticated" && "BufferOverflow" != "Disconnected"
  {
    assert "Connected"[0] == 'C' && "Authenticated"[0] == 'A' && "Disconnected"[0] == 'D' && "BufferOverflow"[0] == 'B';
  }

  /** The overflow condition follows the buffer. */
  lemma OverflowTells(cs: seq<Condition>, env: Env)
    ensures var cs' := SyncOverflow(cs, env);
      && (env.overflow.None? ==> cs' == cs)
      && (env.overflow == Some(true) ==> Tells(Status(NoPhase, cs', "", None, false), "BufferOverflow", "True",
            "EventBufferFull"))
      && (env.overflow == Some(false) ==> Tells(Status(NoPhase, cs', "", None, false), "BufferOverflow", "False",
            "BufferDrained"))
      && (forall u :: u != "BufferOverflow" ==> Get(cs', u) == Get(cs, u))
  {
    hide Get, Set;
    SetTells(cs, BUFFER_OVERFLOW, TRUE, "EventBufferFull", env.message, env.now);
    SetTells(cs, BUFFER_OVERFLOW, FALSE, "BufferDrained", "Outbound event buffer has drained successfully", env.now);
  }

  /** What the three outcomes of a heartbeat write down. */
  lemma BeatTells(s: Status, env: Env)
    ensures Tells(AliveStatus(s, env), "Connected", "True", "RoundTripOK")
    ensures Tells(UnreachableStatus(s, env), "Connected", "False", "ControlPlaneUnreachable")
    ensures Tells(NoClientStatus(s, env), "Connected", "False", "CredentialMissing")
    ensures AliveStatus(s, env).phase == Connected && UnreachableStatus(s, env).phase == Disconnected
      && NoClientStatus(s, env).phase == Pending
  {
    hide Get, Set, SyncOverflow;
    NamesDiffer();
    var c1 := Set(s.conditions, CONNECTED, TRUE, "RoundTripOK", "Recent round-trip to the control plane succeeded",
      env.now);
    var c2 := Set(c1, DISCONNECTED, FALSE, "Connected", "Connection is alive", env.now);
    SetTells(s.conditions, CONNECTED, TRUE, "RoundTripOK", "Recent round-trip to the control plane succeeded", env.now);
    SetTells(c1, DISCONNECTED, FALSE, "Connected", "Connection is alive", env.now);
    SetTells(c2, AUTHENTICATED, TRUE, "CredentialAccepted", "Bearer token accepted", env.now);
    OverflowTells(Set(c2, AUTHENTICATED, TRUE, "CredentialAccepted", "Bearer token accepted", env.now), env);
    var d1 := Set(s.conditions, CONNECTED, FALSE, "ControlPlaneUnreachable", env.message, env.now);
    var d2 := Set(d1, DISCONNECTED, TRUE, "NoRecentRoundTrip", env.message, env.now);
    SetTells(s.conditions, CONNECTED, FALSE, "ControlPlaneUnreachable", env.message, env.now);
    SetTells(d1, DISCONNECTED, TRUE, "NoRecentRoundTrip", env.message, env.now);
    SetTells(d2, AUTHENTICATED, FALSE, "ControlPlaneAuthenticationFailed", env.message, env.now);
    OverflowTells(Set(d2, AUTHENTICATED, FALSE, "ControlPlaneAuthenticationFailed", env.message, env.now), env);
    var e1 := Set(s.conditions, CONNECTED, FALSE, "CredentialMissing", "bootstrap credential is not available",
      env.now);
    SetTells(s.conditions, CONNECTED, FALSE, "CredentialMissing", "bootstrap credential is not available", env.now);
    SetTells(e1, AUTHENTICATED, FALSE, "CredentialMissing", "bootstrap credential is not available", env.now);
    OverflowTells(Set(e1, AUTHENTICATED, FALSE, "CredentialMissing", "bootstrap credential is not available", env.now),
      env);
  }

  /** A reconcile of a registered cluster without a rotation, whose status write arrives: the cluster is
      Connected exactly when there was a client and its heartbeat succeeded, Disconnected when the
      heartbeat failed, and Pending when there was no client; and the Connected condition says so. */
  lemma HeartbeatDecides(w: World, fp: string -> string, env: Env)
    requires env.stale.None? && NothingToRegister(w, fp, env) && !w.cluster.spec.rotate
    requires env.heartbeatWrite.Written? || env.heartbeatWrite.ReplyLost?
    ensures var s := Reconcile(w, fp, env).world.cluster.status;
      && (s.phase == Connected <==> HasClient(w, env) && env.heartbeatOk)
      && (s.phase == Disconnected <==> HasClient(w, env) && !env.heartbeatOk)
      && (s.phase == Pending <==> !HasClient(w, env))
      && (s.phase == Connected ==> Tells(s, "Connected", "True", "RoundTripOK"))
      && (s.phase == Disconnected ==> Tells(s, "Connected", "False", "ControlPlaneUnreachable"))
      && (s.phase == Pending ==> Tells(s, "Connected", "False", "CredentialMissing"))
  {
    NothingEnrolled(w, fp, env);
    BeatTells(w.cluster.status, env);
    hide Enroll, Tells, NoClientStatus, UnreachableStatus, AliveStatus, CompleteCredentials, ResolveToken;
  }

  /** The registration part and the rotation never make a cluster Connected. */
  lemma EnrollNotConnected(r: Run, fp: string -> string, env: Env)
    requires !r.world.cluster.status.phase.Connected?
    ensures !Enroll(r, fp, env).world.cluster.status.phase.Connected?
  {
    hide CompleteCredentials, ResolveToken, Retry, Register, PendingStatus, FailureStatus;
    var token := ResolveToken(r.local.spec, env.tokenSecret);
    WaitingPhases(r.local.status, env);
    if token.Token? {
      RegisterNotConnected(r, token, fp(token.value), env);
      WaitingPhases(Register(r, token, fp(token.value), env).0.local.status, env);
    }
  }

  lemma WaitingPhases(s: Status, env: Env)
    ensures PendingStatus(s, env).phase == Pending && FailureStatus(s, env).phase == Failed
  {
    hide Set, SyncOverflow;
  }

  lemma RegisterNotConnected(r: Run, token: Token, fingerprint: string, env: Env)
    requires token.Token? && !r.world.cluster.status.phase.Connected?
    ensures !Register(r, token, fingerprint, env).0.world.cluster.status.phase.Connected?
  {
    hide CompleteCredentials, Trim, Retry, Set, RegisteredSpec, Trimmed;
  }

  lemma RotateNotConnected(r: Run, env: Env)
    requires !r.world.cluster.status.phase.Connected?
    ensures !Rotate(r, env).world.cluster.status.phase.Connected?
  {
    hide RotateCredentials, Set, SyncOverflow;
    RotateCredentialsFrame(r, env);
  }

  /** A reconcile that makes a cluster Connected, from a current or an outdated copy and whichever of its
      calls failed, had a client whose heartbeat succeeded. */
  lemma ConnectedByHeartbeat(w: World, fp: string -> string, env: Env)
    requires !w.cluster.status.phase.Connected?
    ensures var w' := Reconcile(w, fp, env).world;
      w'.cluster.status.phase.Connected? ==> env.heartbeatOk && HasClient(w', env)
  {
    hide Enroll, Rotate, CompleteCredentials, Set, SyncOverflow;
    var r := Opening(w, env);
    var r1 := Enroll(r, fp, env);
    EnrollNotConnected(r, fp, env);
    RotateNotConnected(r1, env);
    hide Beat, HasClient;
    BeatConnects(Rotate(r1, env), env);
  }

  lemma BeatConnects(r: Run, env: Env)
    requires !r.world.cluster.status.phase.Connected?
    ensures var w' := Beat(r, env).world;
      w'.cluster.status.phase.Connected? ==> env.heartbeatOk && HasClient(w', env)
  {
    BeatPhases(r.local.status, env);
    hide CompleteCredentials, NoClientStatus, UnreachableStatus, AliveStatus;
  }

  lemma BeatPhases(s: Status, env: Env)
    ensures UnreachableStatus(s, env).phase == Disconnected && NoClientStatus(s, env).phase == Pending
  {
    hide Set, SyncOverflow;
  }

  /** In every run that ends Connected without having started so, some reconcile made the cluster Connected
      on a heartbeat that succeeded, and it has been Connected since. */
  lemma {:induction false} ConnectedSince(w: World, steps: seq<Step>, fp: string -> string, n: nat) returns (i: nat)
    requires n <= |steps| && !w.cluster.status.phase.Connected?
    requires WorldAt(w, steps, fp, n).cluster.status.phase.Connected?
    ensures i < n && steps[i].Cycle? && steps[i].env.heartbeatOk
    ensures HasClient(WorldAt(w, steps, fp, i + 1), steps[i].env)
    ensures forall j :: i < j <= n ==> WorldAt(w, steps, fp, j).cluster.status.phase.Connected?
    decreases n
  {
    hide Reconcile, HasClient;
    assert n > 0;
    if WorldAt(w, steps, fp, n - 1).cluster.status.phase.Connected? {
      i := ConnectedSince(w, steps, fp, n - 1);
    } else {
      i := n - 1;
      ConnectedByHeartbeat(WorldAt(w, steps, fp, n - 1), fp, steps[n - 1].env);
    }
  }
}
