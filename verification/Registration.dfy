/** Cluster registration: a one-time token is exchanged for bootstrap credentials, which are stored
    in a Secret; then rotation on request and the heartbeat. Every API write may conflict, fail, or
    be carried out while its reply is lost. */
module Registration {
  import opened Text
  import opened Conditions

  datatype Phase = NoPhase | Pending | Registering | Connected | Disconnected | Failed

  const AUTHENTICATED := "Authenticated"
  const CONNECTED := "Connected"
  const DISCONNECTED := "Disconnected"
  const BUFFER_OVERFLOW := "BufferOverflow"

  datatype TokenRef = TokenRef(name: string, key: string)

  datatype Spec = Spec(
    token: string, tokenRef: Option<TokenRef>, clusterID: string,
    endpoint: string, baseURL: string, rotate: bool)

  /** `consumed` None stands for a credentialStatus that is not there. */
  datatype Status = Status(
    phase: Phase, conditions: seq<Condition>, observedToken: string, consumed: Option<bool>, secretRef: bool)

  datatype Cluster = Cluster(spec: Spec, reRegister: bool, status: Status)

  datatype Credentials = Credentials(baseURL: string, clusterID: string, token: string)

  /** The objects in the API server; `log` collects every status that was ever persisted. */
  datatype World = World(cluster: Cluster, secret: Option<Credentials>, log: seq<Status>) {
    function PutStatus(s: Status): World {
      this.(cluster := cluster.(status := s), log := log + [s])
    }
  }

  predicate CompleteCredentials(c: Credentials) {
    Trim(c.baseURL) != "" && Trim(c.clusterID) != "" && Trim(c.token) != ""
  }

  /** A Secret from which credentials can be loaded. */
  predicate Complete(secret: Option<Credentials>) {
    secret.Some? && CompleteCredentials(secret.value)
  }

  // ---------- The environment ----------

  /** How one write goes; a conflict also stands for a write based on an outdated copy. */
  datatype Write = Written | Conflict | Refused | ReplyLost

  predicate Arrives(w: Write) {
    w.Written? || w.ReplyLost?
  }

  /** What the registration token Secret holds under the referenced key. */
  datatype TokenSecret = NotFound | Unreadable | Holds(value: string)

  /** The places that load the stored credentials. */
  datatype Site = InResolve | InGuard | InRescue | InRotate | InHeartbeat

  datatype Response = Response(clusterID: string, token: string)

  datatype Env = Env(
    stale: Option<Cluster>,            // an outdated cached copy the reconcile starts from
    tokenSecret: TokenSecret, badReads: set<Site>,
    register: Option<Response>, persist: Write, specWrite: Write, successTries: seq<Write>,
    adoptTries: seq<Write>, reloadOk: bool, failureWrite: Write,
    rotated: Option<string>, rotatePersist: Write, rotateSpec: Write,
    agentClient: bool, heartbeatOk: bool, heartbeatWrite: Write,
    overflow: Option<bool>, message: string, now: int)

  predicate LoadOk(secret: Option<Credentials>, env: Env, site: Site) {
    site !in env.badReads && Complete(secret)
  }

  const MAX_TRIES := 5

  /** RetryOnConflict: the first try that does not conflict decides, within five tries. */
  function Retry(tries: seq<Write>, i: nat): Write
    decreases MAX_TRIES - i
  {
    if i >= MAX_TRIES || i >= |tries| then Refused
    else if tries[i].Conflict? then Retry(tries, i + 1)
    else tries[i]
  }

  // ---------- Pieces ----------

  datatype Token = NoToken | Token(value: string, inline: bool) | TokenError

  function ResolveToken(spec: Spec, ts: TokenSecret): Token {
    if spec.tokenRef.Some? then
      if Trim(spec.tokenRef.value.name) == "" || !ts.Holds? || Trim(ts.value) == "" then TokenError
      else Token(Trim(ts.value), false)
    else if Trim(spec.token) != "" then Token(Trim(spec.token), true)
    else NoToken
  }

  function Endpoint(spec: Spec): string {
    if Trim(spec.endpoint) != "" then Trim(spec.endpoint) else Trim(spec.baseURL)
  }

  function SyncOverflow(cs: seq<Condition>, env: Env): seq<Condition> {
    if env.overflow.None? then cs
    else if env.overflow.value then Set(cs, BUFFER_OVERFLOW, TRUE, "EventBufferFull", env.message, env.now)
    else Set(cs, BUFFER_OVERFLOW, FALSE, "BufferDrained", "Outbound event buffer has drained successfully", env.now)
  }

  function PendingStatus(s: Status, env: Env): Status {
    var c1 := Set(s.conditions, AUTHENTICATED, FALSE, "TokenSecretMissing", env.message, env.now);
    var c2 := Set(c1, CONNECTED, FALSE, "RegistrationPending", "registration token is not yet resolvable", env.now);
    s.(phase := Pending, conditions := SyncOverflow(c2, env))
  }

  function FailureStatus(s: Status, env: Env): Status {
    var c1 := Set(s.conditions, AUTHENTICATED, FALSE, "RegistrationFailed", env.message, env.now);
    var c2 := Set(c1, CONNECTED, FALSE, "RegistrationPending", "registration token exchange failed", env.now);
    s.(phase := Failed, conditions := SyncOverflow(c2, env))
  }

  function SuccessStatus(s: Status, fingerprint: string, env: Env): Status {
    var c1 := Set(s.conditions, AUTHENTICATED, TRUE, "RegistrationComplete",
      "registration token exchanged for bootstrap credential", env.now);
    var c2 := Set(c1, CONNECTED, TRUE, "ControlPlaneReachable", "registration exchange succeeded", env.now);
    Status(Registering, c2, fingerprint, Some(true), true)
  }

  function AdoptedStatus(s: Status, fingerprint: string): Status {
    s.(observedToken := fingerprint, consumed := Some(true), secretRef := true)
  }

  function RotationFailedStatus(s: Status, env: Env): Status {
    var c1 := Set(s.conditions, AUTHENTICATED, FALSE, "RotationFailed", env.message, env.now);
    s.(phase := Failed, conditions := SyncOverflow(c1, env))
  }

  function NoClientStatus(s: Status, env: Env): Status {
    var c1 := Set(s.conditions, CONNECTED, FALSE, "CredentialMissing", "bootstrap credential is not available",
      env.now);
    var c2 := Set(c1, AUTHENTICATED, FALSE, "CredentialMissing", "bootstrap credential is not available", env.now);
    s.(phase := Pending, conditions := SyncOverflow(c2, env))
  }

  function UnreachableStatus(s: Status, env: Env): Status {
    var c1 := Set(s.conditions, CONNECTED, FALSE, "ControlPlaneUnreachable", env.message, env.now);
    var c2 := Set(c1, DISCONNECTED, TRUE, "NoRecentRoundTrip", env.message, env.now);
    var c3 := Set(c2, AUTHENTICATED, FALSE, "ControlPlaneAuthenticationFailed", env.message, env.now);
    s.(phase := Disconnected, conditions := SyncOverflow(c3, env))
  }

  function AliveStatus(s: Status, env: Env): Status {
    var c1 := Set(s.conditions, CONNECTED, TRUE, "RoundTripOK", "Recent round-trip to the control plane succeeded",
      env.now);
    var c2 := Set(c1, DISCONNECTED, FALSE, "Connected", "Connection is alive", env.now);
    var c3 := Set(c2, AUTHENTICATED, TRUE, "CredentialAccepted", "Bearer token accepted", env.now);
    s.(phase := Connected, conditions := SyncOverflow(c3, env))
  }

  // ---------- A reconcile in progress ----------

  /** `local` is the copy in hand and `current` says that it matches the API server, so that writes
      based on it do not conflict. `called` records the token given to Register and `blamed` that the
      registration path persisted the Error phase. */
  datatype Run = Run(
    world: World, local: Cluster, current: bool, stop: bool, called: Option<string>, blamed: bool)
  {
    /** Status().Update of the copy in hand. */
    function WriteStatus(s: Status, w: Write): Run {
      var r := this.(local := local.(status := s), current := current && !w.ReplyLost? && !w.Conflict?);
      if current && Arrives(w) then r.(world := world.PutStatus(s)) else r
    }

    /** Update of spec and annotations of the copy in hand. */
    function WriteSpec(spec: Spec, reRegister: bool, w: Write): Run {
      var r := this.(
        local := local.(spec := spec, reRegister := reRegister),
        current := current && !w.ReplyLost? && !w.Conflict?);
      if current && Arrives(w) then
        r.(world := world.(cluster := world.cluster.(spec := spec, reRegister := reRegister)))
      else r
    }

    predicate Landed(w: Write) {
      current && w.Written?
    }

    function Stop(): Run { this.(stop := true) }

    function Reload(ok: bool): Run {
      if ok then this.(local := world.cluster, current := true) else Stop()
    }
  }

  /** adoptExistingRegistration, then the reload. */
  function Adopt(r: Run, fingerprint: string, env: Env): Run {
    var w := Retry(env.adoptTries, 0);
    var r' := if Arrives(w)
              then r.(world := r.world.PutStatus(AdoptedStatus(r.world.cluster.status, fingerprint)), current := false)
              else r;
    if w.Written? then r'.Reload(env.reloadOk) else r'.Stop()
  }

  /** registerCluster; the flag says whether it returned without an error. */
  function Register(r: Run, token: Token, fingerprint: string, env: Env): (Run, bool)
    requires token.Token?
  {
    var baseURL := Endpoint(r.local.spec);
    if baseURL == "" then (r, false)
    else
      var r1 := r.(called := Some(token.value));
      if env.register.None? then (r1, false)
      else
        var creds := Credentials(baseURL, env.register.value.clusterID, env.register.value.token);
        if !CompleteCredentials(creds) then (r1, false)
        else
          var r2 := if Arrives(env.persist) then r1.(world := r1.world.(secret := Some(Trimmed(creds)))) else r1;
          if !env.persist.Written? then (r2, false) else RecordRegistration(r2, token, fingerprint, env)
  }

  function Trimmed(c: Credentials): Credentials {
    Credentials(Trim(c.baseURL), Trim(c.clusterID), Trim(c.token))
  }

  /** The spec after a successful exchange. */
  function RegisteredSpec(spec: Spec, token: Token, env: Env): Spec
    requires token.Token? && env.register.Some?
  {
    var s := if Trim(spec.clusterID) == "" then spec.(clusterID := env.register.value.clusterID) else spec;
    if token.inline && s.token != "" then s.(token := "") else s
  }

  /** Past a successful persist: the spec, then the status. */
  function RecordRegistration(r: Run, token: Token, fingerprint: string, env: Env): (Run, bool)
    requires token.Token? && env.register.Some?
  {
    var spec := RegisteredSpec(r.local.spec, token, env);
    var changed := spec != r.local.spec || r.local.reRegister;
    var r1 := if changed then r.WriteSpec(spec, false, env.specWrite) else r;
    if changed && !r.Landed(env.specWrite) then (r1, false)
    else
      var w := Retry(env.successTries, 0);
      var r2 := if Arrives(w)
                then r1.(world := r1.world.PutStatus(SuccessStatus(r1.world.cluster.status, fingerprint, env)),
                  current := false)
                else r1;
      (r2, w.Written?)
  }

  lemma RegisterFrame(r: Run, token: Token, fingerprint: string, env: Env)
    requires token.Token?
    ensures var r' := Register(r, token, fingerprint, env).0;
      && r'.stop == r.stop && r'.blamed == r.blamed
      && r'.called == if Endpoint(r.local.spec) == "" then r.called else Some(token.value)
  {
    hide CompleteCredentials, Trim, Endpoint, RegisteredSpec, SuccessStatus;
  }

  /** reconcileRegistration. */
  function Enroll(r: Run, fp: string -> string, env: Env): Run {
    var token := ResolveToken(r.local.spec, env.tokenSecret);
    if token.TokenError? && !LoadOk(r.world.secret, env, InResolve) then
      r.WriteStatus(PendingStatus(r.local.status, env), env.failureWrite).Stop()
    else if !token.Token? || (fp(token.value) == r.local.status.observedToken && !r.local.reRegister) then r
    else if !r.local.reRegister && LoadOk(r.world.secret, env, InGuard) then Adopt(r, fp(token.value), env)
    else
      var (r1, ok) := Register(r, token, fp(token.value), env);
      if ok then r1.Reload(env.reloadOk)
      else if !r.local.reRegister && LoadOk(r1.world.secret, env, InRescue) then Adopt(r1, fp(token.value), env)
      else
        var r2 := r1.WriteStatus(FailureStatus(r1.local.status, env), env.failureWrite);
        r2.(blamed := r1.current && Arrives(env.failureWrite)).Stop()
  }

  /** rotateCredentials. */
  function RotateCredentials(r: Run, env: Env): (Run, bool) {
    if !LoadOk(r.world.secret, env, InRotate) || env.rotated.None? then (r, false)
    else
      var creds := r.world.secret.value.(token := env.rotated.value);
      if !CompleteCredentials(creds) then (r, false)
      else
        var r1 := if Arrives(env.rotatePersist) then r.(world := r.world.(secret := Some(Trimmed(creds)))) else r;
        if !env.rotatePersist.Written? then (r1, false)
        else (r1.WriteSpec(r1.local.spec.(rotate := false), r1.local.reRegister, env.rotateSpec),
          r1.Landed(env.rotateSpec))
  }

  /** reconcileRotation. */
  function Rotate(r: Run, env: Env): Run {
    if !r.local.spec.rotate then r
    else
      var (r1, ok) := RotateCredentials(r, env);
      if ok then r1.Reload(env.reloadOk)
      else r1.WriteStatus(RotationFailedStatus(r1.local.status, env), env.failureWrite).Stop()
  }

  /** reconcileHeartbeat. */
  function Beat(r: Run, env: Env): Run {
    if !env.agentClient && !LoadOk(r.world.secret, env, InHeartbeat) then
      r.WriteStatus(NoClientStatus(r.local.status, env), env.heartbeatWrite)
    else if !env.heartbeatOk then r.WriteStatus(UnreachableStatus(r.local.status, env), env.heartbeatWrite)
    else r.WriteStatus(AliveStatus(r.local.status, env), env.heartbeatWrite)
  }

  function Opening(w: World, env: Env): Run {
    if env.stale.Some? then Run(w, env.stale.value, false, false, None, false)
    else Run(w, w.cluster, true, false, None, false)
  }

  /** The whole reconcile. */
  function Reconcile(w: World, fp: string -> string, env: Env): Run {
    var r1 := Enroll(Opening(w, env), fp, env);
    if r1.stop then r1
    else
      var r2 := Rotate(r1, env);
      if r2.stop then r2 else Beat(r2, env)
  }

  // ---------- The code ----------

  class ClusterReconciler {
    var cluster: Cluster
    var secret: Option<Credentials>
    ghost var log: seq<Status>
    const fingerprint: string -> string

    /** What the current reconcile has done so far. */
    var called: Option<string>
    var blamed: bool

    ghost function View(): World
      reads this
    {
      World(cluster, secret, log)
    }

    ghost predicate At(r: Run)
      reads this
    {
      r.world == View() && r.called == called && r.blamed == blamed
    }

    constructor (cluster: Cluster, fingerprint: string -> string)
      ensures View() == World(cluster, None, []) && this.fingerprint == fingerprint
    {
      this.cluster, secret, log, this.fingerprint := cluster, None, [], fingerprint;
      called, blamed := None, false;
    }

    method StatusUpdate(local: Cluster, current: bool, s: Status, w: Write, ghost r: Run)
      returns (local': Cluster, current': bool, ghost r': Run)
      requires At(r) && r.local == local && r.current == current
      modifies this
      ensures r' == r.WriteStatus(s, w) && At(r') && r'.local == local' && r'.current == current'
    {
      if current && Arrives(w) {
        cluster := cluster.(status := s);
        log := log + [s];
      }
      local', current' := local.(status := s), current && !w.ReplyLost? && !w.Conflict?;
      r' := r.WriteStatus(s, w);
    }

    method Update(local: Cluster, current: bool, spec: Spec, reRegister: bool, w: Write, ghost r: Run)
      returns (ok: bool, local': Cluster, current': bool, ghost r': Run)
      requires At(r) && r.local == local && r.current == current
      modifies this
      ensures r' == r.WriteSpec(spec, reRegister, w) && At(r') && r'.local == local' && r'.current == current'
        && ok == r.Landed(w)
      ensures secret == old(secret) && called == old(called)
      ensures ok ==> cluster == old(cluster).(spec := spec, reRegister := reRegister) && local'.spec == spec
    {
      if current && Arrives(w) {
        cluster := cluster.(spec := spec, reRegister := reRegister);
      }
      local', current' := local.(spec := spec, reRegister := reRegister), current && !w.ReplyLost? && !w.Conflict?;
      ok := current && w.Written?;
      r' := r.WriteSpec(spec, reRegister, w);
    }

    /** RetryOnConflict around a closure that reads the object again and updates its status. */
    method RetryStatus(tries: seq<Write>, adopt: bool, fingerprint: string, env: Env) returns (w: Write)
      modifies this
      ensures w == Retry(tries, 0)
      ensures View() == if Arrives(w)
                        then old(View()).PutStatus(if adopt then AdoptedStatus(old(cluster.status), fingerprint)
                                                   else SuccessStatus(old(cluster.status), fingerprint, env))
                        else old(View())
      ensures called == old(called) && blamed == old(blamed)
    {
      for i := 0 to MAX_TRIES
        invariant Retry(tries, 0) == Retry(tries, i)
        invariant View() == old(View()) && called == old(called) && blamed == old(blamed)
      {
        if i >= |tries| {
          return Refused;
        }
        var latest := cluster;
        if Arrives(tries[i]) {
          var s := if adopt then AdoptedStatus(latest.status, fingerprint)
            else SuccessStatus(latest.status, fingerprint, env);
          cluster := cluster.(status := s);
          log := log + [s];
        }
        if !tries[i].Conflict? {
          return tries[i];
        }
      }
      w := Refused;
    }

    method AdoptExistingRegistration(fingerprint: string, env: Env, ghost r: Run)
      returns (local: Cluster, current: bool, stop: bool, ghost r': Run)
      requires At(r) && !r.stop
      modifies this
      ensures r' == Adopt(r, fingerprint, env) && At(r') && stop == r'.stop
      ensures !stop ==> r'.local == local && r'.current == current
    {
      r' := Adopt(r, fingerprint, env);
      var w := RetryStatus(env.adoptTries, true, fingerprint, env);
      local, current := cluster, true;
      stop := !w.Written? || !env.reloadOk;
    }

    method RegisterCluster(local: Cluster, current: bool, token: Token, fingerprint: string, env: Env, ghost r: Run)
      returns (ok: bool, local': Cluster, current': bool, ghost r': Run)
      requires token.Token? && At(r) && r.local == local && r.current == current
      modifies this
      ensures (r', ok) == Register(r, token, fingerprint, env)
      ensures At(r') && r'.local == local' && r'.current == current'
      ensures var url := if Trim(local.spec.endpoint) != "" then local.spec.endpoint else local.spec.baseURL;
        var due := Trim(url) != "" && env.register.Some? && Trim(env.register.value.clusterID) != ""
          && Trim(env.register.value.token) != "";
        && called == (if Trim(url) != "" then Some(token.value) else old(called))
        && secret == (if due && (env.persist.Written? || env.persist.ReplyLost?)
             then Some(Credentials(Trim(url), Trim(env.register.value.clusterID), Trim(env.register.value.token)))
             else old(secret))
        && (ok ==> due && env.persist.Written?)
    {
      TrimTight(local.spec.endpoint);
      TrimTight(local.spec.baseURL);
      hide Trim, Tight;
      ok, local', current', r' := false, local, current, Register(r, token, fingerprint, env).0;
      var baseURL := Endpoint(local.spec);
      if baseURL == "" {
        return;
      }
      called := Some(token.value);
      if env.register.None? {
        return;
      }
      var creds := Credentials(baseURL, env.register.value.clusterID, env.register.value.token);
      if !CompleteCredentials(creds) {
        return;
      }
      if Arrives(env.persist) {
        secret := Some(Trimmed(creds));
      }
      if !env.persist.Written? {
        return;
      }
      ghost var r2 := r.(called := Some(token.value), world := View());
      ok, local', current', r' := RecordRegistered(local, current, token, fingerprint, env, r2);
    }

    method RecordRegistered(local: Cluster, current: bool, token: Token, fingerprint: string, env: Env, ghost r: Run)
      returns (ok: bool, local': Cluster, current': bool, ghost r': Run)
      requires token.Token? && env.register.Some? && At(r) && r.local == local && r.current == current
      modifies this
      ensures (r', ok) == RecordRegistration(r, token, fingerprint, env)
      ensures At(r') && r'.local == local' && r'.current == current'
      ensures secret == old(secret) && called == old(called)
    {
      hide SuccessStatus, AdoptedStatus, Retry, Trim;
      var spec := local.spec;
      local', current' := local, current;
      var specChanged := false;
      if Trim(spec.clusterID) == "" {
        spec := spec.(clusterID := env.register.value.clusterID);
      }
      if token.inline && spec.token != "" {
        spec := spec.(token := "");
      }
      specChanged := spec != local.spec || local.reRegister;
      r' := r;
      if specChanged {
        ok, local', current', r' := Update(local, current, spec, false, env.specWrite, r);
        if !ok {
          return;
        }
      }
      var w := RetryStatus(env.successTries, false, fingerprint, env);
      ok := w.Written?;
      current' := current' && !Arrives(w);
      r' := RecordRegistration(r, token, fingerprint, env).0;
    }

    method ReconcileRegistration(local: Cluster, current: bool, env: Env, ghost r: Run)
      returns (local': Cluster, current': bool, stop: bool, ghost r': Run)
      requires At(r) && r.local == local && r.current == current && !r.stop && !r.blamed
      modifies this
      ensures r' == Enroll(r, fingerprint, env) && At(r') && stop == r'.stop
      ensures !stop ==> r'.local == local' && r'.current == current'
    {
      hide ResolveToken, CompleteCredentials, PendingStatus, FailureStatus, Adopt, Register;
      local', current', stop, r' := local, current, false, Enroll(r, fingerprint, env);
      var token := ResolveToken(local.spec, env.tokenSecret);
      if token.TokenError? && !LoadOk(secret, env, InResolve) {
        ghost var x;
        local', current', x := StatusUpdate(local, current, PendingStatus(local.status, env), env.failureWrite, r);
        stop := true;
        return;
      }
      if !token.Token? || (fingerprint(token.value) == local.status.observedToken && !local.reRegister) {
        return;
      }
      if !local.reRegister && LoadOk(secret, env, InGuard) {
        local', current', stop, r' := AdoptExistingRegistration(fingerprint(token.value), env, r);
        return;
      }
      var ok;
      ghost var r1;
      ok, local', current', r1 := RegisterCluster(local, current, token, fingerprint(token.value), env, r);
      RegisterFrame(r, token, fingerprint(token.value), env);
      if ok {
        local', current', stop := cluster, true, !env.reloadOk;
        return;
      }
      if !local.reRegister && LoadOk(secret, env, InRescue) {
        local', current', stop, r' := AdoptExistingRegistration(fingerprint(token.value), env, r1);
        return;
      }
      blamed := current' && Arrives(env.failureWrite);
      ghost var x;
      local', current', x := StatusUpdate(local', current', FailureStatus(local'.status, env), env.failureWrite,
        r1.(blamed := blamed));
      stop := true;
    }

    /** rotateCredentials: the answered token replaces the stored one, under the stored base URL and cluster
        ID; then the request is cleared from the spec. */
    method RotateStored(local: Cluster, current: bool, env: Env, ghost r: Run)
      returns (ok: bool, local': Cluster, current': bool, ghost r': Run)
      requires At(r) && r.local == local && r.current == current
      modifies this
      ensures (r', ok) == RotateCredentials(r, env) && At(r') && r'.local == local' && r'.current == current'
      ensures var was := old(secret);
        var due := && InRotate !in env.badReads && env.rotated.Some? && Trim(env.rotated.value) != "" && was.Some?
          && Trim(was.value.baseURL) != "" && Trim(was.value.clusterID) != "" && Trim(was.value.token) != "";
        && secret == (if due && (env.rotatePersist.Written? || env.rotatePersist.ReplyLost?)
             then Some(Credentials(Trim(was.value.baseURL), Trim(was.value.clusterID), Trim(env.rotated.value)))
             else was)
        && (ok <==> due && env.rotatePersist.Written? && current && env.rotateSpec.Written?)
        && (ok ==> !cluster.spec.rotate && cluster.spec == local'.spec == local.spec.(rotate := false))
    {
      hide Trim;
      ok, local', current', r' := false, local, current, RotateCredentials(r, env).0;
      if !LoadOk(secret, env, InRotate) || env.rotated.None? {
        return;
      }
      var creds := secret.value.(token := env.rotated.value);
      if !CompleteCredentials(creds) {
        return;
      }
      if Arrives(env.rotatePersist) {
        secret := Some(Trimmed(creds));
      }
      if !env.rotatePersist.Written? {
        return;
      }
      ok, local', current', r' := Update(local, current, local.spec.(rotate := false), local.reRegister,
        env.rotateSpec, r.(world := View()));
    }

    method ReconcileRotation(local: Cluster, current: bool, env: Env, ghost r: Run)
      returns (local': Cluster, current': bool, stop: bool, ghost r': Run)
      requires At(r) && r.local == local && r.current == current && !r.stop
      modifies this
      ensures r' == Rotate(r, env) && At(r') && stop == r'.stop
      ensures !stop ==> r'.local == local' && r'.current == current'
    {
      hide RotateCredentials, RotationFailedStatus;
      local', current', stop, r' := local, current, false, Rotate(r, env);
      if !local.spec.rotate {
        return;
      }
      var ok;
      ghost var r1;
      ok, local', current', r1 := RotateStored(local, current, env, r);
      RotateKeepsGoing(r, env);
      if ok {
        local', current', stop := cluster, true, !env.reloadOk;
        return;
      }
      ghost var x;
      local', current', x := StatusUpdate(local', current', RotationFailedStatus(local'.status, env), env.failureWrite,
        r1);
      stop := true;
    }

    method ReconcileHeartbeat(local: Cluster, current: bool, env: Env, ghost r: Run) returns (ghost r': Run)
      requires At(r) && r.local == local && r.current == current
      modifies this
      ensures r' == Beat(r, env) && At(r')
    {
      hide NoClientStatus, UnreachableStatus, AliveStatus;
      var local', current';
      if !env.agentClient && !LoadOk(secret, env, InHeartbeat) {
        local', current', r' := StatusUpdate(local, current, NoClientStatus(local.status, env), env.heartbeatWrite, r);
        return;
      }
      if !env.heartbeatOk {
        local', current', r' := StatusUpdate(local, current, UnreachableStatus(local.status, env), env.heartbeatWrite,
          r);
        return;
      }
      local', current', r' := StatusUpdate(local, current, AliveStatus(local.status, env), env.heartbeatWrite, r);
    }

    /** Reconcile, from the read of the Cluster to the heartbeat. */
    method ReconcileOnce(env: Env)
      modifies this
      ensures var r := Reconcile(old(View()), fingerprint, env);
        View() == r.world && called == r.called && blamed == r.blamed
    {
      hide Enroll, Rotate, Beat;
      called, blamed := None, false;
      var local, current := if env.stale.Some? then env.stale.value else cluster, env.stale.None?;
      var stop;
      ghost var r := Opening(View(), env);
      local, current, stop, r := ReconcileRegistration(local, current, env, r);
      if stop {
        return;
      }
      local, current, stop, r := ReconcileRotation(local, current, env, r);
      if stop {
        return;
      }
      r := ReconcileHeartbeat(local, current, env, r);
    }
  }

  lemma RotateKeepsGoing(r: Run, env: Env)
    ensures RotateCredentials(r, env).0.stop == r.stop
  {
  }
}
