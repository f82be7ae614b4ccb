/** Runs from nothing, in which no call fails, into what the conflict rules do not prevent. */
module OperationsRuns {
  import opened Text
  import opened Conditions
  import opened Concurrency
  import opened Approvals
  import opened Operations
  import opened OperationsSafety
  import opened OperationsLife
  import Claim = ApprovalClaim

  // ---------- Two operations of one namespace ----------

  /** Everything is found, written and reported as running. */
  function Calm(list: seq<Operation>): Env {
    Env(true, true, Found, Some(list), true, None, true, Report(false, false, Running, "", "", None),
        Written, Written, Written, Written, Written, "", 0, 0)
  }

  function Fresh(id: Id, spec: Spec, finalizer: bool): Operation {
    Operation(id, finalizer, false, spec, FRESH)
  }

  /** Both are created and get their finalizers. */
  function Adoption(a: Id, sa: Spec, b: Id, sb: Spec): seq<Step> {
    [Create(a, sa), Create(b, sb),
     Reconciled(a, Calm([Fresh(a, sa, false), Fresh(b, sb, false)])),
     Reconciled(b, Calm([Fresh(a, sa, true), Fresh(b, sb, false)]))]
  }

  function Adopted(a: Id, sa: Spec, b: Id, sb: Spec): World {
    World(map[a := Fresh(a, sa, true), b := Fresh(b, sb, true)], [], [])
  }

  lemma AdoptionRuns(cfg: Config, a: Id, sa: Spec, b: Id, sb: Spec)
    requires a != b && a.namespace == b.namespace
    ensures Run(cfg, EMPTY, Adoption(a, sa, b, sb)) == Adopted(a, sa, b, sb)
  {
    var w2 := World(map[a := Fresh(a, sa, false), b := Fresh(b, sb, false)], [], []);
    var w3 := World(map[a := Fresh(a, sa, true), b := Fresh(b, sb, false)], [], []);
    var steps := Adoption(a, sa, b, sb);
    assert Do(cfg, Do(cfg, EMPTY, steps[0]), steps[1]) == w2;
    PairListed(w2.ops, a, b);
    assert Do(cfg, w2, steps[2]) == w3;
    PairListed(w3.ops, a, b);
    assert Do(cfg, w3, steps[3]) == Adopted(a, sa, b, sb);
    hide Do;
    FourSteps(cfg, EMPTY, steps);
  }

  lemma FourSteps(cfg: Config, w: World, steps: seq<Step>)
    requires |steps| == 4
    ensures Run(cfg, w, steps) == Do(cfg, Do(cfg, Do(cfg, Do(cfg, w, steps[0]), steps[1]), steps[2]), steps[3])
  {
    hide Do;
    assert steps[1..][1..] == steps[2..] && steps[2..][1..] == steps[3..] && steps[3..][1..] == [];
    var w1 := Do(cfg, w, steps[0]);
    var w2 := Do(cfg, w1, steps[1]);
    var w3 := Do(cfg, w2, steps[2]);
    assert Run(cfg, w1, steps[1..]) == Run(cfg, w2, steps[2..]);
    assert Run(cfg, w2, steps[2..]) == Run(cfg, w3, steps[3..]);
    assert Run(cfg, w3, steps[3..]) == Run(cfg, Do(cfg, w3, steps[3]), []);
  }

  lemma PairListed(ops: map<Id, Operation>, a: Id, b: Id)
    requires ops.Keys == {a, b} && ops[a].id == a && ops[b].id == b && a.namespace == b.namespace
    ensures Lists([ops[a], ops[b]], ops, a.namespace) && KeyedById(ops)
  {
  }

  lemma {:induction false} RunAppend(cfg: Config, w: World, s: seq<Step>, t: seq<Step>)
    ensures Run(cfg, w, s + t) == Run(cfg, Run(cfg, w, s), t)
    decreases |s|
  {
    hide Do;
    if s == [] {
      assert s + t == t;
    } else {
      assert (s + t)[0] == s[0] && (s + t)[1..] == s[1..] + t;
      RunAppend(cfg, Do(cfg, w, s[0]), s[1..], t);
    }
  }

  lemma OneStep(cfg: Config, w: World, step: Step)
    ensures Run(cfg, w, [step]) == Do(cfg, w, step)
  {
    hide Do;
    assert [step][1..] == [];
  }

  function Turn(w: World, id: Id, a: Id, b: Id): Step
    requires a in w.ops && b in w.ops
  {
    Reconciled(id, Calm([w.ops[a], w.ops[b]]))
  }

  ghost predicate Pair(w: World, a: Id, b: Id) {
    a != b && a.namespace == b.namespace && w.ops.Keys == {a, b} && KeyedById(w.ops)
  }

  /** One of the two is let through and starts; the other is left alone. */
  lemma OneStarts(cfg: Config, w: World, id: Id, a: Id, b: Id)
    requires Pair(w, a, b) && (id == a || id == b) && Managed(w, id) && NeedsApprovalCheck(w.ops[id])
    requires Clear(w.ops, w.ops[id])
    requires Required(w.ops[id]) ==> Trim(cfg.secret) != "" && Approved(cfg.crypto, w.ops[id], cfg.secret, 0)
    ensures var w1 := Do(cfg, w, Turn(w, id, a, b));
      Pair(w1, a, b) && Restatus(w.ops, w1.ops, id) && w1.ops[id].status.phase.Running?
  {
    hide Gates, Set, Drive, Lists, Clear, Approved;
    var env := Calm([w.ops[a], w.ops[b]]);
    PairListed(w.ops, a, b);
    GatesExact(cfg, w, id, env);
    StartIsRecorded(cfg, w, id, env);
    DriveGrown(w, id, env);
    assert Do(cfg, w, Turn(w, id, a, b)) == Drive(w, id, env);
  }

  lemma NothingInFlight(a: Id, sa: Spec, b: Id, sb: Spec)
    requires a != b
    ensures var w := Adopted(a, sa, b, sb); Clear(w.ops, w.ops[a])
  {
  }

  // ---------- Into the deadlock ----------

  const UPGRADE := Spec(Upgrade, Helm, "app", None)

  /** Two upgrades created on one target deadlock in a run where nothing at all goes wrong. */
  lemma DeadlockReachable(cfg: Config, a: Id, b: Id) returns (steps: seq<Step>)
    requires a != b && a.namespace == b.namespace
    ensures Spares(steps, a, b) && Stuck(Run(cfg, EMPTY, steps), a, b)
  {
    hide Do, Stuck, Run, Rivals, Pair;
    var w := Adopted(a, UPGRADE, b, UPGRADE);
    AdoptionRuns(cfg, a, UPGRADE, b, UPGRADE);
    FirstStarts(cfg, a, b);
    var step := Turn(w, a, a, b);
    var tail := SecondStops(cfg, Do(cfg, w, step), a, b);
    OneStep(cfg, w, step);
    RunAppend(cfg, w, [step], tail);
    RunAppend(cfg, EMPTY, Adoption(a, UPGRADE, b, UPGRADE), [step] + tail);
    steps := Adoption(a, UPGRADE, b, UPGRADE) + ([step] + tail);
  }

  lemma FirstStarts(cfg: Config, a: Id, b: Id)
    requires a != b && a.namespace == b.namespace
    ensures var w := Adopted(a, UPGRADE, b, UPGRADE);
      var w1 := Do(cfg, w, Turn(w, a, a, b));
      Pair(w1, a, b) && Rivals(w1, a, b) && w1.ops[a].status.phase.Running?
  {
    hide Do, Clear, Approved;
    NothingInFlight(a, UPGRADE, b, UPGRADE);
    OneStarts(cfg, Adopted(a, UPGRADE, b, UPGRADE), a, a, b);
  }

  lemma SecondStops(cfg: Config, w: World, a: Id, b: Id) returns (tail: seq<Step>)
    requires Pair(w, a, b) && Rivals(w, a, b) && w.ops[a].status.phase.Running?
    ensures Spares(tail, a, b) && Stuck(Run(cfg, w, tail), a, b)
  {
    var envB := Calm([w.ops[a], w.ops[b]]);
    PairListed(w.ops, a, b);
    RivalBlocks(cfg, w, b, a, envB);
    var w' := Reconcile(cfg, w, b, envB);
    var envA := Calm([w'.ops[a], w'.ops[b]]);
    hide Reconcile, Lists, Stuck;
    PairListed(w'.ops, a, b);
    NewcomerStopsBoth(cfg, w, a, b, envB, envA, []);
    tail := [Reconciled(b, envB), Reconciled(a, envA)] + [];
  }

  // ---------- An upgrade beside a restore ----------

  /** The payload of an approval of operation `name` that has not expired at time 0. */
  function ApprovalOf(name: string): Claim.Payload {
    Claim.Payload(1, 0, name, "", "", 0)
  }

  /** A restore with the claim that is issued for it. */
  function ApprovedRestore(cfg: Config, id: Id): Spec {
    var claim := Claim.Issue(cfg.crypto, cfg.secret, ApprovalOf(id.name));
    Spec(Restore, Velero, "app", Some(ApprovalSpec(true, if claim.Some? then claim.value else "")))
  }

  lemma RestoreApproved(cfg: Config, op: Operation)
    requires Trim(cfg.secret) != "" && op.spec == ApprovedRestore(cfg, op.id)
    ensures Claim.ReadsBack(cfg.crypto, ApprovalOf(op.id.name)) ==> Approved(cfg.crypto, op, cfg.secret, 0)
  {
    hide Claim.Verify, Claim.Issue, Claim.ReadsBack, Trim;
    var p := ApprovalOf(op.id.name);
    Claim.ClaimRoundTrip(cfg.crypto, cfg.secret, cfg.secret, p, op.id.name, 0);
    if Claim.ReadsBack(cfg.crypto, p) {
      var claim := Claim.Issue(cfg.crypto, cfg.secret, p).value;
      Claim.VerifiedIsGenuine(cfg.crypto, cfg.secret, claim, op.id.name, 0);
      var body, payload :| Claim.Genuine(cfg.crypto, cfg.secret, claim, op.id.name, 0, body, payload);
      TrimTight(claim);
      assert Claim.Genuine(cfg.crypto, cfg.secret, ClaimOf(op), op.id.name, 0, body, payload);
    }
  }

  /** A restore does not keep an upgrade off its target. */
  lemma RestoreDoesNotBlock(w: World, u: Id, r: Id)
    requires Pair(w, u, r) && w.ops[u].spec.verb.Upgrade? && w.ops[r].spec.verb.Restore?
    ensures Clear(w.ops, w.ops[u])
  {
  }

  /** An approved restore and an upgrade are created on one target, the restore starts, then the upgrade:
      in a run where nothing goes wrong both are Running, and the restore's next reconcile takes its
      phase away. The operator has a secret, and its decoder reads the issued claim back. */
  lemma UpgradeBesideRestoreReachable(cfg: Config, u: Id, r: Id) returns (steps: seq<Step>, last: Step)
    requires u != r && u.namespace == r.namespace && Trim(cfg.secret) != ""
    ensures Claim.ReadsBack(cfg.crypto, ApprovalOf(r.name)) ==>
      var w := Run(cfg, EMPTY, steps);
      && u in w.ops && r in w.ops && SameTarget(w.ops[u], w.ops[r])
      && w.ops[u].spec.verb.Upgrade? && w.ops[r].spec.verb.Restore?
      && w.ops[u].status.phase.Running? && w.ops[r].status.phase.Running?
      && last.Reconciled? && last.id == r && AllWritten(last.env)
      && var w' := Do(cfg, w, last);
         r in w'.ops && w'.ops[r].status.phase.Pending?
  {
    steps, last := [], Delete(r);
    if !Claim.ReadsBack(cfg.crypto, ApprovalOf(r.name)) { return; }
    hide Do, Run, Lists, Clear, Approved, Trim, Claim.ReadsBack, ApprovedRestore;
    var sr := ApprovedRestore(cfg, r);
    var w := Adopted(r, sr, u, UPGRADE);
    AdoptionRuns(cfg, r, sr, u, UPGRADE);
    RestoreStarts(cfg, u, r);
    var first := Turn(w, r, r, u);
    var w1 := Do(cfg, w, first);
    var second := UpgradeFollows(cfg, w1, u, r);
    last := RestoreStops(cfg, Do(cfg, w1, second), u, r);
    OneStep(cfg, w, first);
    OneStep(cfg, w1, second);
    RunAppend(cfg, w, [first], [second]);
    RunAppend(cfg, EMPTY, Adoption(r, sr, u, UPGRADE), [first] + [second]);
    steps := Adoption(r, sr, u, UPGRADE) + ([first] + [second]);
  }

  lemma RestoreStarts(cfg: Config, u: Id, r: Id)
    requires u != r && u.namespace == r.namespace && Trim(cfg.secret) != ""
    ensures Claim.ReadsBack(cfg.crypto, ApprovalOf(r.name)) ==>
      var w := Adopted(r, ApprovedRestore(cfg, r), u, UPGRADE);
      var w1 := Do(cfg, w, Turn(w, r, r, u));
      Beside(w1, u, r) && w1.ops[u].status == FRESH
  {
    hide Do, Clear, Approved, Trim, Claim.ReadsBack, Claim.Issue;
    var sr := ApprovedRestore(cfg, r);
    var w := Adopted(r, sr, u, UPGRADE);
    NothingInFlight(r, sr, u, UPGRADE);
    RestoreApproved(cfg, w.ops[r]);
    if Claim.ReadsBack(cfg.crypto, ApprovalOf(r.name)) { OneStarts(cfg, w, r, r, u); }
  }

  ghost predicate Beside(w: World, u: Id, r: Id) {
    && Pair(w, u, r) && Managed(w, u) && Managed(w, r) && SameTarget(w.ops[u], w.ops[r])
    && w.ops[u].spec == UPGRADE && w.ops[r].spec.verb.Restore? && w.ops[r].status.phase.Running?
  }

  lemma UpgradeFollows(cfg: Config, w: World, u: Id, r: Id) returns (step: Step)
    requires Beside(w, u, r) && w.ops[u].status == FRESH
    ensures var w' := Do(cfg, w, step);
      Beside(w', u, r) && w'.ops[u].status.phase.Running?
  {
    RestoreDoesNotBlock(w, u, r);
    hide Do, Clear, Approved;
    OneStarts(cfg, w, u, r, u);
    step := Turn(w, u, r, u);
  }

  lemma RestoreStops(cfg: Config, w: World, u: Id, r: Id) returns (step: Step)
    requires Beside(w, u, r) && w.ops[u].status.phase.Running?
    ensures step.Reconciled? && step.id == r && AllWritten(step.env)
    ensures var w' := Do(cfg, w, step); r in w'.ops && w'.ops[r].status.phase.Pending?
  {
    var env := Calm([w.ops[u], w.ops[r]]);
    PairListed(w.ops, u, r);
    assert Rival(w.ops[u], w.ops[r]);
    GatesExact(cfg, w, r, env);
    hide Gates, Set, MayStart, Lists, Drive;
    step := Reconciled(r, env);
  }
}
