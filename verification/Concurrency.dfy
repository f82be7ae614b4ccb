/** Operations as the API server holds them, the conflict matrix and the search for a conflict. */
module Concurrency {
  import opened Text
  import opened Conditions

  datatype Verb = Backup | Restore | Upgrade | Migration | RunCommand | Runbook | OtherVerb(name: string)

  datatype Engine = Velero | Helm | HelmHookJob | Job | Workflow | OtherEngine(name: string)

  datatype Phase = Unset | Pending | Running | Succeeded | Failed | Cancelled | OtherPhase(name: string)

  const ACCEPTED := "Accepted"
  const BLOCKED := "Blocked"
  const RUNNING := "Running"
  const SUCCEEDED := "Succeeded"
  const FAILED := "Failed"

  datatype Id = Id(namespace: string, name: string)

  datatype ApprovalSpec = ApprovalSpec(required: bool, claim: string)

  datatype Spec = Spec(verb: Verb, engine: Engine, target: string, approvals: Option<ApprovalSpec>)

  datatype Status = Status(
    phase: Phase, startedAt: Option<int>, finishedAt: Option<int>, engineRef: bool,
    outputs: Option<string>, conditions: seq<Condition>)

  datatype Operation = Operation(id: Id, finalizer: bool, deleting: bool, spec: Spec, status: Status)

  /** Whether an in-flight operation of the first verb blocks one of the second. */
  predicate Conflicts(existing: Verb, incoming: Verb) {
    match incoming
    case Upgrade => existing == Upgrade
    case Restore => existing == Upgrade || existing == Backup
    case Backup => existing == Restore
    case _ => false
  }

  predicate Settled(p: Phase) {
    p.Succeeded? || p.Failed? || p.Cancelled?
  }

  predicate InFlight(op: Operation) {
    if Settled(op.status.phase) then false
    else if op.status.phase.Running? || op.status.phase.Pending? then true
    else exists c :: c in op.status.conditions && c.ctype == ACCEPTED && c.status == TRUE
  }

  method InFlightLoop(op: Operation) returns (b: bool)
    ensures b == InFlight(op)
  {
    match op.status.phase
    case Succeeded => return false;
    case Failed => return false;
    case Cancelled => return false;
    case Running => return true;
    case Pending => return true;
    case _ =>
      var cs := op.status.conditions;
      for i := 0 to |cs|
        invariant forall j :: 0 <= j < i ==> !(cs[j].ctype == ACCEPTED && cs[j].status == TRUE)
      {
        if cs[i].ctype == ACCEPTED && cs[i].status == TRUE {
          return true;
        }
      }
      return false;
  }

  /** Another in-flight operation on the same target that blocks `op`. */
  predicate Rival(item: Operation, op: Operation) {
    && item.id.name != op.id.name
    && item.spec.target == op.spec.target
    && InFlight(item)
    && Conflicts(item.spec.verb, op.spec.verb)
  }

  /** The position of the first rival in a listing, or its length. */
  function FirstRival(list: seq<Operation>, op: Operation): (i: nat)
    ensures i <= |list|
    ensures i < |list| ==> Rival(list[i], op)
    ensures forall j :: 0 <= j < i ==> !Rival(list[j], op)
  {
    if list == [] || Rival(list[0], op) then 0 else 1 + FirstRival(list[1..], op)
  }

  method FindConflict(list: seq<Operation>, op: Operation) returns (c: Option<Operation>)
    ensures c == if FirstRival(list, op) < |list| then Some(list[FirstRival(list, op)]) else None
    ensures c.None? <==> forall i :: 0 <= i < |list| ==> !InTheWay(list[i], op)
    ensures c.Some? ==> c.value in list && InTheWay(c.value, op)
    ensures (forall i :: 0 <= i < |list| ==> Finished(list[i].status.phase)) ==> c.None?
  {
    forall i | 0 <= i < |list| ensures Rival(list[i], op) == InTheWay(list[i], op) { RivalExact(list[i], op); }
    for i := 0 to |list|
      invariant forall j :: 0 <= j < i ==> !Rival(list[j], op)
    {
      var item := list[i];
      if item.id.name == op.id.name { continue; }
      if item.spec.target != op.spec.target { continue; }
      var active := InFlightLoop(item);
      if !active { continue; }
      if Conflicts(item.spec.verb, op.spec.verb) {
        assert FirstRival(list, op) == i;
        return Some(item);
      }
    }
    c := None;
  }

  /** The phases that are final. */
  predicate Finished(p: Phase) {
    p == Succeeded || p == Failed || p == Cancelled
  }

  /** Pending or Running, or accepted and in no final phase. */
  predicate Active(op: Operation) {
    || op.status.phase == Pending || op.status.phase == Running
    || (!Finished(op.status.phase)
        && exists i :: 0 <= i < |op.status.conditions|
             && op.status.conditions[i].ctype == "Accepted" && op.status.conditions[i].status == "True")
  }

  /** What the matrix says pair by pair: an upgrade waits for upgrades, a restore for upgrades and
      backups, a backup for restores, and nothing else waits. Only active operations of another name on
      the same target are waited for. */
  predicate InTheWay(item: Operation, op: Operation) {
    && item.id.name != op.id.name && item.spec.target == op.spec.target && Active(item)
    && (|| (op.spec.verb == Upgrade && item.spec.verb == Upgrade)
        || (op.spec.verb == Restore && item.spec.verb == Upgrade)
        || (op.spec.verb == Restore && item.spec.verb == Backup)
        || (op.spec.verb == Backup && item.spec.verb == Restore))
  }

  lemma RivalExact(item: Operation, op: Operation)
    ensures Rival(item, op) <==> InTheWay(item, op)
    ensures Finished(item.status.phase) ==> !Rival(item, op)
  {
    var cs := item.status.conditions;
    if c :| c in cs && c.ctype == ACCEPTED && c.status == TRUE {
      var i :| 0 <= i < |cs| && cs[i] == c;
    }
  }

  /** A listing of one namespace, in any order. */
  predicate Lists(list: seq<Operation>, ops: map<Id, Operation>, namespace: string) {
    && (forall i :: 0 <= i < |list| ==>
          list[i].id in ops && ops[list[i].id] == list[i] && list[i].id.namespace == namespace)
    && (forall id :: id in ops && id.namespace == namespace ==> ops[id] in list)
  }

  /** No operation of the namespace blocks `op`. */
  predicate Clear(ops: map<Id, Operation>, op: Operation) {
    forall id :: id in ops && id.namespace == op.id.namespace ==> !Rival(ops[id], op)
  }

  /** The answer of the search does not depend on the order of the listing. */
  lemma ListingDecides(list: seq<Operation>, ops: map<Id, Operation>, op: Operation)
    requires Lists(list, ops, op.id.namespace)
    ensures FirstRival(list, op) == |list| <==> Clear(ops, op)
  {
    var i := FirstRival(list, op);
    if i < |list| {
      assert Rival(ops[list[i].id], op);
    } else {
      forall id | id in ops && id.namespace == op.id.namespace
        ensures !Rival(ops[id], op)
      {
        var j :| 0 <= j < |list| && list[j] == ops[id];
      }
    }
  }
}

/** Approval gating. */
module Approvals {
  import opened Text
  import Claim = ApprovalClaim
  import opened Concurrency

  /** The only built-in template that requires approval is the Velero restore. */
  predicate TemplateRequires(verb: Verb, engine: Engine) {
    verb.Restore? && engine.Velero?
  }

  predicate Required(op: Operation) {
    (op.spec.approvals.Some? && op.spec.approvals.value.required) || TemplateRequires(op.spec.verb, op.spec.engine)
  }

  function ClaimOf(op: Operation): string {
    if op.spec.approvals.None? then "" else Trim(op.spec.approvals.value.claim)
  }

  predicate NeedsApprovalCheck(op: Operation) {
    op.status.phase.Unset? || op.status.phase.Pending?
  }

  function BlockReason(c: Claim.Crypto, op: Operation, secret: string, now: int, error: string): Option<string> {
    if !Required(op) then None
    else if ClaimOf(op) == "" then Some("approval claim required")
    else if Trim(secret) == "" then Some("approval claim present but operator approval-claim-secret is not configured")
    else if Claim.Verify(c, Trim(secret), ClaimOf(op), op.id.name, now).Rejected? then
      Some("invalid approval claim: " + error)
    else None
  }

  /** A claim signed with the secret, of version 1, for this operation, not expired. */
  ghost predicate Approved(c: Claim.Crypto, op: Operation, secret: string, now: int) {
    exists body, p :: Claim.Genuine(c, secret, ClaimOf(op), op.id.name, now, body, p)
  }

  /** The operation is a Velero restore, or its own approvals section asks for approval. */
  predicate AsksApproval(op: Operation) {
    || (op.spec.verb == Restore && op.spec.engine == Velero)
    || (op.spec.approvals.Some? && op.spec.approvals.value.required)
  }

  /** An operation is held back exactly when it asks for approval and carries no claim that is signed
      with the configured secret, for this operation, and not expired. */
  lemma BlockReasonExact(c: Claim.Crypto, op: Operation, secret: string, now: int, error: string)
    ensures BlockReason(c, op, secret, now, error).None? <==>
      !AsksApproval(op) || (Trim(secret) != "" && Approved(c, op, secret, now))
  {
    TrimTight(secret);
    Claim.VerifiedIsGenuine(c, Trim(secret), ClaimOf(op), op.id.name, now);
    var claim := ClaimOf(op);
    forall body, p
      ensures Claim.Genuine(c, Trim(secret), claim, op.id.name, now, body, p) ==
        Claim.Genuine(c, secret, claim, op.id.name, now, body, p)
    {
    }
    if claim == "" { BlankIsNotGenuine(c, secret, op.id.name, now); }
  }

  lemma BlankIsNotGenuine(c: Claim.Crypto, secret: string, name: string, now: int)
    ensures !exists body, p :: Claim.Genuine(c, secret, "", name, now, body, p)
  {
    Claim.EmptyHasOnePart();
    forall body, p
      ensures !Claim.Genuine(c, secret, "", name, now, body, p)
    {
      assert |Split("", Claim.DOT)| != |[Claim.PREFIX, body, Claim.Digest(c, Trim(secret), body)]|;
    }
  }
}
