/** Which S3 credential of a Seaweed release is reported: the listing is filtered and sorted by name,
    and the first Ready credential with usable keys wins. */
module S3Credentials {
  import opened Text

  datatype Phase = NoPhase | Pending | Terminating | Ready | Failed | OtherPhase(name: string)

  datatype Cred = Cred(
    name: string, refName: string, phase: Phase, accessKey: string, secretName: string,
    specSecretName: string, accessKeyField: string, secretKeyField: string)

  /** What reading a Secret gives. */
  datatype Secret = NotFound | Unreadable | Holds(data: map<string, string>)

  datatype Snapshot = Snapshot(accessKeyID: string, secretAccessKey: string, bucketName: string)

  datatype Outcome = Usable(snapshot: Snapshot) | SecretMissing | Unusable | ReadFailed

  datatype Result = Result(snapshot: Option<Snapshot>, pending: bool, failed: bool, error: bool)

  const NOTHING := Result(None, false, false, false)

  /** The release and the Secrets of its namespace. */
  datatype Scope = Scope(release: string, read: string -> Secret)

  function Field(data: map<string, string>, key: string): string {
    if key in data then data[key] else ""
  }

  function Default(s: string, d: string): string {
    if s == "" then d else s
  }

  function SnapshotOf(c: Cred, sc: Scope): Outcome {
    var secretName := Default(c.secretName, c.specSecretName);
    if !c.phase.NoPhase? && !c.phase.Ready? then Unusable
    else if secretName == "" then Unusable
    else match sc.read(secretName)
      case NotFound => SecretMissing
      case Unreadable => ReadFailed
      case Holds(data) =>
        var accessKey := Default(c.accessKey, Field(data, Default(c.accessKeyField, "accessKey")));
        var secretKey := Field(data, Default(c.secretKeyField, "secretKey"));
        if accessKey == "" || secretKey == "" then Unusable
        else Usable(Snapshot(accessKey, secretKey, sc.release))
  }

  /** What a credential gives. Its Secret is the one of its status, else of its spec. The access key of its
      status wins over the Secret's; both keys are read from the named fields or their defaults. It is
      usable exactly when the Secret is there and neither key is blank, and the bucket is the release. */
  lemma SnapshotExact(c: Cred, sc: Scope)
    ensures var secret := sc.read(if c.secretName != "" then c.secretName else c.specSecretName);
      var named := (c.secretName != "" || c.specSecretName != "") && (c.phase == NoPhase || c.phase == Ready);
      var accessField := if c.accessKeyField != "" then c.accessKeyField else "accessKey";
      var secretField := if c.secretKeyField != "" then c.secretKeyField else "secretKey";
      var o := SnapshotOf(c, sc);
      && (o.SecretMissing? <==> named && secret == NotFound)
      && (o.ReadFailed? <==> named && secret == Unreadable)
      && (o.Usable? <==>
            && named && secret.Holds?
            && secretField in secret.data && secret.data[secretField] != ""
            && (c.accessKey != "" || (accessField in secret.data && secret.data[accessField] != "")))
      && (o.Usable? ==>
            && o.snapshot.bucketName == sc.release
            && o.snapshot.secretAccessKey == secret.data[secretField]
            && o.snapshot.accessKeyID == if c.accessKey != "" then c.accessKey else secret.data[accessField])
  {
    var name := Default(c.secretName, c.specSecretName);
    assert name == if c.secretName != "" then c.secretName else c.specSecretName;
  }

  predicate StillPending(p: Phase) {
    !p.Ready? && !p.Failed?
  }

  // ---------- Names ----------

  /** Lexicographic order. */
  predicate Less(a: string, b: string) {
    b != "" && (a == "" || a[0] < b[0] || (a[0] == b[0] && Less(a[1..], b[1..])))
  }

  lemma {:induction false} LessTotal(a: string, b: string)
    ensures Less(a, b) || Less(b, a) || a == b
    ensures !(Less(a, b) && Less(b, a)) && !(Less(a, b) && a == b)
    decreases |a|
  {
    if a != "" && b != "" {
      LessTotal(a[1..], b[1..]);
      assert a == [a[0]] + a[1..] && b == [b[0]] + b[1..];
    }
  }

  lemma {:induction false} LessTransitive(a: string, b: string, c: string)
    requires Less(a, b) && Less(b, c)
    ensures Less(a, c)
    decreases |a|
  {
    if a != "" && a[0] == b[0] == c[0] {
      LessTransitive(a[1..], b[1..], c[1..]);
    }
  }

  /** Up to position `i` the names agree, and there `a` ends or has the lesser character. */
  predicate DecidedAt(a: string, b: string, i: nat) {
    i <= |a| && i < |b| && a[..i] == b[..i] && (i == |a| || a[i] < b[i])
  }

  /** The first difference decides; a proper prefix comes first. */
  lemma {:induction false} LessExact(a: string, b: string)
    ensures Less(a, b) <==> exists i: nat :: DecidedAt(a, b, i)
    decreases |a|
  {
    if a != "" && b != "" && a[0] == b[0] {
      var a', b' := a[1..], b[1..];
      LessExact(a', b');
      if i: nat :| DecidedAt(a, b, i) {
        assert a'[..i - 1] == a[..i][1..] && b'[..i - 1] == b[..i][1..];
        assert DecidedAt(a', b', i - 1);
      }
      if i: nat :| DecidedAt(a', b', i) {
        assert a[..i + 1] == [a[0]] + a'[..i] && b[..i + 1] == [b[0]] + b'[..i];
        assert DecidedAt(a, b, i + 1);
      }
    } else if b != "" && (a == "" || a[0] < b[0]) {
      assert DecidedAt(a, b, 0);
    } else if a != "" && b != "" {
      forall i: nat ensures !DecidedAt(a, b, i) {
        assert 0 < i <= |a| && i < |b| ==> a[..i][0] == a[0] && b[..i][0] == b[0];
      }
    }
  }

  predicate Distinct(cs: seq<Cred>) {
    forall i, j :: 0 <= i < j < |cs| ==> cs[i].name != cs[j].name
  }

  predicate Ascending(cs: seq<Cred>) {
    forall i, j :: 0 <= i < j < |cs| ==> Less(cs[i].name, cs[j].name)
  }

  predicate SameMembers(a: seq<Cred>, b: seq<Cred>) {
    (forall c :: c in a ==> c in b) && (forall c :: c in b ==> c in a)
  }

  // ---------- What is selected ----------

  predicate Matches(listing: seq<Cred>, sc: Scope, c: Cred) {
    c in listing && c.refName == sc.release
  }

  /** Ends the search: usable, or its Secret cannot be read. */
  predicate Settles(c: Cred, sc: Scope) {
    SnapshotOf(c, sc).Usable? || SnapshotOf(c, sc).ReadFailed?
  }

  /** A Ready credential of the release that settles the search. */
  predicate Decisive(listing: seq<Cred>, sc: Scope, c: Cred) {
    Matches(listing, sc, c) && c.phase.Ready? && Settles(c, sc)
  }

  ghost predicate LeastDecisive(listing: seq<Cred>, sc: Scope, c: Cred) {
    Decisive(listing, sc, c) && forall d :: Decisive(listing, sc, d) ==> d == c || Less(c.name, d.name)
  }

  /** Something that may become usable by itself. */
  predicate Waiting(listing: seq<Cred>, sc: Scope, c: Cred) {
    Matches(listing, sc, c)
    && ((c.phase != Ready && c.phase != Failed) || (c.phase == Ready && SnapshotOf(c, sc).SecretMissing?))
  }

  /** The result, said without any order of the listing: the decisive credential of the least name
      settles it; without one, waiting credentials make it pending, and only then can it have failed. */
  ghost predicate Selected(listing: seq<Cred>, sc: Scope, r: Result) {
    if exists c :: Decisive(listing, sc, c) then
      exists c :: LeastDecisive(listing, sc, c) &&
        r == match SnapshotOf(c, sc)
             case Usable(snapshot) => Result(Some(snapshot), false, false, false)
             case _ => Result(None, true, false, true)
    else
      var pending := exists c :: Waiting(listing, sc, c);
      var failed := !pending && exists c :: Matches(listing, sc, c);
      r == Result(None, pending, failed, false)
  }

  // ---------- The code ----------

  /** listMatchingS3Credentials before it sorts. */
  method FilterMatching(listing: seq<Cred>, sc: Scope) returns (candidates: seq<Cred>)
    ensures forall c :: c in candidates <==> Matches(listing, sc, c)
    ensures Distinct(listing) ==> Distinct(candidates)
  {
    candidates := [];
    for i := 0 to |listing|
      invariant forall c :: c in candidates <==> c in listing[..i] && c.refName == sc.release
      invariant Distinct(listing) ==> Distinct(candidates)
    {
      var item := listing[i];
      assert listing[..i + 1] == listing[..i] + [item];
      if item.refName != sc.release { continue; }
      if Distinct(listing) {
        assert forall c :: c in candidates ==> c.name != item.name;
      }
      candidates := candidates + [item];
    }
    assert listing[..|listing|] == listing;
  }

  /** Where an item belongs in an ascending list that has no item of its name. */
  method Position(cs: seq<Cred>, item: Cred) returns (k: nat)
    ensures k <= |cs|
    ensures forall i :: 0 <= i < k ==> !Less(item.name, cs[i].name)
    ensures k < |cs| ==> Less(item.name, cs[k].name)
  {
    k := 0;
    while k < |cs| && !Less(item.name, cs[k].name)
      invariant k <= |cs|
      invariant forall i :: 0 <= i < k ==> !Less(item.name, cs[i].name)
    {
      k := k + 1;
    }
  }

  lemma InsertAscending(cs: seq<Cred>, item: Cred, k: nat)
    requires Ascending(cs) && k <= |cs|
    requires forall i :: 0 <= i < |cs| ==> cs[i].name != item.name
    requires forall i :: 0 <= i < k ==> !Less(item.name, cs[i].name)
    requires k < |cs| ==> Less(item.name, cs[k].name)
    ensures Ascending(cs[..k] + [item] + cs[k..])
  {
    var r := cs[..k] + [item] + cs[k..];
    forall i, j | 0 <= i < j < |r|
      ensures Less(r[i].name, r[j].name)
    {
      if j == k {
        LessTotal(r[i].name, item.name);
      } else if i == k && j > k + 1 {
        assert r[j] == cs[j - 1];
        LessTransitive(item.name, cs[k].name, cs[j - 1].name);
      }
    }
  }

  lemma InsertMembers(done: seq<Cred>, sorted: seq<Cred>, item: Cred, k: nat)
    requires k <= |sorted| && multiset(sorted) == multiset(done) && SameMembers(sorted, done)
    ensures var r := sorted[..k] + [item] + sorted[k..];
      multiset(r) == multiset(done + [item]) && SameMembers(r, done + [item])
  {
    var r := sorted[..k] + [item] + sorted[k..];
    assert sorted == sorted[..k] + sorted[k..];
    assert forall c :: c in r <==> c in sorted || c == item;
  }

  lemma InsertSorted(cs: seq<Cred>, n: nat, sorted: seq<Cred>, k: nat)
    requires n < |cs| && k <= |sorted| && SameMembers(sorted, cs[..n])
    requires Distinct(cs) && Ascending(sorted)
    requires forall i :: 0 <= i < k ==> !Less(cs[n].name, sorted[i].name)
    requires k < |sorted| ==> Less(cs[n].name, sorted[k].name)
    ensures Ascending(sorted[..k] + [cs[n]] + sorted[k..])
  {
    forall i | 0 <= i < |sorted|
      ensures sorted[i].name != cs[n].name
    {
      assert sorted[i] in cs[..n];
    }
    InsertAscending(sorted, cs[n], k);
  }

  /** Stands for the library's sort: a permutation, ascending when names are distinct. */
  method SortByName(cs: seq<Cred>) returns (sorted: seq<Cred>)
    ensures multiset(sorted) == multiset(cs) && SameMembers(sorted, cs)
    ensures Distinct(cs) ==> Ascending(sorted)
  {
    hide Less, Ascending, Distinct, SameMembers;
    sorted := [];
    assert cs[..0] == [] && SameMembers([], []) && Ascending([]) by { NothingToSort(); }
    for n := 0 to |cs|
      invariant multiset(sorted) == multiset(cs[..n])
      invariant SameMembers(sorted, cs[..n])
      invariant Distinct(cs) ==> Ascending(sorted)
    {
      var k := Position(sorted, cs[n]);
      InsertMembers(cs[..n], sorted, cs[n], k);
      assert cs[..n + 1] == cs[..n] + [cs[n]];
      if Distinct(cs) {
        InsertSorted(cs, n, sorted, k);
      }
      sorted := sorted[..k] + [cs[n]] + sorted[k..];
    }
    assert cs[..|cs|] == cs;
  }

  lemma NothingToSort()
    ensures SameMembers([], []) && Ascending([])
  {
  }

  method SplitByPhase(cs: seq<Cred>) returns (ready: seq<Cred>, pending: bool)
    ensures forall c :: c in ready <==> c in cs && c.phase.Ready?
    ensures pending <==> exists c :: c in cs && StillPending(c.phase)
    ensures Ascending(cs) ==> Ascending(ready)
  {
    ready, pending := [], false;
    for i := 0 to |cs|
      invariant forall c :: c in ready <==> c in cs[..i] && c.phase.Ready?
      invariant pending <==> exists c :: c in cs[..i] && StillPending(c.phase)
      invariant Ascending(cs) ==> Ascending(ready)
    {
      assert cs[..i + 1] == cs[..i] + [cs[i]];
      match cs[i].phase
      case Ready =>
        if Ascending(cs) {
          assert forall j :: 0 <= j < |ready| ==> ready[j] in cs[..i] && Less(ready[j].name, cs[i].name);
        }
        ready := ready + [cs[i]];
      case Failed =>
      case _ =>
        assert cs[i] in cs[..i + 1] && StillPending(cs[i].phase);
        pending := true;
    }
    assert cs[..|cs|] == cs;
  }

  /** The position of the first credential that settles the search, or the length. */
  function FirstSettling(ready: seq<Cred>, sc: Scope): (i: nat)
    ensures i <= |ready|
    ensures i < |ready| ==> Settles(ready[i], sc)
    ensures forall j :: 0 <= j < i ==> !Settles(ready[j], sc)
  {
    if ready == [] || Settles(ready[0], sc) then 0 else 1 + FirstSettling(ready[1..], sc)
  }

  /** The loop over the ready candidates. */
  method ScanReady(ready: seq<Cred>, stillPending: bool, sc: Scope) returns (r: Result)
    ensures var at := FirstSettling(ready, sc);
      if at < |ready| then
        r == match SnapshotOf(ready[at], sc)
             case Usable(snapshot) => Result(Some(snapshot), false, false, false)
             case _ => Result(None, true, false, true)
      else
        && r.snapshot.None? && !r.error
        && (r.pending <==> stillPending || exists c :: c in ready && SnapshotOf(c, sc).SecretMissing?)
        && (r.failed <==> !r.pending && ready != [])
  {
    var secretMissing, unusable := false, false;
    for i := 0 to |ready|
      invariant forall j :: 0 <= j < i ==> !Settles(ready[j], sc)
      invariant secretMissing <==> exists c :: c in ready[..i] && SnapshotOf(c, sc).SecretMissing?
      invariant unusable <==> exists c :: c in ready[..i] && SnapshotOf(c, sc).Unusable?
    {
      assert ready[..i + 1] == ready[..i] + [ready[i]];
      assert ready[i] in ready[..i + 1];
      match SnapshotOf(ready[i], sc)
      case ReadFailed =>
        assert FirstSettling(ready, sc) == i;
        return Result(None, true, false, true);
      case Usable(snapshot) =>
        assert FirstSettling(ready, sc) == i;
        return Result(Some(snapshot), false, false, false);
      case SecretMissing => secretMissing := true;
      case Unusable => unusable := true;
    }
    assert ready[..|ready|] == ready;
    assert FirstSettling(ready, sc) == |ready|;
    if ready != [] { assert ready[0] in ready && !Settles(ready[0], sc); }
    if stillPending || secretMissing { return Result(None, true, false, false); }
    if unusable { return Result(None, false, true, false); }
    r := NOTHING;
  }

  lemma FirstIsLeast(listing: seq<Cred>, sc: Scope, ready: seq<Cred>, at: nat)
    requires Ascending(ready) && at < |ready|
    requires forall c :: c in ready <==> Matches(listing, sc, c) && c.phase.Ready?
    requires at == FirstSettling(ready, sc)
    ensures LeastDecisive(listing, sc, ready[at])
  {
    hide SnapshotOf;
    assert ready[at] in ready;
    forall d | Decisive(listing, sc, d)
      ensures d == ready[at] || Less(ready[at].name, d.name)
    {
      assert d in ready;
      var j :| 0 <= j < |ready| && ready[j] == d;
      assert j >= at;
    }
  }

  /** ResolveManagedStorageState. A release reference that does not validate and a list call that
      fails are errors. */
  method ResolveManagedStorageState(validRef: bool, listing: Option<seq<Cred>>, sc: Scope) returns (r: Result)
    ensures !validRef || listing.None? ==> r == NOTHING.(error := true)
    ensures validRef && listing.Some? && Distinct(listing.value) ==> Selected(listing.value, sc, r)
  {
    if !validRef || listing.None? { return NOTHING.(error := true); }
    var candidates := FilterMatching(listing.value, sc);
    candidates := SortByName(candidates);
    if |candidates| == 0 {
      assert forall c :: !Matches(listing.value, sc, c);
      return NOTHING;
    }
    assert Matches(listing.value, sc, candidates[0]);
    var ready, stillPending := SplitByPhase(candidates);
    if |ready| == 0 {
      NoneReady(listing.value, sc, candidates, stillPending);
      return Result(None, stillPending, !stillPending, false);
    }
    r := ScanReady(ready, stillPending, sc);
    if Distinct(listing.value) {
      ScanSelects(listing.value, sc, candidates, ready, stillPending, r);
    }
  }

  lemma NoneReady(listing: seq<Cred>, sc: Scope, candidates: seq<Cred>, pending: bool)
    requires candidates != [] && forall c :: c in candidates <==> Matches(listing, sc, c)
    requires forall c :: c in candidates ==> !c.phase.Ready?
    requires pending <==> exists c :: c in candidates && StillPending(c.phase)
    ensures Selected(listing, sc, Result(None, pending, !pending, false))
  {
    hide SnapshotOf;
    assert candidates[0] in candidates;
    assert forall c :: !Decisive(listing, sc, c);
    assert forall c :: Waiting(listing, sc, c) <==> c in candidates && StillPending(c.phase);
  }

  lemma ScanSelects(listing: seq<Cred>, sc: Scope, candidates: seq<Cred>, ready: seq<Cred>, stillPending: bool,
      r: Result)
    requires forall c :: c in candidates <==> Matches(listing, sc, c)
    requires forall c :: c in ready <==> c in candidates && c.phase.Ready?
    requires stillPending <==> exists c :: c in candidates && StillPending(c.phase)
    requires Ascending(ready) && ready != []
    requires var at := FirstSettling(ready, sc);
      if at < |ready| then
        r == match SnapshotOf(ready[at], sc)
             case Usable(snapshot) => Result(Some(snapshot), false, false, false)
             case _ => Result(None, true, false, true)
      else
        && r.snapshot.None? && !r.error
        && (r.pending <==> stillPending || exists c :: c in ready && SnapshotOf(c, sc).SecretMissing?)
        && (r.failed <==> !r.pending && ready != [])
    ensures Selected(listing, sc, r)
  {
    hide SnapshotOf;
    var at := FirstSettling(ready, sc);
    if at < |ready| {
      FirstIsLeast(listing, sc, ready, at);
      assert Decisive(listing, sc, ready[at]);
    } else {
      assert ready[0] in ready && Matches(listing, sc, ready[0]);
      assert forall c :: c in ready ==> !Settles(c, sc);
      assert forall c :: !Decisive(listing, sc, c);
      assert forall c :: Waiting(listing, sc, c) <==>
        (c in candidates && StillPending(c.phase)) || (c in ready && SnapshotOf(c, sc).SecretMissing?);
    }
  }

  // ---------- What follows ----------

  /** Least names are unique. */
  lemma LeastUnique(listing: seq<Cred>, sc: Scope, c: Cred, d: Cred)
    requires LeastDecisive(listing, sc, c) && LeastDecisive(listing, sc, d)
    ensures c == d
  {
    LessTotal(c.name, d.name);
  }

  /** Two listings of the same credentials, in any order, give the same result. */
  lemma OrderIndependent(l1: seq<Cred>, l2: seq<Cred>, sc: Scope, r1: Result, r2: Result)
    requires multiset(l1) == multiset(l2) && Selected(l1, sc, r1) && Selected(l2, sc, r2)
    ensures r1 == r2
  {
    hide SnapshotOf;
    SamePermuted(l1, l2);
    assert forall c :: Matches(l1, sc, c) == Matches(l2, sc, c);
    assert forall c :: Decisive(l1, sc, c) == Decisive(l2, sc, c);
    assert forall c :: Waiting(l1, sc, c) == Waiting(l2, sc, c);
    assert forall c :: LeastDecisive(l1, sc, c) == LeastDecisive(l2, sc, c);
    if exists c :: Decisive(l1, sc, c) {
      var c1 :| LeastDecisive(l1, sc, c1);
      forall c | LeastDecisive(l1, sc, c)
        ensures c == c1
      {
        LeastUnique(l1, sc, c, c1);
      }
    }
  }

  lemma SamePermuted(l1: seq<Cred>, l2: seq<Cred>)
    requires multiset(l1) == multiset(l2)
    ensures forall c :: c in l1 <==> c in l2
  {
    assert forall c :: c in l1 <==> c in multiset(l1);
    assert forall c :: c in l2 <==> c in multiset(l2);
  }

  /** When some credential matches and every Secret can be read, exactly one of snapshot, pending and
      failed holds, and a snapshot is that of the usable Ready credential of the least name. */
  lemma ExactlyOne(listing: seq<Cred>, sc: Scope, r: Result)
    requires Selected(listing, sc, r) && (exists c :: Matches(listing, sc, c))
    requires forall name :: !sc.read(name).Unreadable?
    ensures !r.error
    ensures (r.snapshot.Some? && !r.pending && !r.failed) || (r.snapshot.None? && r.pending != r.failed)
    ensures r.snapshot.Some? ==> exists c ::
      && Matches(listing, sc, c) && c.phase.Ready? && SnapshotOf(c, sc) == Usable(r.snapshot.value)
      && forall d :: Matches(listing, sc, d) && d.phase.Ready? && SnapshotOf(d, sc).Usable? ==>
           d == c || Less(c.name, d.name)
  {
    assert forall c :: !SnapshotOf(c, sc).ReadFailed?;
    hide SnapshotOf;
    if exists c :: Decisive(listing, sc, c) {
      var c :| LeastDecisive(listing, sc, c) && r == match SnapshotOf(c, sc)
        case Usable(snapshot) => Result(Some(snapshot), false, false, false)
        case _ => Result(None, true, false, true);
      assert Matches(listing, sc, c);
      forall d | Matches(listing, sc, d) && d.phase.Ready? && SnapshotOf(d, sc).Usable?
        ensures d == c || Less(c.name, d.name)
      {
        assert Decisive(listing, sc, d);
      }
    }
  }
}
