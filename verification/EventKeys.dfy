/** The deduplication keys of outbound events: how the reporter prints them and how the delivery
    callbacks read the report key back. */
module EventKeys {
  import opened Text

  const SLASH := '/'
  const MANAGED_STORAGE_PREFIX := "managedStorage/"
  const ENDPOINTS_PREFIX := "endpoints/"
  const CONDITION_PREFIX := "condition/"
  const FAILED_PREFIX := "ManagedStorageFailed/"

  datatype Ref = Ref(namespace: string, name: string)

  /** The fields of a resource reference that a condition key prints. */
  datatype FullRef = FullRef(apiVersion: string, kind: string, ref: Ref, uid: string, generation: int)

  function ManagedStorageEventKey(ref: Ref, readyType: string, readyStatus: string, reportKey: string): string {
    MANAGED_STORAGE_PREFIX + ref.namespace + "/" + ref.name + "/" + readyType + "/" + readyStatus + "/" + reportKey
  }

  function EndpointsEventKey(ref: Ref, reportKey: string): string {
    ENDPOINTS_PREFIX + ref.namespace + "/" + ref.name + "/" + reportKey
  }

  function OrUnderscore(s: string): string {
    if Trim(s) == "" then "_" else Trim(s)
  }

  function ConditionEventKey(r: FullRef, condType: string, status: string): string {
    CONDITION_PREFIX + r.apiVersion + "/" + r.kind + "/" + OrUnderscore(r.ref.namespace) + "/" + r.ref.name + "/"
    + OrUnderscore(r.uid) + "/" + condType + "/" + status + "@" + Decimal(r.generation)
  }

  function ManagedStorageFailedKey(uid: string, condType: string): string {
    FAILED_PREFIX + uid + "/" + condType
  }

  function ManagedStorageReportKeyFromEventKey(key: string): Option<string> {
    if !HasPrefix(key, MANAGED_STORAGE_PREFIX) then None
    else
      var parts := Split(key, SLASH);
      if |parts| != 6 then None else Some(parts[5])
  }

  function EndpointsReportKeyFromEventKey(key: string): Option<string> {
    if !HasPrefix(key, ENDPOINTS_PREFIX) then None
    else
      var parts := Split(key, SLASH);
      if |parts| != 4 then None else Some(parts[3])
  }

  // ---------- Print then parse ----------

  function StorageParts(ref: Ref, t: string, st: string, k: string): seq<string> {
    ["managedStorage", ref.namespace, ref.name, t, st, k]
  }

  function EndpointsParts(ref: Ref, k: string): seq<string> {
    ["endpoints", ref.namespace, ref.name, k]
  }

  lemma StorageKeyIsJoin(ref: Ref, t: string, st: string, k: string)
    ensures ManagedStorageEventKey(ref, t, st, k) == Join(StorageParts(ref, t, st, k), SLASH)
  {
    var p := StorageParts(ref, t, st, k);
    assert Join(p[5..], SLASH) == k;
    assert Join(p[4..], SLASH) == st + "/" + k by { assert p[4..][1..] == p[5..]; }
    assert Join(p[3..], SLASH) == t + "/" + (st + "/" + k) by { assert p[3..][1..] == p[4..]; }
    assert Join(p[2..], SLASH) == ref.name + "/" + (t + "/" + (st + "/" + k)) by { assert p[2..][1..] == p[3..]; }
    assert Join(p[1..], SLASH) == ref.namespace + "/" + (ref.name + "/" + (t + "/" + (st + "/" + k))) by {
      assert p[1..][1..] == p[2..];
    }
  }

  lemma EndpointsKeyIsJoin(ref: Ref, k: string)
    ensures EndpointsEventKey(ref, k) == Join(EndpointsParts(ref, k), SLASH)
  {
    var p := EndpointsParts(ref, k);
    assert Join(p[3..], SLASH) == k;
    assert Join(p[2..], SLASH) == ref.name + "/" + k by { assert p[2..][1..] == p[3..]; }
    assert Join(p[1..], SLASH) == ref.namespace + "/" + (ref.name + "/" + k) by { assert p[1..][1..] == p[2..]; }
  }

  /** A condition key lists the resource, a blank namespace or uid standing as an underscore, then the
      condition and the generation it was seen at. */
  lemma ConditionKeyIsJoin(r: FullRef, condType: string, status: string)
    ensures ConditionEventKey(r, condType, status) == Join(
      ["condition", r.apiVersion, r.kind, if Trim(r.ref.namespace) == "" then "_" else Trim(r.ref.namespace),
        r.ref.name,
       if Trim(r.uid) == "" then "_" else Trim(r.uid), condType, status + "@" + Decimal(r.generation)], SLASH)
  {
    hide Trim, Decimal, Join;
    var ns, uid, generation := OrUnderscore(r.ref.namespace), OrUnderscore(r.uid), Decimal(r.generation);
    var p := ["condition", r.apiVersion, r.kind, ns, r.ref.name, uid, condType, status + "@" + generation];
    JoinOne("condition");
    JoinUpto(p, 1);
    JoinUpto(p, 2);
    JoinUpto(p, 3);
    JoinUpto(p, 4);
    JoinUpto(p, 5);
    JoinUpto(p, 6);
    JoinUpto(p, 7);
    assert p[..1] == ["condition"] && p[..8] == p && "condition" + "/" == CONDITION_PREFIX;
    assert Join(p[..7], SLASH) + "/" + (status + "@" + generation)
      == Join(p[..7], SLASH) + "/" + status + "@" + generation;
  }

  lemma JoinOne(s: string)
    ensures Join([s], SLASH) == s
  {
  }

  lemma {:induction false} JoinSnoc(p: seq<string>, last: string)
    requires |p| >= 1
    ensures Join(p + [last], SLASH) == Join(p, SLASH) + "/" + last
  {
    var q := p + [last];
    if |p| == 1 {
      assert q[1..] == [last];
    } else {
      assert q[1..] == p[1..] + [last];
      JoinSnoc(p[1..], last);
      var rest := Join(p[1..], SLASH);
      assert p[0] + "/" + (rest + "/" + last) == (p[0] + "/" + rest) + "/" + last;
    }
  }

  lemma JoinUpto(p: seq<string>, i: nat)
    requires 1 <= i < |p|
    ensures Join(p[..i + 1], SLASH) == Join(p[..i], SLASH) + "/" + p[i]
  {
    assert p[..i + 1] == p[..i] + [p[i]];
    JoinSnoc(p[..i], p[i]);
  }

  lemma FailedKeyIsJoin(uid: string, condType: string)
    ensures ManagedStorageFailedKey(uid, condType) == Join(["ManagedStorageFailed", uid, condType], SLASH)
  {
    var p := ["ManagedStorageFailed", uid, condType];
    JoinOne("ManagedStorageFailed");
    JoinUpto(p, 1);
    JoinUpto(p, 2);
    assert p[..1] == ["ManagedStorageFailed"] && p[..3] == p && "ManagedStorageFailed" + "/" == FAILED_PREFIX;
  }

  predicate StoragePartsFree(ref: Ref, t: string, st: string, k: string) {
    SLASH !in ref.namespace && SLASH !in ref.name && SLASH !in t && SLASH !in st && SLASH !in k
  }

  predicate EndpointsPartsFree(ref: Ref, k: string) {
    SLASH !in ref.namespace && SLASH !in ref.name && SLASH !in k
  }

  /** The report key comes back from a managed-storage key exactly when no part holds a slash;
      with a slash anywhere the parser refuses the key rather than returning a wrong one. */
  lemma ManagedStorageKeyParses(ref: Ref, t: string, st: string, k: string)
    ensures ManagedStorageReportKeyFromEventKey(ManagedStorageEventKey(ref, t, st, k))
         == if StoragePartsFree(ref, t, st, k) then Some(k) else None
  {
    var p := StorageParts(ref, t, st, k);
    var key := ManagedStorageEventKey(ref, t, st, k);
    assert HasPrefix(key, MANAGED_STORAGE_PREFIX);
    StorageKeyIsJoin(ref, t, st, k);
    PartsParse(p, key);
    assert AllFree(p, SLASH) <==> StoragePartsFree(ref, t, st, k) by {
      assert p[1] == ref.namespace && p[2] == ref.name && p[3] == t && p[4] == st && p[5] == k;
    }
  }

  /** Splitting a joined key gives back as many parts exactly when no part holds a slash. */
  lemma PartsParse(p: seq<string>, key: string)
    requires |p| >= 1 && key == Join(p, SLASH)
    ensures |Split(key, SLASH)| == |p| <==> AllFree(p, SLASH)
    ensures AllFree(p, SLASH) ==> Split(key, SLASH) == p
  {
    CountJoin(p, SLASH);
    SplitLength(key, SLASH);
    if AllFree(p, SLASH) { SplitJoin(p, SLASH); }
  }

  /** The same for endpoints keys. */
  lemma EndpointsKeyParses(ref: Ref, k: string)
    ensures EndpointsReportKeyFromEventKey(EndpointsEventKey(ref, k))
         == if EndpointsPartsFree(ref, k) then Some(k) else None
  {
    var p := EndpointsParts(ref, k);
    EndpointsKeyIsJoin(ref, k);
    assert HasPrefix(EndpointsEventKey(ref, k), ENDPOINTS_PREFIX);
    PartsParse(p, EndpointsEventKey(ref, k));
    assert AllFree(p, SLASH) <==> EndpointsPartsFree(ref, k) by {
      assert p[1] == ref.namespace && p[2] == ref.name && p[3] == k;
    }
  }

  /** Slash-free parts are determined by the key they print. */
  lemma ManagedStorageKeyInjective(ref: Ref, t: string, st: string, k: string,
                                   ref': Ref, t': string, st': string, k': string)
    requires StoragePartsFree(ref, t, st, k) && StoragePartsFree(ref', t', st', k')
    requires ManagedStorageEventKey(ref, t, st, k) == ManagedStorageEventKey(ref', t', st', k')
    ensures ref == ref' && t == t' && st == st' && k == k'
  {
    var p, p' := StorageParts(ref, t, st, k), StorageParts(ref', t', st', k');
    StorageKeyIsJoin(ref, t, st, k);
    StorageKeyIsJoin(ref', t', st', k');
    SplitJoin(p, SLASH);
    SplitJoin(p', SLASH);
    assert p[1] == p'[1] && p[2] == p'[2] && p[3] == p'[3] && p[4] == p'[4] && p[5] == p'[5];
  }

  /** With a slash in the namespace, two different resources can print one key. */
  lemma SlashesCollide()
    ensures ManagedStorageEventKey(Ref("a/b", "c"), "T", "S", "k") ==
      ManagedStorageEventKey(Ref("a", "b/c"), "T", "S", "k")
  {
    assert "a/b" + "/" + "c" == "a" + "/" + "b/c";
    var tail := "/" + "T" + "/" + "S" + "/" + "k";
    assert ManagedStorageEventKey(Ref("a/b", "c"), "T", "S", "k") ==
      MANAGED_STORAGE_PREFIX + ("a/b" + "/" + "c") + tail;
    assert ManagedStorageEventKey(Ref("a", "b/c"), "T", "S", "k") ==
      MANAGED_STORAGE_PREFIX + ("a" + "/" + "b/c") + tail;
  }

  lemma EndpointsKeyInjective(ref: Ref, k: string, ref': Ref, k': string)
    requires EndpointsPartsFree(ref, k) && EndpointsPartsFree(ref', k')
    requires EndpointsEventKey(ref, k) == EndpointsEventKey(ref', k')
    ensures ref == ref' && k == k'
  {
    var p, p' := EndpointsParts(ref, k), EndpointsParts(ref', k');
    EndpointsKeyIsJoin(ref, k);
    EndpointsKeyIsJoin(ref', k');
    SplitJoin(p, SLASH);
    SplitJoin(p', SLASH);
    assert p[1] == p'[1] && p[2] == p'[2] && p[3] == p'[3];
  }

  /** Neither parser accepts a key of another family, whatever the parts hold. */
  lemma FamiliesDisjoint(ref: Ref, t: string, st: string, k: string, full: FullRef, uid: string)
    ensures EndpointsReportKeyFromEventKey(ManagedStorageEventKey(ref, t, st, k)).None?
    ensures ManagedStorageReportKeyFromEventKey(EndpointsEventKey(ref, k)).None?
    ensures ManagedStorageReportKeyFromEventKey(ConditionEventKey(full, t, st)).None?
    ensures EndpointsReportKeyFromEventKey(ConditionEventKey(full, t, st)).None?
    ensures ManagedStorageReportKeyFromEventKey(ManagedStorageFailedKey(uid, t)).None?
    ensures EndpointsReportKeyFromEventKey(ManagedStorageFailedKey(uid, t)).None?
  {
  }

  /** No string is accepted by both parsers. */
  lemma ParsersDisjoint(key: string)
    ensures ManagedStorageReportKeyFromEventKey(key).None? || EndpointsReportKeyFromEventKey(key).None?
  {
    assert HasPrefix(key, MANAGED_STORAGE_PREFIX) ==> key[0] == 'm';
    assert HasPrefix(key, ENDPOINTS_PREFIX) ==> key[0] == 'e';
  }

  // ---------- Keys of the in-memory delivery maps ----------

  function StorageDeliveryKey(ref: Ref): string {
    ref.namespace + "/" + ref.name
  }

  /** Kubernetes namespaces and names hold no slash, so a delivery key stands for one resource. */
  lemma StorageDeliveryKeyInjective(a: Ref, b: Ref)
    requires SLASH !in a.namespace && SLASH !in b.namespace
    requires StorageDeliveryKey(a) == StorageDeliveryKey(b)
    ensures a == b
  {
    SplitHead(a.namespace, a.name, SLASH);
    SplitHead(b.namespace, b.name, SLASH);
    assert Split(StorageDeliveryKey(a), SLASH)[0] == a.namespace;
    assert Split(StorageDeliveryKey(b), SLASH)[0] == b.namespace;
    var n := |a.namespace| + 1;
    assert StorageDeliveryKey(a)[n..] == a.name;
    assert StorageDeliveryKey(b)[n..] == b.name;
  }

  /** A report key is the hexadecimal form of eight digest bytes, so it is never blank and never
      holds a slash. */
  function ReportKey(digest: seq<byte>): (k: string)
    requires |digest| >= 8
    ensures |k| == 16 && SLASH !in k
  {
    Hex(digest[..8])
  }

  /** Two digests have the same report key exactly when their first eight bytes agree. */
  lemma ReportKeyExact(a: seq<byte>, b: seq<byte>)
    requires |a| >= 8 && |b| >= 8
    ensures ReportKey(a) == ReportKey(b) <==> forall i :: 0 <= i < 8 ==> a[i] == b[i]
    ensures FromHex(ReportKey(a)) == Some(a[..8])
  {
    HexInjective(a[..8], b[..8]);
    HexRoundTrip(a[..8]);
    assert a[..8] == b[..8] <==> forall i :: 0 <= i < 8 ==> a[..8][i] == b[..8][i];
    assert forall i :: 0 <= i < 8 ==> a[..8][i] == a[i] && b[..8][i] == b[i];
  }
}
