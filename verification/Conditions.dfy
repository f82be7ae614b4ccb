/** Condition lists: setting a condition in place, looking one up, and the diff that is reported. */
module Conditions {
  import opened Text

  datatype Condition = Condition(ctype: string, status: string, reason: string, message: string, lastTransition: int)

  /** Equal but for the transition time. */
  predicate SameContent(a: Condition, b: Condition) {
    a.ctype == b.ctype && a.status == b.status && a.reason == b.reason && a.message == b.message
  }

  /** The first position of a type, or the length of the list. */
  function Find(cs: seq<Condition>, t: string): (i: nat)
    ensures i <= |cs|
    ensures i < |cs| ==> cs[i].ctype == t
    ensures forall j :: 0 <= j < i ==> cs[j].ctype != t
  {
    if cs == [] || cs[0].ctype == t then 0 else 1 + Find(cs[1..], t)
  }

  function Set(cs: seq<Condition>, t: string, status: string, reason: string, message: string,
      now: int): seq<Condition> {
    var c := Condition(t, status, reason, message, now);
    var i := Find(cs, t);
    if i == |cs| then cs + [c]
    else if SameContent(cs[i], c) then cs
    else cs[i := c]
  }

  function Get(cs: seq<Condition>, t: string): Option<Condition> {
    var i := Find(cs, t);
    if i == |cs| then None else Some(cs[i])
  }

  function StatusOf(cs: seq<Condition>, t: string): Option<string> {
    if Get(cs, t).Some? then Some(Get(cs, t).value.status) else None
  }

  const TRUE := "True"
  const FALSE := "False"

  predicate IsTrue(cs: seq<Condition>, t: string) {
    StatusOf(cs, t) == Some(TRUE)
  }

  // ---------- The code ----------

  /** The list is overwritten in place when the type is there; otherwise a longer copy is returned
      and the list stays as it was. */
  method SetInPlace(existing: array<Condition>, t: string, status: string, reason: string, message: string, now: int)
    returns (r: array<Condition>)
    modifies existing
    ensures r[..] == Set(old(existing[..]), t, status, reason, message, now)
    ensures Find(old(existing[..]), t) < existing.Length ==> r == existing
    ensures Find(old(existing[..]), t) == existing.Length ==> fresh(r) && existing[..] == old(existing[..])
  {
    ghost var was := existing[..];
    for i := 0 to existing.Length
      invariant existing[..] == was && forall j :: 0 <= j < i ==> was[j].ctype != t
    {
      if existing[i].ctype == t {
        assert Find(was, t) == i;
        if existing[i].status == status && existing[i].reason == reason && existing[i].message == message {
          return existing;
        }
        existing[i] := Condition(t, status, reason, message, now);
        return existing;
      }
    }
    assert Find(was, t) == |was|;
    var n := existing.Length;
    r := new Condition[n + 1](i requires 0 <= i reads existing => if i < existing.Length then existing[i]
      else Condition(t, status, reason, message, now));
    assert r[..] == was + [Condition(t, status, reason, message, now)];
  }

  method GetLoop(cs: seq<Condition>, t: string) returns (c: Option<Condition>)
    ensures c == Get(cs, t)
  {
    for i := 0 to |cs|
      invariant forall j :: 0 <= j < i ==> cs[j].ctype != t
    {
      if cs[i].ctype == t {
        return Some(cs[i]);
      }
    }
    c := None;
  }

  method IsTrueLoop(cs: seq<Condition>, t: string) returns (b: bool)
    ensures b == IsTrue(cs, t)
  {
    for i := 0 to |cs|
      invariant forall j :: 0 <= j < i ==> cs[j].ctype != t
    {
      if cs[i].ctype == t {
        return cs[i].status == TRUE;
      }
    }
    b := false;
  }

  // ---------- The diff ----------

  /** The last condition of a type, as a map filled from left to right keeps it. */
  function LastOf(cs: seq<Condition>, t: string): Option<Condition> {
    if cs == [] then None
    else if cs[|cs| - 1].ctype == t then Some(cs[|cs| - 1])
    else LastOf(cs[..|cs| - 1], t)
  }

  predicate Differs(prev: seq<Condition>, c: Condition) {
    var p := LastOf(prev, c.ctype);
    p.None? || !SameContent(p.value, c)
  }

  function Changed(prev: seq<Condition>, next: seq<Condition>): seq<Condition> {
    if next == [] then []
    else
      var last := next[|next| - 1];
      Changed(prev, next[..|next| - 1]) + if Differs(prev, last) then [last] else []
  }

  method ChangedConditions(prev: seq<Condition>, next: seq<Condition>) returns (changed: seq<Condition>)
    ensures changed == Changed(prev, next)
  {
    var prevByType: map<string, Condition> := map[];
    for i := 0 to |prev|
      invariant forall t :: LastOf(prev[..i], t) == if t in prevByType then Some(prevByType[t]) else None
    {
      assert prev[..i + 1][..i] == prev[..i];
      prevByType := prevByType[prev[i].ctype := prev[i]];
    }
    assert prev[..|prev|] == prev;
    changed := [];
    for i := 0 to |next|
      invariant changed == Changed(prev, next[..i])
    {
      assert next[..i + 1][..i] == next[..i];
      var nc := next[i];
      if nc.ctype !in prevByType
         || prevByType[nc.ctype].status != nc.status || prevByType[nc.ctype].reason != nc.reason
         || prevByType[nc.ctype].message != nc.message
      {
        LastOfType(prev, nc.ctype);
        changed := changed + [nc];
      } else {
        LastOfType(prev, nc.ctype);
      }
    }
    assert next[..|next|] == next;
  }

  lemma {:induction false} LastOfType(cs: seq<Condition>, t: string)
    ensures LastOf(cs, t).Some? ==> LastOf(cs, t).value.ctype == t
  {
    if cs != [] { LastOfType(cs[..|cs| - 1], t); }
  }

  // ---------- Setting ----------

  predicate Unique(cs: seq<Condition>) {
    forall i, j :: 0 <= i < j < |cs| ==> cs[i].ctype != cs[j].ctype
  }

  /** `next` has the types of `prev` where `prev` has them, and perhaps more at the end. */
  predicate Extends(prev: seq<Condition>, next: seq<Condition>) {
    |prev| <= |next| && forall i :: 0 <= i < |prev| ==> next[i].ctype == prev[i].ctype
  }

  datatype Update = Update(t: string, status: string, reason: string, message: string, now: int)

  function SetAll(cs: seq<Condition>, us: seq<Update>): seq<Condition>
    decreases |us|
  {
    if us == [] then cs
    else SetAll(Set(cs, us[0].t, us[0].status, us[0].reason, us[0].message, us[0].now), us[1..])
  }

  /** What a lookup finds after setting one condition: the condition with the new transition time, or,
      when nothing but the time would change, the one that was there. Other types are not touched. */
  lemma SetGet(cs: seq<Condition>, t: string, status: string, reason: string, message: string, now: int, u: string)
    ensures var was, got := Get(cs, u), Get(Set(cs, t, status, reason, message, now), u);
      var same := was.Some? && was.value.status == status && was.value.reason == reason && was.value.message == message;
      got == if u != t || same then was else Some(Condition(t, status, reason, message, now))
  {
    var cs' := Set(cs, t, status, reason, message, now);
    var i := Find(cs, u);
    assert forall j :: 0 <= j < |cs| ==> cs'[j].ctype == cs[j].ctype;
    if i < |cs| {
      assert cs'[i].ctype == u;
      assert Find(cs', u) == i;
    } else if u == t {
      assert cs'[|cs|].ctype == u;
      assert Find(cs', u) == |cs|;
    } else {
      assert Find(cs', u) == |cs'|;
    }
  }

  /** What setting one condition does to the status of every type. */
  lemma SetStatus(cs: seq<Condition>, t: string, status: string, reason: string, message: string, now: int, u: string)
    ensures StatusOf(Set(cs, t, status, reason, message, now), u) == if u == t then Some(status) else StatusOf(cs, u)
  {
    hide Get, Set;
    SetGet(cs, t, status, reason, message, now, u);
  }

  lemma {:induction false} SetAllExtends(cs: seq<Condition>, us: seq<Update>)
    requires Unique(cs)
    ensures Unique(SetAll(cs, us)) && Extends(cs, SetAll(cs, us))
    decreases |us|
  {
    if us != [] {
      var cs' := Set(cs, us[0].t, us[0].status, us[0].reason, us[0].message, us[0].now);
      assert Unique(cs') && Extends(cs, cs');
      SetAllExtends(cs', us[1..]);
    }
  }

  // ---------- Replaying the diff ----------

  /** A receiver's list after hearing of one condition. */
  function OverlayOne(cs: seq<Condition>, c: Condition): seq<Condition> {
    var i := Find(cs, c.ctype);
    if i == |cs| then cs + [c] else cs[i := c]
  }

  function Overlay(cs: seq<Condition>, changed: seq<Condition>): seq<Condition> {
    if changed == [] then cs
    else OverlayOne(Overlay(cs, changed[..|changed| - 1]), changed[|changed| - 1])
  }

  /** The receiver's list after the first `j` conditions of `next` have been compared. */
  function Partial(prev: seq<Condition>, next: seq<Condition>, j: nat): (r: seq<Condition>)
    requires Extends(prev, next) && j <= |next|
    ensures |r| == if j <= |prev| then |prev| else j
    ensures forall i :: 0 <= i < |r| ==>
      r[i] == if i < j && (i >= |prev| || !SameContent(prev[i], next[i])) then next[i] else prev[i]
  {
    seq(if j <= |prev| then |prev| else j, i requires 0 <= i < (if j <= |prev| then |prev| else j) =>
      if i < j && (i >= |prev| || !SameContent(prev[i], next[i])) then next[i] else prev[i])
  }

  lemma {:induction false} LastOfUnique(cs: seq<Condition>, i: nat)
    requires Unique(cs) && i < |cs|
    ensures LastOf(cs, cs[i].ctype) == Some(cs[i])
  {
    var n := |cs| - 1;
    if i < n {
      assert cs[n].ctype != cs[i].ctype;
      LastOfUnique(cs[..n], i);
    }
  }

  lemma {:induction false} LastOfAbsent(cs: seq<Condition>, t: string)
    requires forall i :: 0 <= i < |cs| ==> cs[i].ctype != t
    ensures LastOf(cs, t).None?
  {
    if cs != [] { LastOfAbsent(cs[..|cs| - 1], t); }
  }

  lemma {:induction false} OverlayPartial(prev: seq<Condition>, next: seq<Condition>, j: nat)
    requires Unique(prev) && Unique(next) && Extends(prev, next) && j <= |next|
    ensures Overlay(prev, Changed(prev, next[..j])) == Partial(prev, next, j)
    decreases j
  {
    hide Partial, OverlayOne, SameContent, Unique, Extends;
    if j == 0 {
      PartialStart(prev, next);
      assert next[..0] == [];
    } else {
      var k := j - 1;
      OverlayPartial(prev, next, k);
      ChangedSnoc(prev, next, k);
      OverlaySnoc(prev, Changed(prev, next[..k]), next[k]);
      DiffersIff(prev, next, k);
      OverlayStep(prev, next, k);
    }
  }

  lemma PartialStart(prev: seq<Condition>, next: seq<Condition>)
    requires Extends(prev, next)
    ensures Partial(prev, next, 0) == prev
  {
  }

  lemma ChangedSnoc(prev: seq<Condition>, next: seq<Condition>, k: nat)
    requires k < |next|
    ensures Changed(prev, next[..k + 1]) == Changed(prev, next[..k]) + if Differs(prev, next[k]) then [next[k]] else []
  {
    assert next[..k + 1][..k] == next[..k];
  }

  lemma OverlaySnoc(cs: seq<Condition>, changed: seq<Condition>, c: Condition)
    ensures Overlay(cs, changed + [c]) == OverlayOne(Overlay(cs, changed), c)
    ensures changed + [] == changed
  {
    assert (changed + [c])[..|changed|] == changed;
  }

  lemma DiffersIff(prev: seq<Condition>, next: seq<Condition>, k: nat)
    requires Unique(prev) && Unique(next) && Extends(prev, next) && k < |next|
    ensures Differs(prev, next[k]) <==> !(k < |prev| && SameContent(prev[k], next[k]))
  {
    if k < |prev| { LastOfUnique(prev, k); } else { LastOfAbsent(prev, next[k].ctype); }
  }

  lemma OverlayStep(prev: seq<Condition>, next: seq<Condition>, k: nat)
    requires Unique(next) && Extends(prev, next) && k < |next|
    ensures k < |prev| && SameContent(prev[k], next[k]) ==> Partial(prev, next, k) == Partial(prev, next, k + 1)
    ensures !(k < |prev| && SameContent(prev[k], next[k])) ==>
      OverlayOne(Partial(prev, next, k), next[k]) == Partial(prev, next, k + 1)
  {
    var p := Partial(prev, next, k);
    assert forall i :: 0 <= i < |p| ==> p[i].ctype == next[i].ctype;
    assert Find(p, next[k].ctype) == if k < |p| then k else |p|;
  }

  /** Whatever is set on a list with unique types: types stay unique and none disappears, and a
      receiver that holds the old list and hears the reported diff ends with the new list, up to
      transition times. */
  lemma DiffReplays(prev: seq<Condition>, us: seq<Update>)
    requires Unique(prev)
    ensures var next := SetAll(prev, us);
      && Unique(next) && Extends(prev, next)
      && var got := Overlay(prev, Changed(prev, next));
         |got| == |next| && forall i :: 0 <= i < |next| ==>
           got[i].ctype == next[i].ctype && got[i].status == next[i].status && got[i].reason == next[i].reason
           && got[i].message == next[i].message
  {
    SetAllExtends(prev, us);
    var next := SetAll(prev, us);
    OverlayPartial(prev, next, |next|);
    assert next[..|next|] == next;
  }

  // ---------- What the diff reports ----------

  /** The last condition of this type in `prev` has this status, reason and message. */
  predicate KnownBefore(prev: seq<Condition>, c: Condition) {
    exists i :: 0 <= i < |prev| && prev[i].ctype == c.ctype && prev[i].status == c.status
      && prev[i].reason == c.reason && prev[i].message == c.message
      && forall j :: i < j < |prev| ==> prev[j].ctype != c.ctype
  }

  lemma {:induction false} DiffersExact(prev: seq<Condition>, c: Condition)
    ensures Differs(prev, c) <==> !KnownBefore(prev, c)
  {
    if prev != [] {
      var n := |prev| - 1;
      if prev[n].ctype != c.ctype {
        DiffersExact(prev[..n], c);
        if KnownBefore(prev, c) {
          var i :| 0 <= i < |prev| && prev[i].ctype == c.ctype && prev[i].status == c.status
            && prev[i].reason == c.reason && prev[i].message == c.message
            && forall j :: i < j < |prev| ==> prev[j].ctype != c.ctype;
          assert prev[..n][i] == prev[i];
        }
        if KnownBefore(prev[..n], c) {
          var i :| 0 <= i < n && prev[..n][i].ctype == c.ctype && prev[..n][i].status == c.status
            && prev[..n][i].reason == c.reason && prev[..n][i].message == c.message
            && forall j :: i < j < n ==> prev[..n][j].ctype != c.ctype;
          assert forall j :: i < j < |prev| ==> prev[j].ctype != c.ctype by {
            forall j | i < j < n ensures prev[j].ctype != c.ctype { assert prev[..n][j] == prev[j]; }
          }
        }
      } else {
        assert KnownBefore(prev, c) <==> SameContent(prev[n], c);
      }
    }
  }

  /** `changed` are the conditions of `next` at the positions `pos`, which are exactly those of conditions
      not known before, in order. */
  ghost predicate Selects(pos: seq<nat>, prev: seq<Condition>, next: seq<Condition>, changed: seq<Condition>) {
    && |pos| == |changed|
    && (forall i, j :: 0 <= i < j < |pos| ==> pos[i] < pos[j])
    && (forall i :: 0 <= i < |pos| ==> pos[i] < |next| && changed[i] == next[pos[i]])
    && (forall k :: 0 <= k < |next| ==> (k in pos <==> !KnownBefore(prev, next[k])))
  }

  lemma SelectsNews(pos: seq<nat>, prev: seq<Condition>, next: seq<Condition>, changed: seq<Condition>, c: Condition)
    requires Selects(pos, prev, next, changed) && !KnownBefore(prev, c)
    ensures Selects(pos + [|next|], prev, next + [c], changed + [c])
  {
    hide KnownBefore;
    var pos', next' := pos + [|next|], next + [c];
    forall k | 0 <= k < |next'| ensures k in pos' <==> !KnownBefore(prev, next'[k]) {
      if k < |next| { assert next'[k] == next[k]; } else { assert pos'[|pos|] == k; }
    }
  }

  lemma SelectsKnown(pos: seq<nat>, prev: seq<Condition>, next: seq<Condition>, changed: seq<Condition>, c: Condition)
    requires Selects(pos, prev, next, changed) && KnownBefore(prev, c)
    ensures Selects(pos, prev, next + [c], changed)
  {
    hide KnownBefore;
    var next' := next + [c];
    forall k | 0 <= k < |next'| ensures k in pos <==> !KnownBefore(prev, next'[k]) {
      if k < |next| { assert next'[k] == next[k]; } else { assert k !in pos; }
    }
  }

  /** The diff reports exactly the conditions of `next` that were not known before, each once and in
      order, for all lists whatsoever; `pos` gives their positions. */
  lemma {:induction false} DiffExact(prev: seq<Condition>, next: seq<Condition>) returns (pos: seq<nat>)
    ensures Selects(pos, prev, next, Changed(prev, next))
    decreases |next|
  {
    hide KnownBefore, Differs, Selects;
    if next == [] {
      pos := [];
      NothingSelected(prev);
    } else {
      var n := |next| - 1;
      pos := DiffExact(prev, next[..n]);
      DiffersExact(prev, next[n]);
      assert next == next[..n] + [next[n]];
      if Differs(prev, next[n]) {
        SelectsNews(pos, prev, next[..n], Changed(prev, next[..n]), next[n]);
        pos := pos + [n];
      } else {
        SelectsKnown(pos, prev, next[..n], Changed(prev, next[..n]), next[n]);
        assert Changed(prev, next) == Changed(prev, next[..n]);
      }
    }
  }

  lemma NothingSelected(prev: seq<Condition>)
    ensures Selects([], prev, [], [])
  {
  }
}
