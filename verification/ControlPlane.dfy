/** The control plane's side of event delivery: events are deduplicated by their trimmed key. */
module ControlPlane {
  import opened Text
  import opened Events

  datatype Store = Store(events: seq<Event>, keys: set<string>)

  const EMPTY := Store([], {})

  function IngestOne(s: Store, e: Event): Store {
    var key := Trim(e.key);
    if key == "" then s.(events := s.events + [e])
    else if key in s.keys then s
    else Store(s.events + [e], s.keys + {key})
  }

  function Ingest(s: Store, batch: seq<Event>): Store
    decreases |batch|
  {
    if batch == [] then s else Ingest(IngestOne(s, batch[0]), batch[1..])
  }

  /** Per-cluster event state of the server. */
  class EventLog {
    var events: seq<Event>
    var eventKeys: set<string>

    function View(): Store
      reads this
    {
      Store(events, eventKeys)
    }

    constructor ()
      ensures View() == EMPTY
    {
      events, eventKeys := [], {};
    }

    method HandleEvents(batch: seq<Event>)
      modifies this
      ensures View() == Ingest(old(View()), batch)
    {
      assert batch[0..] == batch;
      for i := 0 to |batch|
        invariant Ingest(View(), batch[i..]) == Ingest(old(View()), batch)
      {
        assert batch[i..][1..] == batch[i + 1..];
        var key := Trim(batch[i].key);
        if key != "" {
          if key in eventKeys {
            continue;
          }
          eventKeys := eventKeys + {key};
        }
        events := events + [batch[i]];
      }
    }
  }

  // ---------- Exactly once ----------

  ghost predicate Exact(s: Store) {
    && (forall i, j :: 0 <= i < j < |s.events| && Trim(s.events[i].key) != "" ==>
          Trim(s.events[i].key) != Trim(s.events[j].key))
    && (forall i :: 0 <= i < |s.events| && Trim(s.events[i].key) != "" ==> Trim(s.events[i].key) in s.keys)
    && (forall k :: k in s.keys ==> k != "" && StoredAt(s, k))
  }

  ghost predicate StoredAt(s: Store, k: string) {
    exists i :: 0 <= i < |s.events| && Trim(s.events[i].key) == k
  }

  lemma IngestOneExact(s: Store, e: Event)
    requires Exact(s)
    ensures Exact(IngestOne(s, e))
  {
    hide Trim;
    var s' := IngestOne(s, e);
    forall k | k in s'.keys
      ensures k != "" && StoredAt(s', k)
    {
      if k in s.keys {
        var i :| 0 <= i < |s.events| && Trim(s.events[i].key) == k;
        assert s'.events[i] == s.events[i];
      } else {
        assert Trim(s'.events[|s.events|].key) == k;
      }
    }
  }

  /** No batch, however often it is posted, makes the server store two events under one key; what
      was stored stays in place; and after a post every keyed event of the batch has an event with
      its key stored. */
  lemma {:induction false} IngestExact(s: Store, batch: seq<Event>)
    requires Exact(s)
    ensures var s' := Ingest(s, batch);
      && Exact(s')
      && s.events <= s'.events && s.keys <= s'.keys
      && (forall e :: e in batch && Trim(e.key) != "" ==> Trim(e.key) in s'.keys)
    decreases |batch|
  {
    if batch != [] {
      IngestOneExact(s, batch[0]);
      IngestExact(IngestOne(s, batch[0]), batch[1..]);
      assert batch == [batch[0]] + batch[1..];
    }
  }

  // ---------- What is stored ----------

  lemma {:induction false} IngestSnoc(s: Store, batch: seq<Event>, e: Event)
    ensures Ingest(s, batch + [e]) == IngestOne(Ingest(s, batch), e)
    decreases |batch|
  {
    hide IngestOne;
    if batch == [] {
      assert [e][1..] == [];
    } else {
      assert (batch + [e])[1..] == batch[1..] + [e] && (batch + [e])[0] == batch[0];
      IngestSnoc(IngestOne(s, batch[0]), batch[1..], e);
    }
  }

  /** The key of this event is in the store or on an earlier event of the batch. */
  predicate Seen(s: Store, earlier: seq<Event>, key: string) {
    key in s.keys || exists j :: 0 <= j < |earlier| && Trim(earlier[j].key) == key
  }

  /** The event at this position has no key, or the first of its key. */
  predicate News(s: Store, batch: seq<Event>, i: nat)
    requires i < |batch|
  {
    Trim(batch[i].key) == "" || !Seen(s, batch[..i], Trim(batch[i].key))
  }

  /** `stored` are the events of the batch at the positions `pos`, which are exactly those of news, in
      order. */
  ghost predicate Picks(pos: seq<nat>, s: Store, batch: seq<Event>, stored: seq<Event>) {
    && |pos| == |stored|
    && (forall i, j :: 0 <= i < j < |pos| ==> pos[i] < pos[j])
    && (forall i :: 0 <= i < |pos| ==> pos[i] < |batch| && stored[i] == batch[pos[i]])
    && (forall k :: 0 <= k < |batch| ==> (k in pos <==> News(s, batch, k)))
  }

  lemma PicksNext(pos: seq<nat>, s: Store, batch: seq<Event>, stored: seq<Event>, e: Event)
    requires Picks(pos, s, batch, stored)
    ensures News(s, batch + [e], |batch|) ==> Picks(pos + [|batch|], s, batch + [e], stored + [e])
    ensures !News(s, batch + [e], |batch|) ==> Picks(pos, s, batch + [e], stored)
  {
    hide Trim, Seen;
    var all := batch + [e];
    forall k | 0 <= k < |batch|
      ensures News(s, all, k) == News(s, batch, k)
    {
      assert all[..k] == batch[..k] && all[k] == batch[k];
    }
    if News(s, all, |batch|) {
      var pos' := pos + [|batch|];
      forall k | 0 <= k < |all| ensures k in pos' <==> News(s, all, k) {
        if k == |batch| { assert pos'[|pos|] == k; }
      }
    } else {
      assert |batch| !in pos;
    }
  }

  /** Exactly what a post stores, whatever was there: the events without a key and the first event of each
      key that was not there, as they came and in order. Its keys are those of before and of the batch. */
  lemma {:induction false} IngestStores(s: Store, batch: seq<Event>) returns (pos: seq<nat>, stored: seq<Event>)
    ensures Ingest(s, batch).events == s.events + stored && Picks(pos, s, batch, stored)
    ensures forall k :: k in Ingest(s, batch).keys <==> k in s.keys || (k != "" && Seen(s, batch, k))
    decreases |batch|
  {
    hide Trim, Picks;
    if batch == [] {
      pos, stored := [], [];
      NothingPicked(s);
    } else {
      var n := |batch| - 1;
      var front, e := batch[..n], batch[n];
      pos, stored := IngestStores(s, front);
      assert batch == front + [e];
      IngestSnoc(s, front, e);
      PicksNext(pos, s, front, stored, e);
      SeenNext(s, front, e);
      assert (front + [e])[..n] == front;
      if News(s, batch, n) { pos, stored := pos + [n], stored + [e]; }
    }
  }

  lemma SeenNext(s: Store, batch: seq<Event>, e: Event)
    ensures forall k :: Seen(s, batch + [e], k) <==> Seen(s, batch, k) || k == Trim(e.key)
  {
    hide Trim;
    var all := batch + [e];
    assert Trim(all[|batch|].key) == Trim(e.key);
    forall k
      ensures Seen(s, all, k) <==> Seen(s, batch, k) || k == Trim(e.key)
    {
      if j :| 0 <= j < |batch| && Trim(batch[j].key) == k { assert all[j] == batch[j]; }
    }
  }

  lemma NothingPicked(s: Store)
    ensures Picks([], s, [], [])
  {
  }

  lemma {:induction false} IngestKnown(s: Store, batch: seq<Event>)
    requires forall e :: e in batch ==> Trim(e.key) in s.keys && Trim(e.key) != ""
    ensures Ingest(s, batch) == s
    decreases |batch|
  {
    if batch != [] {
      assert batch[0] in batch;
      IngestKnown(s, batch[1..]);
    }
  }

  /** Posting a batch of keyed events again changes nothing, so a retry after a lost reply is safe. */
  lemma RetryHarmless(s: Store, batch: seq<Event>)
    requires Exact(s)
    requires forall e :: e in batch ==> Trim(e.key) != ""
    ensures Ingest(Ingest(s, batch), batch) == Ingest(s, batch)
  {
    IngestExact(s, batch);
    IngestKnown(Ingest(s, batch), batch);
  }
}
