/** The applied-job keys: an in-memory cache over a ConfigMap. */
module Idempotency {
  import opened Text

  /** What the ConfigMap holds under its data key. */
  datatype Raw = Missing | Blank | Garbled | Keys(list: seq<string>)

  /** A write succeeds, fails, or is carried out while its reply is lost. */
  datatype Write = Written | Failed | ReplyLost

  /** `configMap` None stands for a ConfigMap that does not exist yet, `cache` None for one not loaded. */
  datatype Store = Store(namespace: string, cache: Option<set<string>>, configMap: Option<Raw>)

  /** The keys a load puts into the cache. */
  function LoadKeys(list: seq<string>): set<string> {
    set i | 0 <= i < |list| && Trim(list[i]) != "" :: Trim(list[i])
  }

  /** The keys a load would find. */
  function Persisted(s: Store): set<string> {
    if s.configMap.Some? && s.configMap.value.Keys? then LoadKeys(s.configMap.value.list) else {}
  }

  /** `list` is some iteration order of the set. */
  ghost predicate Lists(list: seq<string>, keys: set<string>) {
    && (forall i, j :: 0 <= i < j < |list| ==> list[i] != list[j])
    && (forall k :: k in keys <==> k in list)
  }

  function Loaded(s: Store, getOk: bool): (Store, bool) {
    if s.cache.Some? then (s, true)
    else if s.namespace == "" || !getOk then (s, false)
    else if s.configMap.None? then (s.(cache := Some({})), true)
    else
      match s.configMap.value
      case Garbled => (s, false)
      case _ => (s.(cache := Some(Persisted(s))), true)
  }

  function Checked(s: Store, key: string, getOk: bool): (Store, Option<bool>) {
    var k := Trim(key);
    if k == "" then (s, Some(false))
    else
      var (s', ok) := Loaded(s, getOk);
      if !ok then (s', None) else (s', Some(s'.cache.Some? && k in s'.cache.value))
  }

  ghost predicate PersistedTo(s: Store, s': Store, w: Write)
    requires s.cache.Some?
  {
    if w.Failed? then s' == s
    else
      && s'.configMap.Some? && s'.configMap.value.Keys?
      && Lists(s'.configMap.value.list, s.cache.value)
      && s' == s.(configMap := s'.configMap)
  }

  /** Record, for whichever order the keys are written in. */
  ghost predicate Recorded(s: Store, key: string, getOk: bool, w: Write, s': Store, ok: bool) {
    var k := Trim(key);
    if k == "" then s' == s && ok
    else
      var (s1, loaded) := Loaded(s, getOk);
      if !loaded || s1.cache.None? then s' == s1 && !ok
      else if k in s1.cache.value then s' == s1 && ok
      else PersistedTo(s1.(cache := Some(s1.cache.value + {k})), s', w) && ok == w.Written?
  }

  class IdempotencyStore {
    const namespace: string
    var cache: Option<set<string>>
    var configMap: Option<Raw>

    function View(): Store
      reads this
    {
      Store(namespace, cache, configMap)
    }

    constructor (namespace: string, configMap: Option<Raw>)
      ensures View() == Store(namespace, None, configMap)
    {
      this.namespace, this.configMap, cache := namespace, configMap, None;
    }

    method EnsureLoaded(getOk: bool) returns (ok: bool)
      modifies this
      ensures (View(), ok) == Loaded(old(View()), getOk)
    {
      if cache.Some? {
        return true;
      }
      if namespace == "" || !getOk {
        return false;
      }
      if configMap.None? {
        cache := Some({});
        return true;
      }
      var raw := configMap.value;
      if raw.Garbled? {
        return false;
      }
      var keys := if raw.Keys? then raw.list else [];
      var loaded: set<string> := {};
      for i := 0 to |keys|
        invariant loaded == LoadKeys(keys[..i]) && View() == old(View())
      {
        var trimmed := Trim(keys[i]);
        LoadSnoc(keys[..i], keys[i]);
        assert keys[..i + 1] == keys[..i] + [keys[i]];
        if trimmed != "" {
          loaded := loaded + {trimmed};
        }
      }
      assert keys[..|keys|] == keys && LoadKeys([]) == {};
      cache := Some(loaded);
      ok := true;
    }

    method Contains(key: string, getOk: bool) returns (seen: Option<bool>)
      modifies this
      ensures (View(), seen) == Checked(old(View()), key, getOk)
    {
      var k := Trim(key);
      if k == "" {
        return Some(false);
      }
      var ok := EnsureLoaded(getOk);
      if !ok {
        return None;
      }
      seen := Some(cache.Some? && k in cache.value);
    }

    method Persist(w: Write)
      requires cache.Some?
      modifies this
      ensures PersistedTo(old(View()), View(), w)
    {
      var keys: seq<string> := [];
      var left := cache.value;
      while left != {}
        invariant left <= cache.value
        invariant Lists(keys, cache.value - left)
        decreases left
      {
        var k :| k in left;
        keys := keys + [k];
        left := left - {k};
      }
      assert cache.value - {} == cache.value;
      if !w.Failed? {
        configMap := Some(Keys(keys));
      }
    }

    method Record(key: string, getOk: bool, w: Write) returns (ok: bool)
      modifies this
      ensures Recorded(old(View()), key, getOk, w, View(), ok)
    {
      var k := Trim(key);
      if k == "" {
        return true;
      }
      ok := EnsureLoaded(getOk);
      if !ok || cache.None? {
        return false;
      }
      if k in cache.value {
        return true;
      }
      cache := Some(cache.value + {k});
      Persist(w);
      ok := w.Written?;
    }
  }

  lemma LoadSnoc(list: seq<string>, key: string)
    ensures LoadKeys(list + [key]) == if Trim(key) == "" then LoadKeys(list) else LoadKeys(list) + {Trim(key)}
  {
    hide Trim;
    var all := list + [key];
    forall k
      ensures k in LoadKeys(all) <==> k in LoadKeys(list) || (Trim(key) != "" && k == Trim(key))
    {
      if k in LoadKeys(list) {
        var i :| 0 <= i < |list| && Trim(list[i]) != "" && Trim(list[i]) == k;
        assert all[i] == list[i];
      }
      if Trim(key) != "" && k == Trim(key) {
        assert all[|list|] == key;
      }
    }
  }

  // ---------- What a load gives back ----------

  /** Every key of the cache came through Trim and is not blank. */
  predicate Clean(keys: set<string>) {
    forall k :: k in keys ==> k != "" && Tight(k)
  }

  /** Whatever order the keys were written in, loading them gives the same set back. */
  lemma LoadRestores(list: seq<string>, keys: set<string>)
    requires Clean(keys) && Lists(list, keys)
    ensures LoadKeys(list) == keys
  {
    hide Trim, Tight;
    forall i | 0 <= i < |list|
      ensures Trim(list[i]) == list[i] && list[i] in keys && list[i] != ""
    {
      TrimTight(list[i]);
      assert list[i] in list && list[i] in keys;
    }
    forall k | k in keys
      ensures k in LoadKeys(list)
    {
      var i :| 0 <= i < |list| && list[i] == k;
      assert Trim(list[i]) == k;
    }
  }

  lemma LoadClean(list: seq<string>)
    ensures Clean(LoadKeys(list))
  {
    hide Trim, Tight;
    forall k | k in LoadKeys(list)
      ensures k != "" && Tight(k)
    {
      var i :| 0 <= i < |list| && Trim(list[i]) != "" && Trim(list[i]) == k;
      TrimTight(list[i]);
    }
  }

  /** The cache never knows less than the ConfigMap, and holds only trimmed keys. */
  ghost predicate Sound(s: Store) {
    s.cache.Some? ==> Clean(s.cache.value) && Persisted(s) <= s.cache.value
  }

  lemma LoadSound(s: Store, getOk: bool)
    requires Sound(s)
    ensures var (s', ok) := Loaded(s, getOk);
      Sound(s') && Persisted(s') == Persisted(s) && s'.configMap == s.configMap && (ok ==> s'.cache.Some?)
      && (s.cache.None? && ok ==> s'.cache.value == Persisted(s))
  {
    if s.configMap.Some? && s.configMap.value.Keys? { LoadClean(s.configMap.value.list); }
  }

  /** Recording keeps the cache sound and forgets no persisted key; when it reports success for a
      key that was not cached, the key is persisted and the ConfigMap equals the cache. */
  lemma RecordSound(s: Store, key: string, getOk: bool, w: Write, s': Store, ok: bool)
    requires Sound(s) && Recorded(s, key, getOk, w, s', ok)
    ensures Sound(s') && Persisted(s) <= Persisted(s')
    ensures var k := Trim(key);
      k != "" && ok && (s.cache.Some? ==> k !in s.cache.value) && k !in Persisted(s) ==>
        s'.cache.Some? && Persisted(s') == s'.cache.value && k in Persisted(s')
  {
    hide Trim, Tight, LoadKeys;
    var k := Trim(key);
    LoadSound(s, getOk);
    var (s1, loaded) := Loaded(s, getOk);
    if k != "" && loaded && s1.cache.Some? && k !in s1.cache.value {
      TrimTight(key);
      assert Clean(s1.cache.value + {k});
      if !w.Failed? { LoadRestores(s'.configMap.value.list, s1.cache.value + {k}); }
    }
  }
}
