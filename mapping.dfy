/**
 * mapping/mapping.go: a key/value container that keeps up to `MaxSlice`
 * entries in a slice, in first-insertion order, and moves them into a map
 * (Go's `m`, here `Some(map)` once allocated) when a `Set` arrives while
 * the slice is full.
 */
module Mappings {
  import opened Wrappers

  /** mapping.go `maxSlice`. */
  const MaxSlice := 10

  /** mapping.go `mappingEntry`. */
  datatype Entry<K, V> = Entry(k: K, v: V)

  /** The keys of a slice of entries, in slice order. */
  function KeysOf<K, V>(s: seq<Entry<K, V>>): (ks: seq<K>)
    ensures |ks| == |s| && forall i :: 0 <= i < |s| ==> ks[i] == s[i].k
  {
    if s == [] then [] else KeysOf(s[..|s| - 1]) + [s[|s| - 1].k]
  }

  /** No key occurs twice in the slice. */
  ghost predicate UniqueKeys<K, V>(s: seq<Entry<K, V>>) {
    forall i, j :: 0 <= i < j < |s| ==> s[i].k != s[j].k
  }

  /** The key/value pairs a slice of entries holds; a later entry wins. */
  function SliceMap<K(==), V>(s: seq<Entry<K, V>>): map<K, V> {
    if s == [] then map[] else SliceMap(s[..|s| - 1])[s[|s| - 1].k := s[|s| - 1].v]
  }

  /** A key has a value exactly when some entry carries it. */
  lemma {:induction false} SliceMapHas<K, V>(s: seq<Entry<K, V>>, k: K)
    ensures k in SliceMap(s) <==> exists i :: 0 <= i < |s| && s[i].k == k
    decreases |s|
  {
    if s != [] {
      var init := s[..|s| - 1];
      SliceMapHas(init, k);
      if k in SliceMap(init) {
        var i :| 0 <= i < |init| && init[i].k == k;
        assert s[i].k == k;
      }
      if exists i :: 0 <= i < |s| && s[i].k == k {
        var i :| 0 <= i < |s| && s[i].k == k;
        if i < |s| - 1 {
          assert init[i].k == k;
        }
      }
    }
  }

  /** With unique keys, the value for an entry's key is that entry's value. */
  lemma {:induction false} SliceMapAt<K, V>(s: seq<Entry<K, V>>, i: nat)
    requires UniqueKeys(s) && i < |s|
    ensures s[i].k in SliceMap(s) && SliceMap(s)[s[i].k] == s[i].v
    decreases |s|
  {
    if i < |s| - 1 {
      SliceMapAt(s[..|s| - 1], i);
    }
  }

  /** Overwriting the entry of a key in place updates just that key. */
  lemma {:induction false} SliceMapUpdate<K, V>(s: seq<Entry<K, V>>, i: nat, v: V)
    requires i < |s|
    requires UniqueKeys(s)
    ensures SliceMap(s[i := Entry(s[i].k, v)]) == SliceMap(s)[s[i].k := v]
    decreases |s|
  {
    var k := s[i].k;
    var s' := s[i := Entry(k, v)];
    var n := |s| - 1;
    var init := s[..n];
    var last := s[n];
    if i == n {
      assert s'[..n] == init;
      assert SliceMap(s') == SliceMap(init)[k := v];
      assert SliceMap(s) == SliceMap(init)[k := last.v];
    } else {
      var init' := init[i := Entry(k, v)];
      assert s'[..n] == init' && s'[n] == last;
      assert UniqueKeys(init);
      SliceMapUpdate(init, i, v);
      assert last.k != k;
      var a := SliceMap(init);
      assert SliceMap(s') == a[k := v][last.k := last.v];
      assert SliceMap(s) == a[last.k := last.v];
      assert a[k := v][last.k := last.v] == a[last.k := last.v][k := v];
    }
  }

  /**
   * Read as a history of `Set` calls from `New`, `SliceMap` is what the
   * container then holds (each `Set` updates one key).  A key holds the
   * value of its most recent `Set`.
   */
  lemma {:induction false} LatestSetWins<K, V>(sets: seq<Entry<K, V>>, i: nat)
    requires i < |sets|
    requires forall j :: i < j < |sets| ==> sets[j].k != sets[i].k
    ensures sets[i].k in SliceMap(sets) && SliceMap(sets)[sets[i].k] == sets[i].v
    decreases |sets|
  {
    if i < |sets| - 1 {
      LatestSetWins(sets[..|sets| - 1], i);
    }
  }

  /** One more `Set` in the history updates one key of the replay. */
  lemma ReplayStep<K, V>(sets: seq<Entry<K, V>>, e: Entry<K, V>)
    ensures SliceMap(sets + [e]) == SliceMap(sets)[e.k := e.v]
  {
    assert (sets + [e])[..|sets|] == sets;
  }

  /** Appending a new key keeps the keys unique and adds that one pair. */
  lemma AppendFresh<K, V>(s: seq<Entry<K, V>>, e: Entry<K, V>)
    requires UniqueKeys(s) && e.k !in SliceMap(s)
    ensures UniqueKeys(s + [e])
    ensures SliceMap(s + [e]) == SliceMap(s)[e.k := e.v]
  {
    SliceMapHas(s, e.k);
    ReplayStep(s, e);
  }

  /** Overwriting an entry's value in place keeps the keys, in order, and updates that one pair. */
  lemma Overwrite<K, V>(s: seq<Entry<K, V>>, i: nat, v: V)
    requires UniqueKeys(s) && i < |s|
    ensures UniqueKeys(s[i := Entry(s[i].k, v)])
    ensures KeysOf(s[i := Entry(s[i].k, v)]) == KeysOf(s)
    ensures SliceMap(s[i := Entry(s[i].k, v)]) == SliceMap(s)[s[i].k := v]
  {
    SliceMapUpdate(s, i, v);
  }

  /** mapping.go:34-40: the position of `k` in the slice, or -1. */
  method IndexOfKey<K(==), V>(s: seq<Entry<K, V>>, k: K) returns (found: int)
    ensures -1 <= found < |s|
    ensures found == -1 <==> k !in SliceMap(s)
    ensures found >= 0 ==> s[found].k == k
  {
    found := -1;
    var i := 0;
    while i < |s|
      invariant 0 <= i <= |s|
      invariant forall j :: 0 <= j < i ==> s[j].k != k
    {
      if s[i].k == k {
        SliceMapHas(s, k);
        return i;
      }
      i := i + 1;
    }
    SliceMapHas(s, k);
  }

  /** mapping.go:50-53: the map the slice's entries are copied into. */
  method Migrate<K(==), V>(s: seq<Entry<K, V>>) returns (mm: map<K, V>)
    ensures mm == SliceMap(s)
  {
    mm := map[];
    var i := 0;
    while i < |s|
      invariant 0 <= i <= |s|
      invariant mm == SliceMap(s[..i])
    {
      assert s[..i + 1][..i] == s[..i];
      mm := mm[s[i].k := s[i].v];
      i := i + 1;
    }
    assert s[..i] == s;
  }

  /** The entries `Each` handed to the callback, and where it stopped: every call but the last returned true, and it ends early only on a false. */
  predicate StoppedAt<K, V>(fn: (K, V) -> bool, visited: seq<Entry<K, V>>, total: nat) {
    |visited| <= total &&
    (forall j :: 0 <= j < |visited| - 1 ==> fn(visited[j].k, visited[j].v)) &&
    (|visited| < total ==> visited != [] && !fn(visited[|visited| - 1].k, visited[|visited| - 1].v))
  }

  /** mapping.go `Mapping`. */
  class Mapping<K(==), V> {
    var s: seq<Entry<K, V>>
    var m: Option<map<K, V>>
    /** The `Set` calls made since `New`, in order. */
    ghost var history: seq<Entry<K, V>>

    /** What the container holds, whichever storage is in use. */
    function Contents(): map<K, V>
      reads this
    {
      if m.Some? then m.value else SliceMap(s)
    }

    /**
     * The slice has unique keys and at most `MaxSlice` entries, and is
     * empty once the map exists; the contents are the replay of `history`.
     */
    ghost predicate Valid()
      reads this
    {
      UniqueKeys(s) && |s| <= MaxSlice && (m.Some? ==> s == []) && Contents() == SliceMap(history)
    }

    /** mapping.go `New`: an empty slice and no map. */
    constructor New()
      ensures s == [] && m == None && history == [] && Contents() == map[] && Valid()
    {
      s := [];
      m := None;
      history := [];
    }

    /**
     * mapping.go `Set`.  Afterwards `k` maps to `v` and every other key is
     * unchanged.  In slice mode below capacity an existing key is
     * overwritten in place and a new one appended; otherwise the entries
     * move into a map, the slice is emptied, and map mode is kept.
     */
    method Set(k: K, v: V)
      requires Valid()
      modifies this
      ensures Valid()
      ensures Contents() == old(Contents())[k := v]
      ensures history == old(history) + [Entry(k, v)]
      ensures old(m).None? && |old(s)| < MaxSlice ==> m.None?
      ensures old(m).None? && |old(s)| < MaxSlice && k in old(Contents()) ==> |s| == |old(s)| && KeysOf(s) == old(KeysOf(s))
      ensures old(m).None? && |old(s)| < MaxSlice && k !in old(Contents()) ==> s == old(s) + [Entry(k, v)]
      ensures old(m).Some? || |old(s)| == MaxSlice ==> m.Some? && s == []
    {
      ReplayStep(history, Entry(k, v));
      history := history + [Entry(k, v)];
      if m.None? && |s| < MaxSlice {
        SetInSlice(k, v);
        return;
      }
      if m.None? {
        var mm := Migrate(s);
        m := Some(mm);
        s := [];
      }
      m := Some(m.value[k := v]);
    }

    /** mapping.go:34-46: overwrite the key's entry in place, or append a new one. */
    method SetInSlice(k: K, v: V)
      requires UniqueKeys(s) && |s| < MaxSlice && m.None?
      modifies this
      ensures UniqueKeys(s) && |s| <= MaxSlice && m.None? && history == old(history)
      ensures SliceMap(s) == old(SliceMap(s))[k := v]
      ensures k in old(SliceMap(s)) ==> |s| == |old(s)| && KeysOf(s) == old(KeysOf(s))
      ensures k !in old(SliceMap(s)) ==> s == old(s) + [Entry(k, v)]
    {
      var found := IndexOfKey(s, k);
      if found <= -1 {
        AppendFresh(s, Entry(k, v));
        s := s + [Entry(k, v)];
        return;
      }
      Overwrite(s, found, v);
      s := s[found := Entry(k, v)];
    }

    /** mapping.go `Get`: the value `k` holds, `None` standing for Go's (zero, false). */
    method Get(k: K) returns (r: Option<V>)
      requires Valid()
      ensures r.Some? <==> k in Contents()
      ensures r.Some? ==> r.value == Contents()[k]
    {
      if m.Some? {
        if k in m.value {
          return Some(m.value[k]);
        }
        return None;
      }
      var i := 0;
      while i < |s|
        invariant 0 <= i <= |s|
        invariant forall j :: 0 <= j < i ==> s[j].k != k
      {
        if s[i].k == k {
          SliceMapAt(s, i);
          return Some(s[i].v);
        }
        i := i + 1;
      }
      SliceMapHas(s, k);
      return None;
    }

    /**
     * mapping.go `Each`: calls `fn` on entries until it returns false.  In
     * slice mode the calls follow the slice; in map mode each key is
     * visited at most once, in an order the model leaves open.
     */
    method Each(fn: (K, V) -> bool) returns (visited: seq<Entry<K, V>>)
      requires Valid()
      ensures StoppedAt(fn, visited, |Contents()|)
      ensures m.None? ==> |visited| <= |s| && visited == s[..|visited|]
      ensures m.Some? ==> UniqueKeys(visited)
      ensures m.Some? ==> forall j :: 0 <= j < |visited| ==> visited[j].k in m.value && visited[j].v == m.value[visited[j].k]
    {
      if m.Some? {
        visited := EachInMap(m.value, fn);
      } else {
        SliceMapCard(s);
        visited := EachInSlice(s, fn);
      }
    }
  }

  /** mapping.go:81-86: the calls `Each` makes in map mode. */
  method EachInMap<K(==), V>(mm: map<K, V>, fn: (K, V) -> bool) returns (visited: seq<Entry<K, V>>)
    ensures StoppedAt(fn, visited, |mm|)
    ensures UniqueKeys(visited)
    ensures forall j :: 0 <= j < |visited| ==> visited[j].k in mm && visited[j].v == mm[visited[j].k]
  {
    visited := [];
    var keys := mm.Keys;
    while keys != {}
      invariant keys <= mm.Keys && |visited| + |keys| == |mm.Keys|
      invariant forall j :: 0 <= j < |visited| ==> fn(visited[j].k, visited[j].v)
      invariant forall j :: 0 <= j < |visited| ==> visited[j].k in mm && visited[j].k !in keys && visited[j].v == mm[visited[j].k]
      invariant UniqueKeys(visited)
      decreases keys
    {
      var k :| k in keys;
      visited := visited + [Entry(k, mm[k])];
      if !fn(k, mm[k]) {
        return;
      }
      keys := keys - {k};
    }
    assert |mm.Keys| == |mm|;
  }

  /** mapping.go:88-92: the calls `Each` makes in slice mode. */
  method EachInSlice<K, V>(s: seq<Entry<K, V>>, fn: (K, V) -> bool) returns (visited: seq<Entry<K, V>>)
    ensures StoppedAt(fn, visited, |s|)
    ensures visited == s[..|visited|]
  {
    visited := [];
    var i := 0;
    while i < |s|
      invariant 0 <= i <= |s| && visited == s[..i]
      invariant forall j :: 0 <= j < i ==> fn(s[j].k, s[j].v)
    {
      visited := visited + [s[i]];
      if !fn(s[i].k, s[i].v) {
        return;
      }
      i := i + 1;
    }
  }

  /** With unique keys, the slice holds as many pairs as entries. */
  lemma {:induction false} SliceMapCard<K, V>(s: seq<Entry<K, V>>)
    requires UniqueKeys(s)
    ensures |SliceMap(s)| == |s|
    decreases |s|
  {
    if s != [] {
      var init := s[..|s| - 1];
      SliceMapCard(init);
      SliceMapHas(init, s[|s| - 1].k);
    }
  }
}
