/**
  The bounded working copy in front of the native store: an insertion-ordered map used as
  an LRU list, with a version stamp for every record written since it was cached.
 */
module RecordCache {
  import opened Prelude
  import opened WriteQueue

  const MAX_REMOTE_CACHE_ENTRIES: nat := 128

  /** A cached null is a removed record. */
  datatype Entry = Entry(key: Key, value: Option<string>)

  datatype Cache = Cache(entries: seq<Entry>, versions: map<Key, nat>)

  function Without(entries: seq<Entry>, key: Key): (r: seq<Entry>)
    ensures |r| <= |entries|
    ensures forall e :: e in r <==> e in entries && e.key != key
  {
    if entries == [] then []
    else if entries[0].key == key then Without(entries[1..], key)
    else [entries[0]] + Without(entries[1..], key)
  }

  ghost predicate Has(entries: seq<Entry>, key: Key) {
    exists e :: e in entries && e.key == key
  }

  function Lookup(entries: seq<Entry>, key: Key): (r: Option<Option<string>>)
    ensures r.Some? <==> Has(entries, key)
    ensures r.Some? ==> Entry(key, r.value) in entries
  {
    if entries == [] then None
    else if entries[0].key == key then Some(entries[0].value)
    else Lookup(entries[1..], key)
  }

  /** Evict from the oldest end until the bound holds. */
  function Trim(c: Cache): Cache
    decreases |c.entries|
  {
    if |c.entries| <= MAX_REMOTE_CACHE_ENTRIES then c
    else Trim(Cache(c.entries[1..], c.versions - {c.entries[0].key}))
  }

  function Put(c: Cache, key: Key, value: Option<string>): Cache {
    Trim(Cache(Without(c.entries, key) + [Entry(key, value)], c.versions))
  }

  /** A local write or removal also raises the version. */
  function Stamp(c: Cache, key: Key): Cache {
    c.(versions := c.versions[key := (if key in c.versions then c.versions[key] else 0) + 1])
  }

  // ---- the invariant ------------------------------------------------------------------

  ghost predicate Distinct(entries: seq<Entry>) {
    forall i, j :: 0 <= i < j < |entries| ==> entries[i].key != entries[j].key
  }

  /** Bounded, one entry a key, and stamps only for cached keys. */
  ghost predicate Bounded(c: Cache) {
    && Distinct(c.entries) && |c.entries| <= MAX_REMOTE_CACHE_ENTRIES
    && forall k :: k in c.versions ==> Has(c.entries, k) && c.versions[k] >= 1
  }

  lemma {:induction false} DistinctWithout(entries: seq<Entry>, key: Key)
    requires Distinct(entries)
    ensures Distinct(Without(entries, key))
    ensures Has(entries, key) ==> |Without(entries, key)| < |entries|
  {
    if entries != [] {
      DistinctWithout(entries[1..], key);
      var r := Without(entries[1..], key);
      forall i | 0 <= i < |r| ensures r[i].key != entries[0].key {
        assert r[i] in entries[1..];
      }
      if Has(entries, key) && entries[0].key != key {
        var e :| e in entries && e.key == key;
        assert e in entries[1..];
      }
    }
  }

  lemma LookupUnique(entries: seq<Entry>, e: Entry)
    requires Distinct(entries) && e in entries
    ensures Lookup(entries, e.key) == Some(e.value)
  {
    var i :| 0 <= i < |entries| && entries[i] == e;
    var v := Lookup(entries, e.key).value;
    var j :| 0 <= j < |entries| && entries[j] == Entry(e.key, v);
  }

  /** What Put does: the new value last, and at most the oldest other record gone. */
  lemma PutShape(c: Cache, key: Key, value: Option<string>)
    requires Distinct(c.entries) && |c.entries| <= MAX_REMOTE_CACHE_ENTRIES
    ensures if |c.entries| == MAX_REMOTE_CACHE_ENTRIES && !Has(c.entries, key)
            then Put(c, key, value) == Cache(c.entries[1..] + [Entry(key, value)], c.versions - {c.entries[0].key})
            else Put(c, key, value) == Cache(Without(c.entries, key) + [Entry(key, value)], c.versions)
  {
    DistinctWithout(c.entries, key);
    var full := Without(c.entries, key) + [Entry(key, value)];
    if |c.entries| == MAX_REMOTE_CACHE_ENTRIES && !Has(c.entries, key) {
      WithoutAbsent(c.entries, key);
      assert full[1..] == c.entries[1..] + [Entry(key, value)];
      var d := Cache(full[1..], c.versions - {c.entries[0].key});
      assert Trim(Cache(full, c.versions)) == Trim(d) == d;
    }
  }

  /** Put stores the value, forgets at most the oldest other record, and touches no other. */
  lemma PutFacts(c: Cache, key: Key, value: Option<string>)
    requires Distinct(c.entries) && |c.entries| <= MAX_REMOTE_CACHE_ENTRIES
    requires forall k :: k in c.versions ==> c.versions[k] >= 1 && (k == key || Has(c.entries, k))
    ensures var d := Put(c, key, value);
            && Bounded(d)
            && Lookup(d.entries, key) == Some(value)
            && (forall k :: k != key && Has(d.entries, k) ==> Lookup(d.entries, k) == Lookup(c.entries, k))
            && (forall k :: k in d.versions ==> k in c.versions && d.versions[k] == c.versions[k])
            && (forall k :: k in c.versions && (k == key || Has(d.entries, k)) ==> k in d.versions)
            && (forall k :: k != key && Has(c.entries, k) && !Has(d.entries, k) ==>
                  |c.entries| == MAX_REMOTE_CACHE_ENTRIES && !Has(c.entries, key) && c.entries[0].key == k)
  {
    PutShape(c, key, value);
    if |c.entries| == MAX_REMOTE_CACHE_ENTRIES && !Has(c.entries, key) {
      EvictingPut(c, key, value);
    } else {
      PlainPut(c, key, value);
    }
  }

  lemma PlainPut(c: Cache, key: Key, value: Option<string>)
    requires Distinct(c.entries)
    ensures var rest := Without(c.entries, key) + [Entry(key, value)];
            && Distinct(rest) && Lookup(rest, key) == Some(value)
            && (forall k :: k != key && Has(rest, k) ==> Lookup(rest, k) == Lookup(c.entries, k))
            && (forall k :: Has(c.entries, k) ==> Has(rest, k))
            && |rest| == |Without(c.entries, key)| + 1
            && (Has(c.entries, key) ==> |rest| <= |c.entries|)
  {
    var rest := Without(c.entries, key) + [Entry(key, value)];
    DistinctWithout(c.entries, key);
    assert rest[|rest| - 1] == Entry(key, value);
    PutKeeps(c, key, value, rest);
    forall k | k != key && Has(c.entries, k) ensures Has(rest, k) {
      var e :| e in c.entries && e.key == k;
      assert e in Without(c.entries, key);
    }
  }

  lemma EvictingPut(c: Cache, key: Key, value: Option<string>)
    requires Distinct(c.entries) && |c.entries| == MAX_REMOTE_CACHE_ENTRIES && !Has(c.entries, key)
    requires forall k :: k in c.versions ==> k == key || Has(c.entries, k)
    ensures var rest := c.entries[1..] + [Entry(key, value)];
            && Distinct(rest) && Lookup(rest, key) == Some(value)
            && !Has(rest, c.entries[0].key) && c.entries[0].key != key
            && (forall k :: k != key && Has(rest, k) ==> Lookup(rest, k) == Lookup(c.entries, k))
            && (forall k :: k in c.versions && k != c.entries[0].key ==> Has(rest, k))
            && (forall k :: Has(c.entries, k) && !Has(rest, k) ==> k == c.entries[0].key)
  {
    var rest := c.entries[1..] + [Entry(key, value)];
    assert rest[|rest| - 1] == Entry(key, value);
    forall e | e in c.entries ensures e.key != key {
      assert Has(c.entries, e.key);
    }
    assert c.entries[0] in c.entries;
    PutKeeps(c, key, value, rest);
    forall k | k != c.entries[0].key && Has(c.entries, k) ensures Has(rest, k) {
      var e :| e in c.entries && e.key == k;
      var i :| 0 <= i < |c.entries| && c.entries[i] == e;
      assert rest[i - 1] == e;
    }
  }

  lemma {:induction false} WithoutAbsent(entries: seq<Entry>, key: Key)
    requires !Has(entries, key)
    ensures Without(entries, key) == entries
  {
    if entries != [] {
      forall e | e in entries[1..] ensures e.key != key {
        assert e in entries;
      }
      WithoutAbsent(entries[1..], key);
      assert entries[0] in entries;
    }
  }

  lemma PutKeeps(c: Cache, key: Key, value: Option<string>, rest: seq<Entry>)
    requires Distinct(c.entries) && Distinct(rest)
    requires forall e :: e in rest ==> e == Entry(key, value) || (e in c.entries && e.key != key)
    requires Entry(key, value) in rest
    ensures Lookup(rest, key) == Some(value)
    ensures forall k :: k != key && Has(rest, k) ==> Lookup(rest, k) == Lookup(c.entries, k)
  {
    LookupUnique(rest, Entry(key, value));
    forall k | k != key && Has(rest, k) ensures Lookup(rest, k) == Lookup(c.entries, k) {
      var e :| e in rest && e.key == k;
      LookupUnique(rest, e);
      LookupUnique(c.entries, e);
    }
  }
}
