/** A map whose entries expire: inserted and taken by key, purged by age. */
module PendingMap {
  import opened Types

  datatype Entry<V> = Entry(value: V, createdAt: nat)

  /** `Instant::duration_since`, which is zero for a later instant. */
  function Age(now: nat, createdAt: nat): nat {
    if now >= createdAt then now - createdAt else 0
  }

  /** The entries younger than `ttl`. */
  function Unexpired<V>(entries: map<nat, Entry<V>>, now: nat, ttl: nat): map<nat, Entry<V>> {
    map k | k in entries && Age(now, entries[k].createdAt) < ttl :: entries[k]
  }

  function Expired<V>(entries: map<nat, Entry<V>>, now: nat, ttl: nat): set<nat> {
    set k | k in entries && Age(now, entries[k].createdAt) >= ttl
  }

  lemma PurgeSplits<V>(entries: map<nat, Entry<V>>, now: nat, ttl: nat)
    ensures |entries| == |Unexpired(entries, now, ttl)| + |Expired(entries, now, ttl)|
  {
    var kept := Unexpired(entries, now, ttl);
    assert entries.Keys == kept.Keys + Expired(entries, now, ttl);
    assert |entries| == |entries.Keys| && |kept| == |kept.Keys|;
  }

  class PendingMap<V> {
    var entries: map<nat, Entry<V>>
    const ttl: nat

    constructor (ttl: nat)
      ensures entries == map[] && this.ttl == ttl
    {
      entries := map[];
      this.ttl := ttl;
    }

    method Insert(key: nat, value: V, now: nat)
      modifies this
      ensures entries == old(entries)[key := Entry(value, now)]
    {
      entries := entries[key := Entry(value, now)];
    }

    method Take(key: nat) returns (r: Option<V>)
      modifies this
      ensures entries == old(entries) - {key}
      ensures r == if key in old(entries) then Some(old(entries)[key].value) else None
    {
      if key in entries {
        r := Some(entries[key].value);
        entries := entries - {key};
      } else {
        r := None;
      }
    }

    method Len() returns (n: nat)
      ensures n == |entries|
    {
      n := |entries|;
    }

    method IsEmpty() returns (b: bool)
      ensures b <==> entries == map[]
    {
      b := |entries| == 0;
    }

    /** Removes exactly the entries of age at least `ttl`, and returns their number. */
    method PurgeExpired(now: nat) returns (removed: nat)
      modifies this
      ensures removed == |Expired(old(entries), now, ttl)|
      ensures forall k :: k in entries <==> k in old(entries) && Age(now, old(entries)[k].createdAt) < ttl
      ensures forall k :: k in entries ==> entries[k] == old(entries)[k]
    {
      PurgeSplits(entries, now, ttl);
      var before := |entries|;
      entries := Unexpired(entries, now, ttl);
      removed := before - |entries|;
    }
  }
}
