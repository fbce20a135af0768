/**
 * The in-memory key/value cache the server keeps for the whole process.
 * Every entry remembers when it was stored; it is served only while younger
 * than the standard time-to-live the server configures.
 */
module Cache {
  import opened Common

  /** The standard time-to-live, in seconds: 24 hours. */
  const StdTTL: int := 86400

  datatype Entry<V> = Entry(value: V, storedAt: int)

  /**
   * The expiry rule, an assumption about the cache library: an entry is
   * alive while its age is below the time-to-live.
   */
  predicate Live<V>(e: Entry<V>, now: int) {
    now - e.storedAt < StdTTL
  }

  /** What a read of `key` at time `now` yields. */
  function Lookup<V>(entries: map<string, Entry<V>>, key: string, now: int): Option<V> {
    if key in entries && Live(entries[key], now) then Some(entries[key].value) else None
  }

  /** A value just stored is read back unchanged until its time-to-live runs out. */
  lemma LookupAfterStore<V>(entries: map<string, Entry<V>>, key: string, v: V, storedAt: int, now: int)
    ensures Lookup(entries[key := Entry(v, storedAt)], key, now)
         == if now - storedAt < StdTTL then Some(v) else None
  {
  }

  /** Storing under one key does not change what any other key reads. */
  lemma StoreLeavesOtherKeys<V>(entries: map<string, Entry<V>>, key: string, e: Entry<V>, other: string, now: int)
    requires other != key
    ensures Lookup(entries[key := e], other, now) == Lookup(entries, other, now)
  {
  }

  class NodeCache<V> {
    var entries: map<string, Entry<V>>

    constructor ()
      ensures entries == map[]
    {
      entries := map[];
    }

    /** The stored value of `key` if it is still alive. */
    method Get(key: string, now: int) returns (value: Option<V>)
      ensures value.Some? <==> key in entries && Live(entries[key], now)
      ensures value.Some? ==> value.value == entries[key].value
      ensures value == Lookup(entries, key, now)
    {
      if key in entries && now - entries[key].storedAt < StdTTL {
        value := Some(entries[key].value);
      } else {
        value := None;
      }
    }

    /** Stores `value` under `key` with the standard time-to-live, replacing any old entry. */
    method Set(key: string, value: V, now: int)
      modifies this
      ensures entries == old(entries)[key := Entry(value, now)]
    {
      entries := entries[key := Entry(value, now)];
    }

    /** Empties the cache unconditionally. */
    method FlushAll()
      modifies this
      ensures entries == map[]
    {
      entries := map[];
    }

    /** Every stored key, each once. */
    method Keys() returns (keys: seq<string>)
      ensures forall k :: k in keys <==> k in entries
      ensures forall i, j :: 0 <= i < j < |keys| ==> keys[i] != keys[j]
    {
      keys := [];
      var rest := entries.Keys;
      while rest != {}
        invariant rest <= entries.Keys
        invariant forall k :: k in keys ==> k in entries && k !in rest
        invariant forall k :: k in entries ==> k in keys || k in rest
        invariant forall i, j :: 0 <= i < j < |keys| ==> keys[i] != keys[j]
        decreases rest
      {
        var k :| k in rest;
        keys := keys + [k];
        rest := rest - {k};
      }
    }
  }
}
