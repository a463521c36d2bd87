/**
  The persistent key-value store behind the shop (`DB` in App.jsx, a thin layer over the
  browser's local storage with JSON encoding). The store is a map from key to entry; a key
  that was never written is simply absent. Encoding and decoding are abstracted away: a
  value written is the value read back, and text that does not decode is an entry of its own.
*/
module Storage {

  /** What a key holds: an encoded value, or text that does not decode (written by someone else). */
  datatype Entry<V> = Corrupt | Stored(value: V)

  type Db<V> = map<string, Entry<V>>

  /** `DB.get(key, fallback)`: the decoded value, or the fallback when the key is absent or does not decode. */
  function Get<V>(db: Db<V>, key: string, fallback: V): V {
    if key in db && db[key].Stored? then db[key].value else fallback
  }

  /** `DB.set(key, val)`: encodes `val` under `key`, replacing whatever was there. */
  function Set<V>(db: Db<V>, key: string, val: V): Db<V> {
    db[key := Stored(val)]
  }

  lemma GetAbsent<V>(db: Db<V>, key: string, fallback: V)
    requires key !in db
    ensures Get(db, key, fallback) == fallback
  {
  }

  lemma GetCorrupt<V>(db: Db<V>, key: string, fallback: V)
    requires key in db && db[key] == Corrupt
    ensures Get(db, key, fallback) == fallback
  {
  }

  /** Reading a key right after writing it gives back exactly the value written. */
  lemma GetAfterSet<V>(db: Db<V>, key: string, val: V, fallback: V)
    ensures Get(Set(db, key, val), key, fallback) == val
  {
  }

  /** Writing one key leaves what every other key reads unchanged. */
  lemma GetAfterSetOther<V>(db: Db<V>, key: string, other: string, val: V, fallback: V)
    requires other != key
    ensures Get(Set(db, key, val), other, fallback) == Get(db, other, fallback)
  {
  }

  /** Writing the same key twice keeps only the last write. */
  lemma SetSetSameKey<V>(db: Db<V>, key: string, first: V, second: V)
    ensures Set(Set(db, key, first), key, second) == Set(db, key, second)
  {
  }
}
