/** The shared configuration store: a string-to-string record with set,
    get and a whole-record copy. The module-level instance is one value
    threaded through the calls. */
module ConfigManager {
  import opened Wrappers

  type Config = map<string, string>

  const Initial: Config := map[]

  /** `setConfig`: binds or overwrites one key. */
  function SetConfig(c: Config, key: string, value: string): (r: Config)
    ensures r.Keys == c.Keys + {key}
    ensures r[key] == value
    ensures forall k :: k in c && k != key ==> r[k] == c[k]
  {
    c[key := value]
  }

  /** `getConfig`: the bound value, or nothing for a key never set. */
  function GetConfig(c: Config, key: string): (r: Option<string>)
    ensures r.Some? <==> key in c
    ensures r.Some? ==> r.value == c[key]
  {
    if key in c then Some(c[key]) else None
  }

  /** `getAllConfig`: a copy of the record; as values are immutable here,
      changing the copy can never change the store. */
  function GetAllConfig(c: Config): (r: Config)
    ensures forall k :: GetConfig(r, k) == GetConfig(c, k)
  {
    c
  }

  /** Reading a key right after setting it gives the value set, and other
      keys read as before. */
  lemma GetAfterSet(c: Config, key: string, value: string, other: string)
    ensures GetConfig(SetConfig(c, key, value), key) == Some(value)
    ensures other != key ==> GetConfig(SetConfig(c, key, value), other) == GetConfig(c, other)
  {
  }

  /** The last write wins. */
  lemma OverwriteWins(c: Config, key: string, v1: string, v2: string)
    ensures SetConfig(SetConfig(c, key, v1), key, v2) == SetConfig(c, key, v2)
  {
  }

  /** Writes to different keys commute. */
  lemma DistinctWritesCommute(c: Config, k1: string, v1: string, k2: string, v2: string)
    requires k1 != k2
    ensures SetConfig(SetConfig(c, k1, v1), k2, v2) == SetConfig(SetConfig(c, k2, v2), k1, v1)
  {
  }
}
