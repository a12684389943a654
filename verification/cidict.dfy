/** `case_insensitive_dict`: the header and query dictionaries every request builder
    works on. Keys are stored lower-cased, so a lookup, an overwrite or a `pop` finds
    an entry whatever the case of the key it was stored under. */
module CaseInsensitive {

  import opened Wrappers
  import Text

  type CIDict<V> = map<string, V>

  /** The key an entry is stored under. */
  function Key(k: string): string {
    Text.Lower(k)
  }

  /** `d.get(k)`. */
  function Get<V>(d: CIDict<V>, k: string): Option<V> {
    if Key(k) in d then Some(d[Key(k)]) else None
  }

  /** `d[k] = v`: `k` now maps to `v` and no key of a different spelling is touched. */
  function Set<V>(d: CIDict<V>, k: string, v: V): (r: CIDict<V>)
    ensures Get(r, k) == Some(v)
    ensures forall k' :: Key(k') != Key(k) ==> Get(r, k') == Get(d, k')
    ensures r.Keys == d.Keys + {Key(k)}
  {
    d[Key(k) := v]
  }

  /** `d.pop(k, default)`: the stored value (or `default`) and the dictionary without `k`. */
  function Pop<V>(d: CIDict<V>, k: string, default: V): (r: (V, CIDict<V>))
    ensures r.0 == Get(d, k).GetOr(default)
    ensures Get(r.1, k) == None
    ensures forall k' :: Key(k') != Key(k) ==> Get(r.1, k') == Get(d, k')
  {
    (Get(d, k).GetOr(default), d - {Key(k)})
  }
}
