/** Optional values: JavaScript's `undefined` / "not found" results. */
module Wrappers {

  datatype Option<+T> = None | Some(value: T) {
    function GetOr(default: T): T {
      match this
      case Some(v) => v
      case None => default
    }
  }

  /** `m[k] ?? d` on a record keyed by strings. */
  function Lookup<K, V>(m: map<K, V>, k: K, d: V): V {
    if k in m then m[k] else d
  }
}
