/** Small shared vocabulary: an optional value, and the two orders the daemon iterates in
    (ascending process ids, and lexicographic rule keys, the order of a Rust BTreeMap). */
module Wrappers {

  datatype Option<+T> = None | Some(value: T) {
    function GetOr(default: T): T {
      match this
      case Some(v) => v
      case None => default
    }
  }

  function Min(a: int, b: int): int { if a <= b then a else b }

  function Max(a: int, b: int): int { if a <= b then b else a }

  /** Instant arithmetic saturates at zero when the second instant is the later one. */
  function Since(now: int, earlier: int): int { Max(now - earlier, 0) }
}
