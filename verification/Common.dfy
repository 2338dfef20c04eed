/** Small shared vocabulary. */
module Common {
  datatype Option<+T> = None | Some(value: T)

  /** The first element satisfying p, scanning from the left. */
  ghost predicate IsFirst<T>(s: seq<T>, p: T -> bool, i: nat) {
    && i < |s|
    && p(s[i])
    && forall k | 0 <= k < i :: !p(s[k])
  }
}
