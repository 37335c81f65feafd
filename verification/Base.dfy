/** What several modules share. */
module Base {
  datatype Option<+T> = None | Some(value: T)

  /** The largest integer a double stands for without loss, with all smaller ones. */
  const MAX_SAFE_INTEGER: nat := 0x1F_FFFF_FFFF_FFFF

  /** The longest delay of a timer, in milliseconds. */
  const MAX_TIMEOUT: nat := 2_147_483_647

  /** A two-generation store rotates once it has shrunk by this factor. */
  const SHRINK_FACTOR := 4

  ghost function ToSet<T>(s: seq<T>): set<T> {
    set x | x in s
  }

  ghost predicate Distinct<T>(s: seq<T>) {
    forall i, j :: 0 <= i < j < |s| ==> s[i] != s[j]
  }
}
