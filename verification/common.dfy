/** Small shared vocabulary: an optional value, standing in for the agent's
    nilable counters and maps. */
module Common {

  /** `None` plays the part of a nil counter or a nil map. */
  datatype Option<+T> = None | Some(value: T)

  /** The next key of a map walk: any member of the keys not yet visited.
      Map iteration order is unspecified, so nothing more is promised. */
  method NextKey<K>(todo: set<K>) returns (k: K)
    requires todo != {}
    ensures k in todo
  {
    k :| k in todo;
  }

  /** A prefix of a concatenation that lies within its first part. */
  lemma PrefixOfAppend<T>(u: seq<T>, v: seq<T>, i: nat)
    requires i <= |u|
    ensures (u + v)[..i] == u[..i]
  {
  }

  /** A slice of a concatenation that lies within its first part. */
  lemma SliceOfAppend<T>(u: seq<T>, v: seq<T>, i: nat, j: nat)
    requires i <= j <= |u|
    ensures (u + v)[i..j] == u[i..j]
    ensures j == |u| ==> (u + v)[i..j] == u[i..]
  {
  }
}
