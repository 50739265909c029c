/** What every module may need: optional values, chain names and orderings of sequences. */
module Basics {
  datatype Option<+T> = None | Some(value: T)

  type ChainName = string

  predicate StrictlyAscending(s: seq<int>) {
    forall i, j | 0 <= i < j < |s| :: s[i] < s[j]
  }

  ghost predicate Distinct<K>(s: seq<K>) {
    forall i, j | 0 <= i < j < |s| :: s[i] != s[j]
  }
}
