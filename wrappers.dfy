/** Failure-compatible wrappers shared by the model: `Option` stands for a
    nullable reference, `Result` for a call that either returns or throws. */
module Wrappers {

  datatype Option<+T> = None | Some(value: T)

  datatype Result<+T, +E> = Success(value: T) | Failure(error: E)
}

/** Facts about sequence prefixes that loops over a sequence need. */
module Sequences {

  /** The prefix one element longer is the prefix followed by that element. */
  lemma PrefixExtends<T>(s: seq<T>, i: int)
    requires 0 <= i < |s|
    ensures s[..i + 1][..i] == s[..i]
    ensures s[..i + 1] == s[..i] + [s[i]]
    ensures s[..i + 1][i] == s[i]
  {
  }

  lemma HeadTail<T>(s: seq<T>)
    requires s != []
    ensures [s[0]] + s[1..] == s
  {
  }

  lemma WholePrefix<T>(s: seq<T>)
    ensures s[..|s|] == s
  {
  }
}
