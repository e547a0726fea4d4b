/** Facts about sequence concatenation that the proofs cite as hints. */
module SeqFacts {

  /** Concatenation regroups freely. */
  lemma ConcatAssoc<T>(a: seq<T>, b: seq<T>, c: seq<T>)
    ensures (a + b) + c == a + (b + c)
  {
  }

  /** A sequence built by putting one element in front starts with it and continues with the rest. */
  lemma DropFirst<T>(c: T, x: seq<T>)
    ensures ([c] + x)[0] == c && ([c] + x)[1..] == x
  {
  }
}
