/** Sequence identities that the verifier proves at once on their own but
    slowly inside a large method context. They carry no part of the model;
    the hub's proofs and the call sequences call them to keep each proof
    obligation small. */
module SeqFacts {
  lemma ConcatAssoc<T>(a: seq<T>, b: seq<T>, c: seq<T>)
    ensures a + b + c == a + (b + c)
  {
  }

  lemma PrefixGrows<T>(s: seq<T>, i: nat)
    requires i < |s|
    ensures s[..i + 1] == s[..i] + [s[i]]
  {
  }

  /** Appending to a displayed sequence gives the longer display. */
  lemma Single<T>(a: T)
    ensures [] + [a] == [a]
  {
  }

  lemma Pair<T>(a: T, b: T)
    ensures [a] + [b] == [a, b]
  {
  }

  lemma Triple<T>(a: T, b: T, c: T)
    ensures [a, b] + [c] == [a, b, c]
  {
  }

  /** The first element after a prefix. */
  lemma First<T>(p: seq<T>, q: seq<T>)
    requires q != []
    ensures (p + q)[|p|] == q[0]
  {
  }

  /** Two displays of two make a display of four. */
  lemma Quad<T>(a: T, b: T, c: T, d: T)
    ensures [a, b] + [c, d] == [a, b, c, d]
  {
  }

  /** What follows the first two parts of a concatenation of four. */
  lemma Suffix<T>(p: seq<T>, a: seq<T>, b: seq<T>, c: seq<T>)
    ensures (p + a + b + c)[|p| + |a|..] == b + c
  {
  }
}
