/**
 * Facts about slicing sequences, stated once here so that the proofs about the
 * reader and the run loop can use them without re-deriving them.
 */
module Seqs {

  /** Taking the front of a sequence with one element appended gives the sequence back. */
  lemma TakeSnoc<T>(s: seq<T>, x: T)
    ensures (s + [x])[..|s|] == s
  {
  }

  /** One more element of prefix: the prefix grows by that element. */
  lemma PrefixSnoc<T>(s: seq<T>, i: nat)
    requires i < |s|
    ensures s[..i + 1] == s[..i] + [s[i]]
  {
  }

  /** The prefix one longer, cut back by one, and its last element. */
  lemma PrefixOfPrefix<T>(s: seq<T>, i: nat)
    requires i < |s|
    ensures s[..i + 1][..i] == s[..i] && s[..i + 1][i] == s[i]
  {
  }

  /** A non-empty sequence is its front followed by its last element. */
  lemma FrontLast<T>(s: seq<T>)
    requires s != []
    ensures s[..|s| - 1] + [s[|s| - 1]] == s
  {
  }

  /** The prefix as long as the whole sequence is the sequence. */
  lemma TakeAll<T>(s: seq<T>)
    ensures s[..|s|] == s
  {
  }

  /** Cutting a sequence at `k` and gluing the parts gives it back. */
  lemma CutGlue<T>(s: seq<T>, k: nat)
    requires k <= |s|
    ensures s[..k] + s[k..] == s
  {
  }

  /** The front of an appended pair of sequences, one element short. */
  lemma AppendFront<T>(a: seq<T>, b: seq<T>)
    requires b != []
    ensures (a + b)[..|a + b| - 1] == a + b[..|b| - 1]
  {
  }

  /** Appending after the tail of a non-empty sequence, then putting its head back. */
  lemma HeadTailSnoc<T>(s: seq<T>, x: T)
    requires s != []
    ensures [s[0]] + (s[1..] + [x]) == s + [x]
  {
  }

  /** Appending is associative. */
  lemma AppendAssoc<T>(a: seq<T>, b: seq<T>, c: seq<T>)
    ensures a + (b + c) == (a + b) + c
  {
  }

  /** Appending nothing changes nothing. */
  lemma AppendEmpty<T>(s: seq<T>)
    ensures s + [] == s && [] + s == s
  {
  }

  /** Putting an element in front of a pair. */
  lemma ConsPair<T>(h: T, x: T, y: T)
    ensures [h] + [x, y] == [h, x, y]
  {
  }

  /** Dropping the two elements put in front of a sequence. */
  lemma DropPair<T>(x: T, y: T, s: seq<T>)
    ensures |[x, y] + s| == |s| + 2
    ensures ([x, y] + s)[0] == x && ([x, y] + s)[1] == y
    ensures ([x, y] + s)[2..] == s
  {
  }

  /** Building short sequences one element at a time. */
  lemma Snocs<T>(x: T, y: T, z: T)
    ensures [] + [x] == [x]
    ensures [x] + [y] == [x, y]
    ensures [x, y] + [z] == [x, y, z]
  {
  }
}
