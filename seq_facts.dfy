/** Small facts about sequence concatenation and slicing that the inductive proofs use. */
module SeqFacts {

  lemma ConsAppend<T>(h: T, p: seq<T>, q: seq<T>)
    ensures [h] + (p + q) == ([h] + p) + q
  {
  }

  lemma AppendAssoc<T>(p: seq<T>, q: seq<T>, s: seq<T>)
    ensures (p + q) + s == p + (q + s)
  {
  }

  lemma TakeDrop<T>(s: seq<T>, k: nat)
    requires k <= |s|
    ensures s[..k] + s[k..] == s
  {
  }
}
