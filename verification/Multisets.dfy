/** Two facts about multisets the solver does not find by itself in a large context. */
module Multisets {
  lemma {:induction false} Shuffle<T>(a: multiset<T>, b: multiset<T>, x: multiset<T>)
    ensures a + (b + x) == (x + a) + b == (a + x) + b == (a + b) + x
  {
  }

  lemma {:induction false} MultisetSnoc<T>(s: seq<T>, x: T)
    ensures multiset(s + [x]) == multiset(s) + multiset{x}
  {
  }
}
