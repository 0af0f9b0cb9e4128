/** Small facts about sequence concatenation, stated once so that string proofs can cite them. */
module Seqs {

  lemma Associative<T>(a: seq<T>, b: seq<T>, c: seq<T>)
    ensures a + b + c == a + (b + c)
  {
  }

  lemma Ends<T>(a: seq<T>, b: seq<T>)
    ensures a != [] ==> (a + b)[0] == a[0]
    ensures b != [] ==> (a + b)[|a + b| - 1] == b[|b| - 1]
  {
  }

  lemma Parts<T>(a: seq<T>, b: seq<T>)
    ensures (a + b)[..|a|] == a && (a + b)[|a|..] == b
  {
  }

  lemma Behead<T>(a: seq<T>, b: seq<T>)
    requires a != []
    ensures (a + b)[0] == a[0] && (a + b)[1..] == a[1..] + b
  {
  }

  lemma Units<T>(a: seq<T>)
    ensures [] + a == a && a + [] == a
  {
  }
}
