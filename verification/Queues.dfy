/** Facts about duplicate-free sequences, the shape of every queue of inode and volume indices. */
module Queues {

  ghost predicate NoDup<T>(q: seq<T>) {
    forall a, b | 0 <= a < b < |q| :: q[a] != q[b]
  }

  lemma PushFacts<T>(q: seq<T>, x: T)
    ensures NoDup(q) && x !in q ==> NoDup(q + [x])
    ensures forall y :: y in q + [x] <==> y in q || y == x
  {
  }

  lemma PopFacts<T>(q: seq<T>)
    requires NoDup(q) && q != []
    ensures NoDup(q[1..]) && q[0] !in q[1..]
    ensures forall y :: y in q <==> y in q[1..] || y == q[0]
  {
    assert q == [q[0]] + q[1..];
  }

  /** n distinct numbers below n are all the numbers below n. */
  lemma {:induction false} Pigeonhole(q: seq<nat>, n: nat)
    requires |q| == n && NoDup(q) && forall x | x in q :: x < n
    ensures forall x: nat | x < n :: x in q
  {
    if n > 0 {
      if n - 1 in q {
        var j :| 0 <= j < n && q[j] == n - 1;
        var rest := q[..j] + q[j + 1..];
        forall x | x in rest ensures x < n - 1 && x in q {
          var a :| 0 <= a < |rest| && rest[a] == x;
          var c := if a < j then a else a + 1;
          assert rest[a] == q[c] && q[c] in q && q[c] != q[j];
        }
        assert NoDup(rest) by {
          forall a, b | 0 <= a < b < |rest| ensures rest[a] != rest[b] {
            assert rest[a] == q[if a < j then a else a + 1] && rest[b] == q[if b < j then b else b + 1];
          }
        }
        Pigeonhole(rest, n - 1);
        forall x: nat | x < n ensures x in q {
          if x < n - 1 { assert x in rest; }
        }
      } else {
        var rest, last := q[..n - 1], q[n - 1];
        forall x | x in rest ensures x < n - 1 { assert x in q; }
        assert last in q;
        assert last < n - 1 && last !in rest;
        Pigeonhole(rest, n - 1);
        assert false;
      }
    }
  }
}
