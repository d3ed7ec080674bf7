/** Subsequences: what is left of a sequence after leaving elements out. */
module Subsequences {

  predicate Subsequence<T(==)>(a: seq<T>, b: seq<T>)
    decreases |b|
  {
    || a == []
    || (b != [] && a[|a| - 1] == b[|b| - 1] && Subsequence(a[..|a| - 1], b[..|b| - 1]))
    || (b != [] && Subsequence(a, b[..|b| - 1]))
  }

  lemma {:induction false} AppendBoth<T>(a: seq<T>, b: seq<T>, x: T)
    requires Subsequence(a, b)
    ensures Subsequence(a + [x], b + [x])
  {
    assert (a + [x])[..|a|] == a && (b + [x])[..|b|] == b;
  }

  lemma {:induction false} LeaveOutLast<T>(a: seq<T>, b: seq<T>)
    requires Subsequence(a, b) && a != []
    ensures Subsequence(a[..|a| - 1], b)
    decreases |b|
  {
    if !(a[|a| - 1] == b[|b| - 1] && Subsequence(a[..|a| - 1], b[..|b| - 1])) {
      LeaveOutLast(a, b[..|b| - 1]);
    }
  }

  lemma {:induction false} LeaveOut<T>(a: seq<T>, x: T, c: seq<T>, b: seq<T>)
    requires Subsequence(a + [x] + c, b)
    ensures Subsequence(a + c, b)
    decreases |b|
  {
    var all := a + [x] + c;
    if c == [] {
      LeaveOutLast(all, b);
      assert all[..|all| - 1] == a + c;
    } else {
      var front := c[..|c| - 1];
      assert all[..|all| - 1] == a + [x] + front;
      assert (a + c)[..|a + c| - 1] == a + front;
      if all[|all| - 1] == b[|b| - 1] && Subsequence(all[..|all| - 1], b[..|b| - 1]) {
        LeaveOut(a, x, front, b[..|b| - 1]);
      } else {
        LeaveOut(a, x, c, b[..|b| - 1]);
      }
    }
  }

  lemma {:induction false} LeaveOutTail<T>(a: seq<T>, c: seq<T>, b: seq<T>)
    requires Subsequence(a + c, b)
    ensures Subsequence(a, b)
    decreases |c|
  {
    if c == [] {
      assert a + c == a;
    } else {
      LeaveOutLast(a + c, b);
      assert (a + c)[..|a + c| - 1] == a + c[..|c| - 1];
      LeaveOutTail(a, c[..|c| - 1], b);
    }
  }
}
