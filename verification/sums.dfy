/** Sums over sequences, and sorting. */
module Sums {
  import opened Hex

  function Sum(s: seq<int>): int {
    if s == [] then 0 else Sum(s[..|s| - 1]) + s[|s| - 1]
  }

  lemma {:induction false} SumNext(s: seq<int>, x: int)
    ensures Sum(s + [x]) == Sum(s) + x
  {
    assert (s + [x])[..|s|] == s;
  }

  lemma {:induction false} SumPrefix(s: seq<int>, i: int)
    requires 0 <= i < |s|
    ensures Sum(s[..i + 1]) == Sum(s[..i]) + s[i]
  {
    assert s[..i + 1] == s[..i] + [s[i]];
    SumNext(s[..i], s[i]);
  }

  lemma {:induction false} SumConcat(a: seq<int>, b: seq<int>)
    ensures Sum(a + b) == Sum(a) + Sum(b)
  {
    if b == [] {
      assert a + b == a;
    } else {
      var b' := b[..|b| - 1];
      assert a + b == (a + b') + [b[|b| - 1]];
      SumNext(a + b', b[|b| - 1]);
      SumConcat(a, b');
    }
  }

  lemma {:induction false} SumUpdate(s: seq<int>, i: int, x: int)
    requires 0 <= i < |s|
    ensures Sum(s[i := x]) == Sum(s) - s[i] + x
  {
    var s' := s[i := x];
    assert s == s[..i] + [s[i]] + s[i + 1..];
    assert s' == s[..i] + [x] + s[i + 1..];
    SumConcat(s[..i] + [s[i]], s[i + 1..]);
    SumConcat(s[..i] + [x], s[i + 1..]);
    SumNext(s[..i], s[i]);
    SumNext(s[..i], x);
  }

  lemma {:induction false} RowsAdd(width: nat, a: nat, b: nat)
    ensures Rows(width, a + b) == Rows(width, a) + Rows(width, b)
  {
    if b > 0 {
      RowsAdd(width, a, b - 1);
    }
  }

  lemma {:induction false} RowsMono(width: nat, a: nat, b: nat)
    requires a <= b
    ensures Rows(width, a) <= Rows(width, b)
  {
    if a < b {
      RowsMono(width, a, b - 1);
    }
  }

  lemma {:induction false} SumOfFirst(s: seq<int>)
    requires |s| > 0 && forall i :: 1 <= i < |s| ==> s[i] == 0
    ensures Sum(s) == s[0]
  {
    if |s| > 1 {
      SumOfFirst(s[..|s| - 1]);
    }
  }

  lemma {:induction false} RowsCommute(a: nat, b: nat)
    ensures Rows(a, b) == Rows(b, a)
  {
    if b > 0 {
      RowsCommute(a, b - 1);
      RowsOneWider(b - 1, a);
    } else {
      RowsZero(a);
    }
  }

  lemma {:induction false} RowsZero(n: nat)
    ensures Rows(0, n) == 0
  {
    if n > 0 {
      RowsZero(n - 1);
    }
  }

  lemma {:induction false} RowsOneWider(width: nat, n: nat)
    ensures Rows(width + 1, n) == Rows(width, n) + n
  {
    if n > 0 {
      RowsOneWider(width, n - 1);
    }
  }

  // ---------------------------------------------------------------------------------------------
  // Sorting in descending order
  // ---------------------------------------------------------------------------------------------

  ghost predicate Descending(s: seq<int>) {
    forall i, j :: 0 <= i < j < |s| ==> s[i] >= s[j]
  }

  /** s with x inserted where it keeps the descending order. */
  function InsertDescending(s: seq<int>, x: int): seq<int> {
    if s == [] || s[|s| - 1] >= x then s + [x]
    else InsertDescending(s[..|s| - 1], x) + [s[|s| - 1]]
  }

  lemma {:induction false} InsertKeeps(s: seq<int>, x: int)
    requires Descending(s)
    ensures multiset(InsertDescending(s, x)) == multiset(s + [x]) && Descending(InsertDescending(s, x))
    ensures Sum(InsertDescending(s, x)) == Sum(s) + x && |InsertDescending(s, x)| == |s| + 1
  {
    hide Sum;
    if s == [] || s[|s| - 1] >= x {
      SumNext(s, x);
    } else {
      var rest, last := s[..|s| - 1], s[|s| - 1];
      InsertKeeps(rest, x);
      InsertStep(s, x, rest, last, InsertDescending(rest, x));
    }
  }

  lemma {:induction false} InsertStep(s: seq<int>, x: int, rest: seq<int>, last: int, r: seq<int>)
    requires Descending(s) && s == rest + [last] && last <= x
    requires multiset(r) == multiset(rest + [x]) && Descending(r) && Sum(r) == Sum(rest) + x
    ensures multiset(r + [last]) == multiset(s + [x]) && Descending(r + [last])
    ensures Sum(r + [last]) == Sum(s) + x
  {
    SumNext(r, last);
    SumNext(rest, last);
    hide Sum;
    forall i | 0 <= i < |rest|
      ensures rest[i] >= last
    {
      assert s[i] == rest[i] && s[|rest|] == last;
    }
    AppendLeast(rest, x, r, last);
  }

  lemma {:induction false} AppendLeast(rest: seq<int>, x: int, r: seq<int>, last: int)
    requires Descending(r) && multiset(r) == multiset(rest + [x]) && last <= x
    requires forall i :: 0 <= i < |rest| ==> rest[i] >= last
    ensures Descending(r + [last])
  {
    forall i | 0 <= i < |r|
      ensures r[i] >= last
    {
      assert r[i] in multiset(r);
      assert r[i] in multiset(rest + [x]);
      assert r[i] in rest + [x];
    }
  }

  function SortDescending(s: seq<int>): seq<int> {
    if s == [] then [] else InsertDescending(SortDescending(s[..|s| - 1]), s[|s| - 1])
  }

  /** Sorting permutes: same elements, same sum, in descending order. */
  lemma {:induction false} SortKeeps(s: seq<int>)
    ensures Descending(SortDescending(s)) && multiset(SortDescending(s)) == multiset(s)
    ensures Sum(SortDescending(s)) == Sum(s) && |SortDescending(s)| == |s|
  {
    if s != [] {
      var rest := s[..|s| - 1];
      assert s == rest + [s[|s| - 1]];
      SortKeeps(rest);
      InsertKeeps(SortDescending(rest), s[|s| - 1]);
    }
  }

  lemma {:induction false} SameBounds(s: seq<int>, r: seq<int>, lo: int, hi: int)
    requires multiset(r) == multiset(s) && forall i :: 0 <= i < |s| ==> lo <= s[i] <= hi
    ensures forall i :: 0 <= i < |r| ==> lo <= r[i] <= hi
  {
    forall i | 0 <= i < |r|
      ensures lo <= r[i] <= hi
    {
      assert r[i] in multiset(r);
      assert r[i] in multiset(s);
      assert r[i] in s;
    }
  }

  /** s with every element below lo raised to lo. */
  function AtLeast(s: seq<int>, lo: int): seq<int> {
    seq(|s|, i requires 0 <= i < |s| => if s[i] > lo then s[i] else lo)
  }

  lemma {:induction false} AtLeastIsSame(s: seq<int>, lo: int)
    requires forall i :: 0 <= i < |s| ==> lo <= s[i]
    ensures AtLeast(s, lo) == s
  {}
}
