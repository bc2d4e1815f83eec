/** Islands are grown in batches of one for each continent. */
module Batches {
  import opened Hex
  import opened Grid
  import opened Land
  import opened Sums

  /** All islands of the i-th batch have the given size. */
  ghost predicate BatchSize(islands: seq<seq<Pos>>, nc: nat, i: nat, size: int) {
    forall k :: Rows(nc, i) <= k < Rows(nc, i + 1) && k < |islands| ==> |islands[k]| == size
  }

  /** The batches grown so far have these sizes, each between 1 and twice the average; together they
      are all the island sectors there are. */
  ghost predicate BatchesAre(islands: seq<seq<Pos>>, nc: nat, average: nat, batch: seq<int>) {
    Rows(nc, |batch|) <= |islands|
    && (forall i :: 0 <= i < |batch| ==> 1 <= batch[i] <= 2 * average && BatchSize(islands, nc, i, batch[i]))
    && (forall k :: Rows(nc, |batch|) <= k < |islands| ==> islands[k] == [])
    && Sum(batch) >= 0 && SectorCount(islands[..Rows(nc, |batch|)]) == Rows(nc, Sum(batch))
  }

  lemma {:induction false} NoBatches(islands: seq<seq<Pos>>, nc: nat, average: nat)
    requires forall k :: 0 <= k < |islands| ==> islands[k] == []
    ensures BatchesAre(islands, nc, average, [])
  {
    assert islands[..0] == [];
  }

  lemma {:induction false} RowsNext(width: nat, n: nat)
    ensures Rows(width, n + 1) == Rows(width, n) + width
  {}

  /** One more batch of nc islands of the same size. */
  lemma {:induction false} NextBatch(before: seq<seq<Pos>>, after: seq<seq<Pos>>, nc: nat, average: nat,
                                     batch: seq<int>, secs: nat)
    requires BatchesAre(before, nc, average, batch) && |after| == |before| && 1 <= secs <= 2 * average
    requires var c := Rows(nc, |batch|);
             c + nc <= |after| && after[..c] == before[..c] && after[c + nc..] == before[c + nc..]
             && forall k :: c <= k < c + nc ==> |after[k]| == secs
    ensures BatchesAre(after, nc, average, batch + [secs])
  {
    hide Sum, SectorCount, BatchSize, Rows;
    var c := Rows(nc, |batch|);
    var batch' := batch + [secs];
    RowsNext(nc, |batch|);
    SumNext(batch, secs);
    NextBatchCount(before, after, nc, Sum(batch), secs, c);
    forall i | 0 <= i < |batch'|
      ensures 1 <= batch'[i] <= 2 * average && BatchSize(after, nc, i, batch'[i])
    {
      if i < |batch| {
        EarlierBatch(before, after, nc, average, batch, i);
      } else {
        LastBatch(after, nc, i, secs);
      }
    }
    RestStaysEmpty(before, after, c, nc);
  }

  lemma {:induction false} PrefixKept(before: seq<seq<Pos>>, after: seq<seq<Pos>>, n: nat, c: nat)
    requires n <= c <= |before| && c <= |after| && after[..c] == before[..c]
    ensures after[..n] == before[..n]
  {
    assert after[..n] == after[..c][..n] && before[..n] == before[..c][..n];
  }

  /** In a list of all landmasses, of which the first nc are continents, the islands that follow the
      batches grown so far are empty. */
  lemma {:induction false} RestIsEmpty(lists: seq<seq<Pos>>, nc: nat, average: nat, batch: seq<int>, c: nat)
    requires nc <= |lists| && BatchesAre(lists[nc..], nc, average, batch) && c == nc + Rows(nc, |batch|)
    ensures forall k :: c <= k < |lists| ==> lists[k] == []
  {
    hide Sum, SectorCount, BatchSize, Rows;
    forall k | c <= k < |lists|
      ensures lists[k] == []
    {
      assert lists[k] == lists[nc..][k - nc];
    }
  }

  /** The same in a list of all landmasses. */
  lemma {:induction false} NextBatchAt(before: seq<seq<Pos>>, after: seq<seq<Pos>>, nc: nat, average: nat,
                                       batch: seq<int>, secs: nat, c: nat)
    requires nc <= |before| == |after| && BatchesAre(before[nc..], nc, average, batch) && 1 <= secs <= 2 * average
    requires c == nc + Rows(nc, |batch|) && c + nc <= |after|
    requires after[..c] == before[..c] && after[c + nc..] == before[c + nc..]
    requires forall k :: c <= k < c + nc ==> |after[k]| == secs
    ensures BatchesAre(after[nc..], nc, average, batch + [secs])
  {
    hide BatchesAre, Rows;
    var a, b := after[nc..], before[nc..];
    assert a[..c - nc] == after[..c][nc..] && b[..c - nc] == before[..c][nc..];
    assert a[c..] == after[c + nc..] && b[c..] == before[c + nc..];
    forall k | c - nc <= k < c
      ensures |a[k]| == secs
    {
      assert a[k] == after[k + nc];
    }
    NextBatch(b, a, nc, average, batch, secs);
  }

  lemma {:induction false} EarlierBatch(before: seq<seq<Pos>>, after: seq<seq<Pos>>, nc: nat, average: nat,
                                        batch: seq<int>, i: nat)
    requires BatchesAre(before, nc, average, batch) && |after| == |before| && i < |batch|
    requires var c := Rows(nc, |batch|); after[..c] == before[..c]
    ensures 1 <= batch[i] <= 2 * average && BatchSize(after, nc, i, batch[i])
  {
    hide Sum, SectorCount, Rows;
    assert BatchSize(before, nc, i, batch[i]);
    RowsMono(nc, i + 1, |batch|);
    hide BatchSize;
    SameBatch(before, after, nc, i, batch[i], Rows(nc, |batch|));
  }

  lemma {:induction false} RestStaysEmpty(before: seq<seq<Pos>>, after: seq<seq<Pos>>, c: nat, nc: nat)
    requires c + nc <= |after| == |before| && after[c + nc..] == before[c + nc..]
    requires forall k :: c <= k < |before| ==> before[k] == []
    ensures forall k :: c + nc <= k < |after| ==> after[k] == []
  {
    forall k | c + nc <= k < |after|
      ensures after[k] == []
    {
      assert after[k] == after[c + nc..][k - (c + nc)];
    }
  }

  lemma {:induction false} LastBatch(islands: seq<seq<Pos>>, nc: nat, i: nat, size: int)
    requires Rows(nc, i) + nc <= |islands| && forall k :: Rows(nc, i) <= k < Rows(nc, i) + nc ==> |islands[k]| == size
    ensures BatchSize(islands, nc, i, size)
  {}

  lemma {:induction false} SameBatch(before: seq<seq<Pos>>, after: seq<seq<Pos>>, nc: nat, i: nat, size: int, c: nat)
    requires BatchSize(before, nc, i, size) && Rows(nc, i + 1) <= c <= |before| == |after|
    requires after[..c] == before[..c]
    ensures BatchSize(after, nc, i, size)
  {
    forall k | Rows(nc, i) <= k < Rows(nc, i + 1)
      ensures |after[k]| == size
    {
      assert after[k] == after[..c][k] == before[..c][k];
    }
  }

  lemma {:induction false} NextBatchCount(before: seq<seq<Pos>>, after: seq<seq<Pos>>, nc: nat, done: nat, secs: nat,
                                          c: nat)
    requires |before| == |after| && c + nc <= |after| && after[..c] == before[..c]
    requires SectorCount(before[..c]) == Rows(nc, done)
    requires forall k :: c <= k < c + nc ==> |after[k]| == secs
    ensures SectorCount(after[..c + nc]) == Rows(nc, done + secs)
  {
    var fresh' := after[c..c + nc];
    assert after[..c + nc] == after[..c] + fresh';
    SectorCountConcat(after[..c], fresh');
    SectorCountUniform(fresh', secs);
    RowsCommute(secs, nc);
    RowsAdd(nc, done, secs);
  }

  lemma {:induction false} MulSwap(a: int, b: int, c: int)
    ensures a * (b * c) == b * (a * c)
  {}

  lemma {:induction false} MulAdds(a: int, b: int, c: int)
    ensures a * (b + c) == a * b + c * a
  {}

  /** When the sizes done and the carry add up to `average` for each batch, the islands fall short of
      their target average * ni by the carry for each continent. */
  lemma {:induction false} BatchesAmountTo(islands: seq<seq<Pos>>, nc: nat, average: nat, batch: seq<int>, carry: nat,
                                           n: nat)
    requires BatchesAre(islands, nc, average, batch) && |batch| == n && Rows(nc, n) == |islands|
    requires Sum(batch) + carry == Rows(average, n)
    ensures SectorCount(islands) == average * |islands| - carry * nc
  {
    assert islands[..|islands|] == islands;
    hide Sum, SectorCount, BatchSize, Rows;
    RowsIsProduct(average, n);
    RowsIsProduct(nc, n);
    RowsIsProduct(nc, Sum(batch));
    FallsShort(nc, average, n, Sum(batch), carry);
  }

  lemma {:induction false} FallsShort(nc: int, average: int, n: int, done: int, carry: int)
    requires done + carry == average * n
    ensures nc * done == average * (nc * n) - carry * nc
  {
    MulAdds(nc, done, carry);
    MulSwap(nc, average, n);
  }

  lemma {:induction false} BatchOf(nc: nat, n: nat, k: nat) returns (i: nat)
    requires k < Rows(nc, n)
    ensures i < n && Rows(nc, i) <= k < Rows(nc, i + 1)
  {
    if k >= Rows(nc, n - 1) {
      i := n - 1;
    } else {
      i := BatchOf(nc, n - 1, k);
    }
  }

  /** No island is larger than twice the average. */
  lemma {:induction false} BatchesBound(islands: seq<seq<Pos>>, nc: nat, average: nat, batch: seq<int>, k: nat)
    requires BatchesAre(islands, nc, average, batch) && k < |islands|
    ensures |islands[k]| <= 2 * average
  {
    if k < Rows(nc, |batch|) {
      var i := BatchOf(nc, |batch|, k);
      assert BatchSize(islands, nc, i, batch[i]);
    }
  }
}
