/**
 * The weighted selector. It walks the prize table, adding each weight to a
 * running total, and returns the first entry whose running total reaches the
 * random value `r` (the comparison is `r <= total`); when no entry is reached
 * it falls back to the entry at index 0. The random value is a parameter, in
 * the weights' unit (hundredths of a percent), so a uniform `r` in
 * [0, 10000) stands for the kiosk's `Math.random() * 100`.
 */
module Selector {
  import opened Types
  import opened Catalogue

  /** Entry `i` is reached: the running total after it is at least `r`. */
  predicate Reaches(pool: seq<Prize>, r: real, i: nat)
    requires i < |pool|
  {
    r <= Prefix(pool, i + 1) as real
  }

  /** Running totals never go down, because weights are non-negative. */
  lemma {:induction false} PrefixMonotone(pool: seq<Prize>, m: nat, n: nat)
    requires m <= n <= |pool|
    ensures Prefix(pool, m) <= Prefix(pool, n)
  {
    if m < n {
      PrefixMonotone(pool, m, n - 1);
    }
  }

  /** The index the walk settles on when it starts at `k`. */
  function PickFrom(pool: seq<Prize>, r: real, k: nat): (i: nat)
    requires k <= |pool|
    decreases |pool| - k
    ensures |pool| > 0 ==> i < |pool|
    ensures (exists j :: k <= j < |pool| && Reaches(pool, r, j)) ==>
      k <= i && Reaches(pool, r, i) && forall j :: k <= j < i ==> !Reaches(pool, r, j)
    ensures (forall j :: k <= j < |pool| ==> !Reaches(pool, r, j)) ==> i == 0
  {
    if k == |pool| then 0
    else if Reaches(pool, r, k) then k
    else PickFrom(pool, r, k + 1)
  }

  /**
   * The index of the selected entry: the first entry the running total
   * reaches, or 0 when there is none.
   */
  function Pick(pool: seq<Prize>, r: real): (i: nat)
    ensures |pool| > 0 ==> i < |pool|
    ensures (exists j :: 0 <= j < |pool| && Reaches(pool, r, j)) ==>
      Reaches(pool, r, i) && forall j :: 0 <= j < i ==> !Reaches(pool, r, j)
    ensures (forall j :: 0 <= j < |pool| ==> !Reaches(pool, r, j)) ==> i == 0
  {
    PickFrom(pool, r, 0)
  }

  /**
   * `drawPrize`: walks the table with a running total. On an empty table
   * `PRIZE_POOL[0]` is `undefined`, here `None`.
   */
  method DrawPrize(pool: seq<Prize>, r: real) returns (p: Option<Prize>)
    ensures pool == [] <==> p == None
    ensures pool != [] ==> p == Some(pool[Pick(pool, r)])
  {
    var cumulative := 0;
    for i := 0 to |pool|
      invariant cumulative == Prefix(pool, i)
      invariant forall j :: 0 <= j < i ==> !Reaches(pool, r, j)
    {
      cumulative := cumulative + pool[i].weight;
      if r <= cumulative as real {
        assert Reaches(pool, r, i);
        return Some(pool[i]);
      }
    }
    if |pool| == 0 {
      return None;
    }
    return Some(pool[0]);
  }

  /**
   * Entry `i` owns the half-open stretch (C(i-1), C(i)] of the scale, C being
   * the running total, whenever `r` is within the table's total: it is picked
   * exactly when `r` lies in that stretch (for entry 0 the stretch reaches
   * down without bound).
   */
  lemma PickStretch(pool: seq<Prize>, r: real, i: nat)
    requires i < |pool| && r <= WeightSum(pool) as real
    ensures Pick(pool, r) == i <==> (i == 0 || Prefix(pool, i) as real < r) && r <= Prefix(pool, i + 1) as real
  {
    assert Reaches(pool, r, |pool| - 1);
    var p := Pick(pool, r);
    if p == i {
      if i > 0 {
        assert !Reaches(pool, r, i - 1);
      }
    } else if (i == 0 || Prefix(pool, i) as real < r) && r <= Prefix(pool, i + 1) as real {
      assert Reaches(pool, r, i);
      if p < i {
        PrefixMonotone(pool, p + 1, i);
      }
      assert false;
    }
  }

  /** An entry of weight zero after slot 0 is never selected, whatever `r` is. */
  lemma ZeroWeightNeverPicked(pool: seq<Prize>, r: real, i: nat)
    requires 0 < i < |pool| && pool[i].weight == 0
    ensures Pick(pool, r) != i
  {
    if Pick(pool, r) == i {
      assert Prefix(pool, i + 1) == Prefix(pool, i);
      assert Reaches(pool, r, i) ==> Reaches(pool, r, i - 1);
    }
  }

  /** With `r` in [0, 10000) the kiosk's table is always reached, so the fallback never fires. */
  lemma PoolNeverFallsBack(r: real)
    requires 0.0 <= r < FullWeight as real
    ensures Reaches(PrizePool, r, |PrizePool| - 1)
    ensures Pick(PrizePool, r) < |PrizePool|
  {
    PoolWeights();
  }

  /**
   * Every entry of the kiosk's table can be selected: entry `i` is picked for
   * every `r` in (C(i-1), C(i)], a stretch of length equal to its weight,
   * which is positive and lies inside [0, 10000].
   */
  lemma PoolEntryOdds(i: nat, r: real)
    requires i < |PrizePool|
    ensures 0 <= Prefix(PrizePool, i) < Prefix(PrizePool, i + 1) <= FullWeight
    ensures Prefix(PrizePool, i + 1) - Prefix(PrizePool, i) == PrizePool[i].weight
    ensures Prefix(PrizePool, i) as real < r <= Prefix(PrizePool, i + 1) as real ==> Pick(PrizePool, r) == i
  {
    PoolWeights();
    PrefixMonotone(PrizePool, i + 1, |PrizePool|);
    if Prefix(PrizePool, i) as real < r <= Prefix(PrizePool, i + 1) as real {
      PickStretch(PrizePool, r, i);
    }
  }
}
