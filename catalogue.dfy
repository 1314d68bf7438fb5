/**
 * The prize table and the price of one draw. Weights are integer hundredths
 * of a percent, so the table's probabilities (20, 3.52, 0.24, ...) are
 * exact and their total of 100 % is 10000.
 */
module Catalogue {
  import opened Types

  /** Points one draw costs. */
  const CostPerDraw: int := 30

  /** The whole weight scale: 100 % in hundredths. */
  const FullWeight: nat := 10000

  /** The reserved ids whose prizes bump a fragment counter. */
  const Fragment500Id: string := "p_frag_500"
  const FragmentFreeId: string := "p_frag_free"

  /** The prize table, in the order the selector walks it. */
  const PrizePool: seq<Prize> := [
    // empty prize (20 %)
    Prize("p_empty", "再接再厉", Empty, 0, 2000, None, Common, "差一点点就中了！"),
    // point refunds (25.52 %)
    Prize("p_pt_5", "5积分", Point, 5, 2000, None, Common, "价值1元"),
    Prize("p_pt_10", "10积分", Point, 10, 352, None, Common, "价值2元"),
    Prize("p_pt_20", "20积分", Point, 20, 200, None, Uncommon, "价值4元"),
    // cash (25 %)
    Prize("p_cash_5", "5元红包", Cash, 5, 1500, None, Uncommon, "微信红包"),
    Prize("p_cash_10", "10元红包", Cash, 10, 500, None, Uncommon, "微信红包"),
    Prize("p_cash_20", "20元红包", Cash, 20, 300, None, Rare, "微信红包"),
    Prize("p_cash_100", "100元红包", Cash, 100, 200, None, Legendary, "大额红包！"),
    // course vouchers (5.5 %)
    Prize("p_vou_50", "50元课程券", Voucher, 50, 400, None, Uncommon, "课程代金券"),
    Prize("p_vou_200", "200元课程券", Voucher, 200, 150, None, Rare, "大额课程券"),
    // physical items (23.5 %)
    Prize("p_item_drink", "运动饮料/能量棒", Physical, 5, 1000, None, Common, "补充能量"),
    Prize("p_item_badge", "纪念徽章", Physical, 20, 500, None, Uncommon, "限量版"),
    Prize("p_item_gear", "随机运动装备", Physical, 55, 500, None, Rare, "跳绳/瑜伽垫/哑铃等"),
    Prize("p_item_cloth", "运动T恤/短裤", Physical, 100, 200, None, Rare, "EPE定制"),
    Prize("p_item_coat", "运动外套", Physical, 180, 100, None, Legendary, "高端外套"),
    Prize("p_item_band", "运动手环", Physical, 200, 50, None, Legendary, "智能监测"),
    // legendary fragments (0.48 %)
    Prize(Fragment500Id, "500元红包碎片", Fragment, 0, 24, None, Legendary, "集齐3个兑换500元"),
    Prize(FragmentFreeId, "季度免单碎片", Fragment, 0, 24, None, Legendary, "集齐3个兑换3500元免单")
  ]

  /** Sum of the weights of the first `n` prizes: the running total after entry `n - 1`. */
  function Prefix(ps: seq<Prize>, n: nat): nat
    requires n <= |ps|
  {
    if n == 0 then 0 else Prefix(ps, n - 1) + ps[n - 1].weight
  }

  /** Sum of the weights of a whole table. */
  function WeightSum(ps: seq<Prize>): nat
  {
    Prefix(ps, |ps|)
  }

  /** Sum of the weights of the first `n` prizes that belong to category `t`. */
  function CategoryPrefix(ps: seq<Prize>, t: PrizeType, n: nat): nat
    requires n <= |ps|
  {
    if n == 0 then 0
    else CategoryPrefix(ps, t, n - 1) + (if ps[n - 1].kind == t then ps[n - 1].weight else 0)
  }

  function CategoryWeight(ps: seq<Prize>, t: PrizeType): nat
  {
    CategoryPrefix(ps, t, |ps|)
  }

  lemma {:induction false} CategoriesPartitionPrefix(ps: seq<Prize>, n: nat)
    requires n <= |ps|
    ensures CategoryPrefix(ps, Empty, n) + CategoryPrefix(ps, Point, n) + CategoryPrefix(ps, Cash, n)
          + CategoryPrefix(ps, Voucher, n) + CategoryPrefix(ps, Physical, n) + CategoryPrefix(ps, Fragment, n)
          == Prefix(ps, n)
  {
    if n > 0 {
      CategoriesPartitionPrefix(ps, n - 1);
    }
  }

  /** The six category subtotals add up to the total weight, for any table. */
  lemma CategoriesPartitionWeight(ps: seq<Prize>)
    ensures CategoryWeight(ps, Empty) + CategoryWeight(ps, Point) + CategoryWeight(ps, Cash)
          + CategoryWeight(ps, Voucher) + CategoryWeight(ps, Physical) + CategoryWeight(ps, Fragment)
          == WeightSum(ps)
  {
    CategoriesPartitionPrefix(ps, |ps|);
  }

  /** Number of entries among the first `n` with a given id. */
  function CountIdPrefix(ps: seq<Prize>, id: string, n: nat): nat
    requires n <= |ps|
  {
    if n == 0 then 0 else CountIdPrefix(ps, id, n - 1) + (if ps[n - 1].id == id then 1 else 0)
  }

  function CountId(ps: seq<Prize>, id: string): nat
  {
    CountIdPrefix(ps, id, |ps|)
  }

  /**
   * The weights of the table's entries, written out a second time as plain
   * numbers. It adds nothing to the table: it is there so that sums over the
   * weights are computed on a list of numbers rather than through the prize
   * records, which keeps those proofs fast, and `PoolWeightsListed` proves
   * it equal to the table's own weights.
   */
  const PoolWeightList: seq<nat> := [2000, 2000, 352, 200, 1500, 500, 300, 200, 400, 150, 1000, 500, 500, 200, 100, 50, 24, 24]

  lemma PoolWeightsListed()
    ensures |PrizePool| == |PoolWeightList|
    ensures forall i :: 0 <= i < |PrizePool| ==> PrizePool[i].weight == PoolWeightList[i]
  {
  }

  /** Sum of the first `n` numbers of a list. */
  function ListPrefix(ws: seq<nat>, n: nat): nat
    requires n <= |ws|
  {
    if n == 0 then 0 else ListPrefix(ws, n - 1) + ws[n - 1]
  }

  /** A table's running totals are those of its list of weights. */
  lemma {:induction false} PrefixOfWeights(ps: seq<Prize>, ws: seq<nat>, n: nat)
    requires |ps| == |ws| && n <= |ps|
    requires forall i :: 0 <= i < |ps| ==> ps[i].weight == ws[i]
    ensures Prefix(ps, n) == ListPrefix(ws, n)
  {
    if n > 0 {
      PrefixOfWeights(ps, ws, n - 1);
    }
  }

  /** The running totals of the table at the boundaries of its six groups. */
  lemma PoolRunningTotals()
    ensures Prefix(PrizePool, 1) == 2000 && Prefix(PrizePool, 4) == 4552 && Prefix(PrizePool, 8) == 7052
    ensures Prefix(PrizePool, 10) == 7602 && Prefix(PrizePool, 16) == 9952 && Prefix(PrizePool, 18) == 10000
  {
    PoolWeightsListed();
    assert ListPrefix(PoolWeightList, 1) == 2000;
    assert ListPrefix(PoolWeightList, 2) == 4000;
    assert ListPrefix(PoolWeightList, 3) == 4352;
    assert ListPrefix(PoolWeightList, 4) == 4552;
    assert ListPrefix(PoolWeightList, 5) == 6052;
    assert ListPrefix(PoolWeightList, 6) == 6552;
    assert ListPrefix(PoolWeightList, 7) == 6852;
    assert ListPrefix(PoolWeightList, 8) == 7052;
    assert ListPrefix(PoolWeightList, 9) == 7452;
    assert ListPrefix(PoolWeightList, 10) == 7602;
    assert ListPrefix(PoolWeightList, 11) == 8602;
    assert ListPrefix(PoolWeightList, 12) == 9102;
    assert ListPrefix(PoolWeightList, 13) == 9602;
    assert ListPrefix(PoolWeightList, 14) == 9802;
    assert ListPrefix(PoolWeightList, 15) == 9902;
    assert ListPrefix(PoolWeightList, 16) == 9952;
    assert ListPrefix(PoolWeightList, 17) == 9976;
    assert ListPrefix(PoolWeightList, 18) == 10000;
    PrefixOfWeights(PrizePool, PoolWeightList, 1);
    PrefixOfWeights(PrizePool, PoolWeightList, 4);
    PrefixOfWeights(PrizePool, PoolWeightList, 8);
    PrefixOfWeights(PrizePool, PoolWeightList, 10);
    PrefixOfWeights(PrizePool, PoolWeightList, 16);
    PrefixOfWeights(PrizePool, PoolWeightList, 18);
  }

  /** The weights total exactly 100 %, and every entry has a positive weight. */
  lemma PoolWeights()
    ensures WeightSum(PrizePool) == FullWeight
    ensures forall i :: 0 <= i < |PrizePool| ==> PrizePool[i].weight > 0
  {
    PoolRunningTotals();
  }

  /**
   * Over a stretch `[a, b)` of one category `k`, only that category's
   * subtotal grows, and it grows by the stretch's weight.
   */
  lemma {:induction false} CategoryStretch(ps: seq<Prize>, k: PrizeType, t: PrizeType, a: nat, b: nat)
    requires a <= b <= |ps|
    requires forall i :: a <= i < b ==> ps[i].kind == k
    ensures CategoryPrefix(ps, t, b) == CategoryPrefix(ps, t, a) + (if t == k then Prefix(ps, b) - Prefix(ps, a) else 0)
  {
    if a < b {
      CategoryStretch(ps, k, t, a, b - 1);
    }
  }

  /** The per-category subtotals: 20, 25.52, 25, 5.5, 23.5 and 0.48 %. */
  lemma PoolCategoryWeights()
    ensures CategoryWeight(PrizePool, Empty) == 2000
    ensures CategoryWeight(PrizePool, Point) == 2552
    ensures CategoryWeight(PrizePool, Cash) == 2500
    ensures CategoryWeight(PrizePool, Voucher) == 550
    ensures CategoryWeight(PrizePool, Physical) == 2350
    ensures CategoryWeight(PrizePool, Fragment) == 48
  {
    PoolRunningTotals();
    forall t: PrizeType ensures CategoryPrefix(PrizePool, t, 18) ==
      (match t
       case Empty => 2000 case Point => 2552 case Cash => 2500
       case Voucher => 550 case Physical => 2350 case Fragment => 48)
    {
      CategoryStretch(PrizePool, Empty, t, 0, 1);
      CategoryStretch(PrizePool, Point, t, 1, 4);
      CategoryStretch(PrizePool, Cash, t, 4, 8);
      CategoryStretch(PrizePool, Voucher, t, 8, 10);
      CategoryStretch(PrizePool, Physical, t, 10, 16);
      CategoryStretch(PrizePool, Fragment, t, 16, 18);
    }
  }

  predicate DistinctIds(ps: seq<Prize>)
  {
    forall i, j :: 0 <= i < j < |ps| ==> ps[i].id != ps[j].id
  }

  /** In a table with distinct ids, an id that occurs at all occurs exactly once among the first `n` entries past it. */
  lemma {:induction false} CountDistinct(ps: seq<Prize>, id: string, i: nat, n: nat)
    requires DistinctIds(ps) && i < n <= |ps| && ps[i].id == id
    ensures CountIdPrefix(ps, id, n) == 1
  {
    if n == i + 1 {
      CountAbsent(ps, id, i, i);
    } else {
      CountDistinct(ps, id, i, n - 1);
    }
  }

  lemma {:induction false} CountAbsent(ps: seq<Prize>, id: string, n: nat, i: nat)
    requires DistinctIds(ps) && n <= i < |ps| && ps[i].id == id
    ensures CountIdPrefix(ps, id, n) == 0
  {
    if n > 0 {
      CountAbsent(ps, id, n - 1, i);
    }
  }

  /** All ids are pairwise distinct, and each reserved fragment id occurs exactly once. */
  lemma PoolIds()
    ensures DistinctIds(PrizePool)
    ensures CountId(PrizePool, Fragment500Id) == 1 && CountId(PrizePool, FragmentFreeId) == 1
  {
    CountDistinct(PrizePool, Fragment500Id, 16, 18);
    CountDistinct(PrizePool, FragmentFreeId, 17, 18);
  }

  /** Slot 0, the selector's fallback, is the empty prize. */
  lemma PoolFallback()
    ensures PrizePool[0].id == "p_empty" && PrizePool[0].kind == Empty && PrizePool[0].value == 0
  {
  }

  /**
   * Empty and fragment prizes are worth nothing, point prizes are worth 5, 10
   * or 20 points, and the fragment prizes are exactly the two reserved ids.
   */
  lemma PoolValues()
    ensures forall i :: 0 <= i < |PrizePool| && PrizePool[i].kind in {Empty, Fragment} ==> PrizePool[i].value == 0
    ensures forall i :: 0 <= i < |PrizePool| && PrizePool[i].kind == Point ==> PrizePool[i].value in {5, 10, 20}
    ensures (set i | 0 <= i < |PrizePool| && PrizePool[i].kind == Point :: PrizePool[i].value) == {5, 10, 20}
    ensures forall i :: 0 <= i < |PrizePool| ==>
      (PrizePool[i].kind == Fragment <==> PrizePool[i].id in {Fragment500Id, FragmentFreeId})
  {
    assert PrizePool[1].value == 5 && PrizePool[2].value == 10 && PrizePool[3].value == 20;
  }

  /**
   * A draw costs 30 points, more than any POINT prize of the table gives
   * back, so no single draw raises a balance.
   */
  lemma CostAboveRefunds()
    ensures CostPerDraw == 30
    ensures forall i :: 0 <= i < |PrizePool| && PrizePool[i].kind == Point ==> 0 < PrizePool[i].value < CostPerDraw
  {
    PoolValues();
  }
}
