/**
 * The market snapshot (one DEX pair as the market-data provider reports it)
 * and `pickBestPair` of app/page.tsx, which chooses the pair to evaluate.
 */
module Market {
  import opened Wrappers

  /**
   * The fields of a pair that the scoring pipeline reads. `None` stands for
   * a field that is null or absent; every number is finite.
   */
  datatype Pair = Pair(
    priceUsd: Option<real>,
    liquidityUsd: Option<real>,
    volumeH24: Option<real>,
    buysH24: Option<real>,
    sellsH24: Option<real>,
    changeH1: Option<real>,
    changeH6: Option<real>,
    changeH24: Option<real>,
    fdv: Option<real>,
    marketCap: Option<real>,
    pairCreatedAt: Option<real>)

  /** `liquidity?.usd || 0` */
  function LiquidityOf(p: Pair): real
  {
    p.liquidityUsd.GetOr(0.0)
  }

  /** `volume?.h24 || 0` */
  function VolumeOf(p: Pair): real
  {
    p.volumeH24.GetOr(0.0)
  }

  /**
   * `a` sorts strictly before `b` under the comparator
   * `(b.liq - a.liq) || (b.vol - a.vol)`: more liquidity, or equal
   * liquidity and more 24h volume.
   */
  predicate Outranks(a: Pair, b: Pair)
  {
    LiquidityOf(a) > LiquidityOf(b) ||
    (LiquidityOf(a) == LiquidityOf(b) && VolumeOf(a) > VolumeOf(b))
  }

  /**
   * The index of the element a stable sort by `Outranks` puts first: no pair
   * outranks it, and it outranks every pair listed before it (so among equal
   * pairs the earliest wins).
   */
  function BestIndex(ps: seq<Pair>): (i: nat)
    requires |ps| > 0
    ensures i < |ps|
    ensures forall j :: 0 <= j < |ps| ==> !Outranks(ps[j], ps[i])
    ensures forall j :: 0 <= j < i ==> Outranks(ps[i], ps[j])
    decreases |ps|
  {
    if |ps| == 1 then 0
    else
      var b := BestIndex(ps[..|ps| - 1]);
      if Outranks(ps[|ps| - 1], ps[b]) then |ps| - 1 else b
  }

  /**
   * `pickBestPair`: the first element of the pairs sorted by liquidity, then
   * volume, both descending; nothing for a missing or empty list.
   */
  function PickBestPair(pairs: Option<seq<Pair>>): (r: Option<Pair>)
    ensures r.None? <==> pairs.None? || |pairs.value| == 0
    ensures r.Some? ==> r.value in pairs.value
    ensures r.Some? ==> forall p :: p in pairs.value ==> !Outranks(p, r.value)
    ensures r.Some? ==> forall p :: p in pairs.value ==> LiquidityOf(p) <= LiquidityOf(r.value)
    ensures r.Some? ==> forall p :: p in pairs.value && LiquidityOf(p) == LiquidityOf(r.value) ==> VolumeOf(p) <= VolumeOf(r.value)
    ensures r.Some? ==>
              exists i :: 0 <= i < |pairs.value| && pairs.value[i] == r.value &&
                          forall j :: 0 <= j < i ==> Outranks(r.value, pairs.value[j])
  {
    if pairs.None? || |pairs.value| == 0 then None
    else
      var i := BestIndex(pairs.value);
      assert pairs.value[i] == pairs.value[i];
      Some(pairs.value[i])
  }

  /** `Outranks` is a strict order: irreflexive and transitive. */
  lemma OutranksIsStrictOrder(a: Pair, b: Pair, c: Pair)
    ensures !Outranks(a, a)
    ensures Outranks(a, b) ==> !Outranks(b, a)
    ensures Outranks(a, b) && Outranks(b, c) ==> Outranks(a, c)
  {
  }

  /**
   * At most one index is outranked by no pair while outranking every pair
   * listed before it, so the first element of the stable sort is determined.
   */
  lemma FirstUnbeatenIsUnique(ps: seq<Pair>, i: nat, k: nat)
    requires i < |ps| && k < |ps|
    requires forall j :: 0 <= j < |ps| ==> !Outranks(ps[j], ps[i]) && !Outranks(ps[j], ps[k])
    requires forall j :: 0 <= j < i ==> Outranks(ps[i], ps[j])
    requires forall j :: 0 <= j < k ==> Outranks(ps[k], ps[j])
    ensures i == k
  {
    var a, b := ps[i], ps[k];
    assert i < k ==> Outranks(b, a);
    assert k < i ==> Outranks(a, b);
  }
}
