/**
 * Price derivation for tokens of the pool graph: the ETH/USD reference price,
 * the conversion of a Q64.96 square-root price into the two token prices, the
 * scan of a token's whitelist pools for the most ETH-backed price, and the
 * whitelist policy deciding which part of a two-leg amount is tracked.
 */
module Pricing {
  import opened Numeric
  import opened Schema
  import opened NewEntities

  const WETH_ADDRESS: string := "0x85119527cf38f6ccf7b1b8f8fad05145358aaa81"
  const USDC_WETH_03_POOL: string := "0xeac8c29642b12231240bbc22004c8182d62d1c1a"

  /** The anchor tokens trusted for tracked amounts, WETH first. */
  const WHITELIST_TOKENS: seq<string> := [
    "0x85119527cf38f6ccf7b1b8f8fad05145358aaa81",
    "0x853e38d0b35d2df54d3d91c210b7bd7749d614e8",
    "0x5d2d4baa31e79777383ac407d45495b44d0140b7"
  ]

  /** The floor a pool's locked ETH must strictly exceed to set a price. */
  const MINIMUM_ETH_LOCKED: real := 0.0

  /** 2^192, the scale of a squared Q64.96 number. */
  const Q192: real := 6277101735386680763835789423207666416102355444464034512896.0

  /** The literal above is 2^192, as the source computes it with `BigInt.pow`. */
  lemma Q192IsTwoToThe192()
    ensures Q192 == Pow(2, 192) as real
  {
    PowersOfTwo(2);
  }

  /**
   * 2^192 by repeated squaring. The base is a parameter pinned to 2 rather
   * than the literal 2, which keeps Dafny from unfolding `Pow` on literal
   * arguments all the way down.
   */
  lemma PowersOfTwo(two: nat)
    requires two == 2
    ensures Pow(two, 192) == 6277101735386680763835789423207666416102355444464034512896
  {
    assert Pow(two, 1) == 2;
    PowAdd(two, 1, 1);
    assert Pow(two, 2) == 4;
    PowAdd(two, 2, 2);
    assert Pow(two, 4) == 16;
    PowAdd(two, 4, 4);
    assert Pow(two, 8) == 256;
    PowAdd(two, 8, 8);
    assert Pow(two, 16) == 65536;
    PowAdd(two, 16, 16);
    assert Pow(two, 32) == 4294967296;
    PowAdd(two, 32, 32);
    assert Pow(two, 64) == 18446744073709551616;
    PowAdd(two, 64, 64);
    assert Pow(two, 128) == 340282366920938463463374607431768211456;
    PowAdd(two, 128, 64);
  }

  // ---------------------------------------------------------------------------
  // Square-root price conversion

  /**
   * `[price0, price1]` for a pool whose square-root price is `sqrtPriceX96`:
   * price1 is (sqrtPriceX96 / 2^96)^2 rescaled by the two tokens' decimals,
   * price0 its reciprocal, or zero when price1 is zero.
   */
  function SqrtPriceX96ToTokenPrices(sqrtPriceX96: int, token0: Token, token1: Token): (prices: seq<real>)
    ensures |prices| == 2
    ensures ScalesTo(prices[1], (sqrtPriceX96 * sqrtPriceX96) as real, Q192,
                     ExponentToBigDecimal(token0.decimals), ExponentToBigDecimal(token1.decimals))
    ensures prices[1] >= 0.0
    ensures prices[1] == 0.0 <==> sqrtPriceX96 == 0
    ensures prices[1] == 0.0 ==> prices[0] == 0.0
    ensures prices[1] != 0.0 ==> prices[0] * prices[1] == 1.0
  {
    SquareZero(sqrtPriceX96);
    PricesOfSquare((sqrtPriceX96 * sqrtPriceX96) as real, Q192,
                   ExponentToBigDecimal(token0.decimals), ExponentToBigDecimal(token1.decimals))
  }

  lemma SquareZero(x: int)
    ensures x * x >= 0
    ensures x * x == 0 <==> x == 0
  {
  }

  /**
   * `price` is `num / q` moved from `e1` to `e0` decimal units:
   * price · q · e1 = num · e0.
   */
  predicate ScalesTo(price: real, num: real, q: real, e0: real, e1: real)
  {
    price * q * e1 == num * e0
  }

  /**
   * `[price0, price1]` from the squared price `num` in units of `q`, with
   * `price1 = num / q * e0 / e1` and `price0` its safe reciprocal.
   */
  function PricesOfSquare(num: real, q: real, e0: real, e1: real): (prices: seq<real>)
    requires num >= 0.0 && q > 0.0 && e0 > 0.0 && e1 > 0.0
    ensures |prices| == 2
    ensures ScalesTo(prices[1], num, q, e0, e1)
    ensures prices[1] >= 0.0
    ensures prices[1] == 0.0 <==> num == 0.0
    ensures prices[1] == 0.0 ==> prices[0] == 0.0
    ensures prices[1] != 0.0 ==> prices[0] * prices[1] == 1.0
  {
    var price1 := num / q * e0 / e1;
    assert price1 * e1 == num / q * e0;
    assert num / q * q == num;
    assert price1 * q * e1 == price1 * e1 * q;
    assert num / q * e0 * q == num / q * q * e0;
    assert num / q >= 0.0;
    assert num / q * e0 >= 0.0;
    assert num != 0.0 ==> num / q * e0 > 0.0 by {
      if num != 0.0 {
        assert num / q > 0.0;
      }
    }
    [SafeDiv(ONE_BD, price1), price1]
  }

  // ---------------------------------------------------------------------------
  // Reference price

  /** The ETH price in USD: the anchor pool's `token1Price`, or zero before that pool exists. */
  function GetEthPriceInUSD(store: Store): (price: real)
    ensures USDC_WETH_03_POOL in store.pools ==> price == store.pools[USDC_WETH_03_POOL].token1Price
    ensures USDC_WETH_03_POOL !in store.pools ==> price == 0.0
  {
    if USDC_WETH_03_POOL in store.pools then store.pools[USDC_WETH_03_POOL].token1Price else ZERO_BD
  }

  /** The reference price depends on the anchor pool's quoted price and on nothing else in the store. */
  lemma EthPriceReadsOnlyAnchorPool(s1: Store, s2: Store)
    requires USDC_WETH_03_POOL in s1.pools <==> USDC_WETH_03_POOL in s2.pools
    requires USDC_WETH_03_POOL in s1.pools ==>
               s1.pools[USDC_WETH_03_POOL].token1Price == s2.pools[USDC_WETH_03_POOL].token1Price
    ensures GetEthPriceInUSD(s1) == GetEthPriceInUSD(s2)
  {
  }

  // ---------------------------------------------------------------------------
  // Derived ETH per token: specification of the pool scan

  /**
   * One price offer from one side of an eligible pool: the pool, the
   * counter-party token, the counter-party's TVL in the pool, the pool's quote
   * of the scanned token in counter-party units, and the counter-party's
   * derived ETH price.
   */
  datatype Candidate = Candidate(pool: string, counterparty: string, counterpartyTVL: real, quotedPrice: real,
                                 counterpartyDerivedETH: real)
  {
    /** The ETH locked on the counter-party's side of the pool. */
    function EthLocked(): real
    {
      counterpartyTVL * counterpartyDerivedETH
    }

    /** The scanned token's ETH price implied by this side of the pool. */
    function Price(): real
    {
      quotedPrice * counterpartyDerivedETH
    }
  }

  /** The two running variables of the scan. */
  datatype Best = Best(largestLiquidityETH: real, priceSoFar: real)

  /**
   * The derived ETH price of a counter-party as the scan sees it: the stored
   * token's, or that of the default record synthesised for a missing one.
   */
  function CounterpartyDerivedETH(store: Store, tokenId: string): (d: real)
    ensures tokenId in store.tokens ==> d == store.tokens[tokenId].derivedETH
    ensures tokenId !in store.tokens ==> d == 0.0
  {
    if tokenId in store.tokens then store.tokens[tokenId].derivedETH else ZERO_BD
  }

  /** The offer of pool `poolAddress` for its token0, priced through token1. */
  function OfferViaToken1(store: Store, poolAddress: string): (offer: Candidate)
    requires poolAddress in store.pools
    ensures offer.pool == poolAddress && offer.counterparty == store.pools[poolAddress].token1
    ensures offer.EthLocked()
         == store.pools[poolAddress].totalValueLockedToken1 * CounterpartyDerivedETH(store, store.pools[poolAddress].token1)
    ensures offer.Price()
         == store.pools[poolAddress].token1Price * CounterpartyDerivedETH(store, store.pools[poolAddress].token1)
  {
    var pool := store.pools[poolAddress];
    var derivedETH1 := CounterpartyDerivedETH(store, pool.token1);
    Candidate(poolAddress, pool.token1, pool.totalValueLockedToken1, pool.token1Price, derivedETH1)
  }

  /** The offer of pool `poolAddress` for its token1, priced through token0. */
  function OfferViaToken0(store: Store, poolAddress: string): (offer: Candidate)
    requires poolAddress in store.pools
    ensures offer.pool == poolAddress && offer.counterparty == store.pools[poolAddress].token0
    ensures offer.EthLocked()
         == store.pools[poolAddress].totalValueLockedToken0 * CounterpartyDerivedETH(store, store.pools[poolAddress].token0)
    ensures offer.Price()
         == store.pools[poolAddress].token0Price * CounterpartyDerivedETH(store, store.pools[poolAddress].token0)
  {
    var pool := store.pools[poolAddress];
    var derivedETH0 := CounterpartyDerivedETH(store, pool.token0);
    Candidate(poolAddress, pool.token0, pool.totalValueLockedToken0, pool.token0Price, derivedETH0)
  }

  /**
   * The offers pool `poolAddress` makes for token `tokenId`: none when the pool
   * is missing or has no liquidity; otherwise one for each side the token is on,
   * the side where it is token0 first.
   */
  function PoolCandidates(store: Store, tokenId: string, poolAddress: string): seq<Candidate>
  {
    if poolAddress !in store.pools || !(store.pools[poolAddress].liquidity > ZERO_BI) then []
    else
      (if store.pools[poolAddress].token0 == tokenId then [OfferViaToken1(store, poolAddress)] else [])
      + (if store.pools[poolAddress].token1 == tokenId then [OfferViaToken0(store, poolAddress)] else [])
  }

  /** All offers of the pools in `pools`, in list order. */
  function Candidates(store: Store, tokenId: string, pools: seq<string>): seq<Candidate>
    decreases |pools|
  {
    if pools == [] then []
    else Candidates(store, tokenId, pools[..|pools| - 1]) + PoolCandidates(store, tokenId, pools[|pools| - 1])
  }

  /** One comparison of the scan: an offer replaces the best so far only when strictly larger and above the floor. */
  function Offer(best: Best, c: Candidate): (next: Best)
    ensures next.largestLiquidityETH >= best.largestLiquidityETH
    ensures next == best || (next == Best(c.EthLocked(), c.Price()) && c.EthLocked() > MINIMUM_ETH_LOCKED)
    ensures c.EthLocked() <= best.largestLiquidityETH ==> next == best
    ensures c.EthLocked() > best.largestLiquidityETH && c.EthLocked() > MINIMUM_ETH_LOCKED ==>
              next == Best(c.EthLocked(), c.Price())
  {
    if c.EthLocked() > best.largestLiquidityETH && c.EthLocked() > MINIMUM_ETH_LOCKED
    then Best(c.EthLocked(), c.Price())
    else best
  }

  /** The scan's running variables after considering `cands` in order, starting from zero. */
  function Scan(cands: seq<Candidate>): Best
    decreases |cands|
  {
    if cands == [] then Best(ZERO_BD, ZERO_BD)
    else Offer(Scan(cands[..|cands| - 1]), cands[|cands| - 1])
  }

  /**
   * One iteration of the scan over pool `poolAddress`: skipped when missing or
   * without liquidity; otherwise the offer through token1 is compared when the
   * token is token0, then the offer through token0 when it is token1.
   */
  function PoolStep(store: Store, tokenId: string, best: Best, poolAddress: string): (next: Best)
    ensures next.largestLiquidityETH >= best.largestLiquidityETH
    ensures next == best || next.largestLiquidityETH > MINIMUM_ETH_LOCKED
    ensures (poolAddress !in store.pools || store.pools[poolAddress].liquidity <= 0) ==> next == best
    ensures (poolAddress in store.pools && store.pools[poolAddress].token0 != tokenId &&
             store.pools[poolAddress].token1 != tokenId) ==> next == best
  {
    if poolAddress !in store.pools || !(store.pools[poolAddress].liquidity > ZERO_BI) then best
    else
      var afterToken1 :=
        if store.pools[poolAddress].token0 == tokenId then Offer(best, OfferViaToken1(store, poolAddress)) else best;
      if store.pools[poolAddress].token1 == tokenId then Offer(afterToken1, OfferViaToken0(store, poolAddress))
      else afterToken1
  }

  /**
   * The scan's running variables after the pools of `pools`, in list order:
   * still at zero, or holding a locked-ETH figure above the floor.
   */
  function ScanPools(store: Store, tokenId: string, pools: seq<string>): (best: Best)
    ensures best == Best(0.0, 0.0) || best.largestLiquidityETH > MINIMUM_ETH_LOCKED
    ensures best.largestLiquidityETH >= 0.0
    decreases |pools|
  {
    if pools == [] then Best(ZERO_BD, ZERO_BD)
    else PoolStep(store, tokenId, ScanPools(store, tokenId, pools[..|pools| - 1]), pools[|pools| - 1])
  }

  /** The ETH price `FindEthPerToken` derives for `token` from `store`. */
  function EthPerToken(store: Store, token: Token): (price: real)
    ensures token.id == WETH_ADDRESS ==> price == 1.0
    ensures token.id != WETH_ADDRESS && store.bundle.None? ==> price == 0.0
  {
    if token.id == WETH_ADDRESS then ONE_BD
    else if store.bundle.None? then ZERO_BD
    else ScanPools(store, token.id, token.whitelistPools).priceSoFar
  }

  // ---------------------------------------------------------------------------
  // Derived ETH per token: reference characterisation

  /** An offer able to set a price: above zero (the scan's start) and above the floor. */
  predicate Qualifies(c: Candidate)
  {
    c.EthLocked() > ZERO_BD && c.EthLocked() > MINIMUM_ETH_LOCKED
  }

  /** `cands[k]` qualifies, no offer locks more ETH, and every earlier offer locks strictly less. */
  predicate IsFirstBest(cands: seq<Candidate>, k: int)
  {
    0 <= k < |cands| && Qualifies(cands[k]) &&
    (forall j | 0 <= j < |cands| :: cands[j].EthLocked() <= cands[k].EthLocked()) &&
    (forall j | 0 <= j < k :: cands[j].EthLocked() < cands[k].EthLocked())
  }

  /** `c` is an offer from a listed pool that is stored, has liquidity, and holds `tokenId` on the other side. */
  predicate FromEligiblePool(store: Store, tokenId: string, pools: seq<string>, c: Candidate)
  {
    c.pool in pools && c.pool in store.pools && store.pools[c.pool].liquidity > 0 &&
    ((store.pools[c.pool].token0 == tokenId && c == OfferViaToken1(store, c.pool)) ||
     (store.pools[c.pool].token1 == tokenId && c == OfferViaToken0(store, c.pool)))
  }

  /** No offer in `cands` qualifies. */
  predicate NoneQualifies(cands: seq<Candidate>)
  {
    forall j | 0 <= j < |cands| :: !Qualifies(cands[j])
  }

  /** At most one offer is the first best. */
  lemma FirstBestUnique(cands: seq<Candidate>, k1: int, k2: int)
    requires IsFirstBest(cands, k1) && IsFirstBest(cands, k2)
    ensures k1 == k2
  {
  }

  /**
   * The scan's state after `cands`: `k` is -1 when nothing qualifies and the
   * scan is still at zero, and otherwise the first best offer, whose locked ETH
   * and price the scan holds.
   */
  lemma {:induction false} ScanState(cands: seq<Candidate>) returns (k: int)
    ensures k == -1 ==> NoneQualifies(cands) && Scan(cands) == Best(0.0, 0.0)
    ensures k != -1 ==> IsFirstBest(cands, k) && Scan(cands) == Best(cands[k].EthLocked(), cands[k].Price())
    decreases |cands|
  {
    if cands == [] {
      return -1;
    }
    var n := |cands| - 1;
    var prefix := cands[..n];
    var c := cands[n];
    assert forall j | 0 <= j < n :: cands[j] == prefix[j];
    var k' := ScanState(prefix);
    assert Scan(cands) == Offer(Scan(prefix), c);
    if k' == -1 {
      if Qualifies(c) {
        forall j | 0 <= j < n ensures cands[j].EthLocked() < c.EthLocked() {
          assert !Qualifies(prefix[j]);
        }
        k := n;
      } else {
        k := -1;
      }
    } else if c.EthLocked() > cands[k'].EthLocked() {
      forall j | 0 <= j < n ensures cands[j].EthLocked() < c.EthLocked() {
        assert prefix[j].EthLocked() <= prefix[k'].EthLocked();
      }
      k := n;
    } else {
      k := k';
    }
  }

  /**
   * The scan keeps the first offer with the largest locked ETH among those
   * that qualify, and ends at zero when none qualifies.
   */
  lemma ScanKeepsFirstBest(cands: seq<Candidate>)
    ensures NoneQualifies(cands) ==> Scan(cands) == Best(0.0, 0.0)
    ensures !NoneQualifies(cands) ==> exists k :: IsFirstBest(cands, k)
    ensures forall k | IsFirstBest(cands, k) :: Scan(cands) == Best(cands[k].EthLocked(), cands[k].Price())
  {
    var k := ScanState(cands);
    forall k' | IsFirstBest(cands, k') ensures Scan(cands) == Best(cands[k'].EthLocked(), cands[k'].Price()) {
      if k != -1 {
        FirstBestUnique(cands, k, k');
      }
    }
  }

  /** Every offer comes from a listed, stored pool with positive liquidity, priced as the pool quotes it. */
  lemma {:induction false} CandidatesFromEligiblePools(store: Store, tokenId: string, pools: seq<string>)
    ensures forall c | c in Candidates(store, tokenId, pools) :: FromEligiblePool(store, tokenId, pools, c)
    decreases |pools|
  {
    if pools != [] {
      var prefix := pools[..|pools| - 1];
      var last := pools[|pools| - 1];
      CandidatesFromEligiblePools(store, tokenId, prefix);
      forall c | c in Candidates(store, tokenId, pools) ensures FromEligiblePool(store, tokenId, pools, c) {
        if c in Candidates(store, tokenId, prefix) {
          assert FromEligiblePool(store, tokenId, prefix, c);
          assert c.pool in pools by {
            var i :| 0 <= i < |prefix| && prefix[i] == c.pool;
            assert pools[i] == c.pool;
          }
        } else {
          assert c in PoolCandidates(store, tokenId, last);
        }
      }
    }
  }

  /**
   * Conversely, a listed pool that is stored and has liquidity yields an offer
   * for each side the token is on.
   */
  lemma {:induction false} EligiblePoolsOffer(store: Store, tokenId: string, pools: seq<string>, i: int)
    requires 0 <= i < |pools| && pools[i] in store.pools && store.pools[pools[i]].liquidity > 0
    ensures store.pools[pools[i]].token0 == tokenId ==>
              OfferViaToken1(store, pools[i]) in Candidates(store, tokenId, pools)
    ensures store.pools[pools[i]].token1 == tokenId ==>
              OfferViaToken0(store, pools[i]) in Candidates(store, tokenId, pools)
    decreases |pools|
  {
    var n := |pools| - 1;
    var prefix := pools[..n];
    var earlier := Candidates(store, tokenId, prefix);
    var last := PoolCandidates(store, tokenId, pools[n]);
    assert Candidates(store, tokenId, pools) == earlier + last;
    if i < n {
      assert prefix[i] == pools[i];
      EligiblePoolsOffer(store, tokenId, prefix, i);
      forall c | c in earlier ensures c in earlier + last {
        var j :| 0 <= j < |earlier| && earlier[j] == c;
        assert (earlier + last)[j] == c;
      }
    } else {
      if store.pools[pools[i]].token0 == tokenId {
        assert last[0] == OfferViaToken1(store, pools[i]);
        assert (earlier + last)[|earlier|] == last[0];
      }
      if store.pools[pools[i]].token1 == tokenId {
        assert last[|last| - 1] == OfferViaToken0(store, pools[i]);
        assert (earlier + last)[|earlier| + |last| - 1] == last[|last| - 1];
      }
    }
  }

  /** A counter-party with no stored record locks no ETH, so its pool never sets the price. */
  lemma MissingCounterpartyNeverQualifies(store: Store, tokenId: string, pools: seq<string>)
    ensures forall c | c in Candidates(store, tokenId, pools) && c.counterparty !in store.tokens ::
              c.EthLocked() == 0.0 && !Qualifies(c)
  {
  }

  /**
   * The derived price of a token other than WETH, with a bundle present: zero
   * when no offer qualifies; otherwise the price of the first offer locking the
   * most ETH, which comes from an eligible listed pool.
   */
  lemma EthPerTokenSelectsMostLockedPool(store: Store, token: Token)
    requires token.id != WETH_ADDRESS && store.bundle.Some?
    ensures var cands := Candidates(store, token.id, token.whitelistPools);
            NoneQualifies(cands) ==> EthPerToken(store, token) == 0.0
    ensures var cands := Candidates(store, token.id, token.whitelistPools);
            !NoneQualifies(cands) ==>
              exists k :: IsFirstBest(cands, k) && EthPerToken(store, token) == cands[k].Price() &&
                FromEligiblePool(store, token.id, token.whitelistPools, cands[k])
  {
    var cands := Candidates(store, token.id, token.whitelistPools);
    ScanPoolsIsScanOfCandidates(store, token.id, token.whitelistPools);
    ScanKeepsFirstBest(cands);
    CandidatesFromEligiblePools(store, token.id, token.whitelistPools);
    if !NoneQualifies(cands) {
      var k :| IsFirstBest(cands, k);
      assert cands[k] in cands;
    }
  }

  /** On equal locked ETH the earlier offer wins: the price never comes from a later tie. */
  lemma TiesGoToEarlierOffer(cands: seq<Candidate>, j: int, k: int)
    requires 0 <= j < k < |cands| && cands[j].EthLocked() == cands[k].EthLocked()
    ensures !IsFirstBest(cands, k)
    ensures IsFirstBest(cands, j) ==> Scan(cands) == Best(cands[j].EthLocked(), cands[j].Price())
  {
    ScanKeepsFirstBest(cands);
  }

  /** A token with no whitelist pools, other than WETH, is unpriced. */
  lemma NoPoolsNoPrice(store: Store, token: Token)
    requires token.id != WETH_ADDRESS && token.whitelistPools == []
    ensures EthPerToken(store, token) == 0.0
  {
  }

  // ---------------------------------------------------------------------------
  // Derived ETH per token: the scan as the source runs it

  /** Scanning one more offer is one more comparison. */
  lemma ScanSnoc(cands: seq<Candidate>, c: Candidate)
    ensures Scan(cands + [c]) == Offer(Scan(cands), c)
  {
  }

  /** Scanning a pool's offers after `cands` is one pool step of the scan. */
  lemma ScanPoolCandidates(store: Store, tokenId: string, cands: seq<Candidate>, poolAddress: string)
    ensures Scan(cands + PoolCandidates(store, tokenId, poolAddress)) == PoolStep(store, tokenId, Scan(cands), poolAddress)
  {
    if poolAddress in store.pools && store.pools[poolAddress].liquidity > ZERO_BI {
      var pool := store.pools[poolAddress];
      var first := if pool.token0 == tokenId then [OfferViaToken1(store, poolAddress)] else [];
      var second := if pool.token1 == tokenId then [OfferViaToken0(store, poolAddress)] else [];
      assert PoolCandidates(store, tokenId, poolAddress) == first + second;
      assert cands + (first + second) == (cands + first) + second;
      if pool.token0 == tokenId {
        ScanSnoc(cands, OfferViaToken1(store, poolAddress));
      } else {
        assert cands + first == cands;
      }
      if pool.token1 == tokenId {
        ScanSnoc(cands + first, OfferViaToken0(store, poolAddress));
      } else {
        assert (cands + first) + second == cands + first;
      }
    } else {
      assert cands + [] == cands;
    }
  }

  /** The pool-by-pool scan is the scan of all offers in list order. */
  lemma {:induction false} ScanPoolsIsScanOfCandidates(store: Store, tokenId: string, pools: seq<string>)
    ensures ScanPools(store, tokenId, pools) == Scan(Candidates(store, tokenId, pools))
    decreases |pools|
  {
    if pools != [] {
      var prefix := pools[..|pools| - 1];
      ScanPoolsIsScanOfCandidates(store, tokenId, prefix);
      ScanPoolCandidates(store, tokenId, Candidates(store, tokenId, prefix), pools[|pools| - 1]);
    }
  }

  /** One more pool of the list is one more loop iteration. */
  lemma ScanPoolsSnoc(store: Store, tokenId: string, pools: seq<string>, i: int)
    requires 0 <= i < |pools|
    ensures ScanPools(store, tokenId, pools[..i + 1])
         == PoolStep(store, tokenId, ScanPools(store, tokenId, pools[..i]), pools[i])
  {
    assert pools[..i + 1][..i] == pools[..i];
  }

  /**
   * One side of a pool in the scan: load the counter-party (or build its
   * default record), weigh the ETH locked on its side, and keep the implied
   * price if that beats both the largest so far and the floor.
   */
  method WeighCounterparty(store: Store, fetch: Fetchers, poolAddress: string, counterparty: string,
                           counterpartyTVL: real, quotedPrice: real, largestLiquidityETH: real, priceSoFar: real,
                           ghost offer: Candidate)
    returns (largest: real, price: real)
    requires offer == Candidate(poolAddress, counterparty, counterpartyTVL, quotedPrice,
                                CounterpartyDerivedETH(store, counterparty))
    ensures Best(largest, price) == Offer(Best(largestLiquidityETH, priceSoFar), offer)
  {
    var other: Token;
    if counterparty in store.tokens {
      other := store.tokens[counterparty];
    } else {
      other := CreateEmptyToken(counterparty, fetch);
    }
    largest, price := largestLiquidityETH, priceSoFar;
    var ethLocked := counterpartyTVL * other.derivedETH;
    if ethLocked > largestLiquidityETH && ethLocked > MINIMUM_ETH_LOCKED {
      largest := ethLocked;
      price := quotedPrice * other.derivedETH;
    }
  }

  /**
   * ETH per unit of `token`: one for WETH, zero without a bundle, otherwise
   * the price implied by the whitelist pool locking the most ETH. Missing
   * counter-parties are replaced by default records built with `fetch`.
   */
  method FindEthPerToken(store: Store, fetch: Fetchers, token: Token) returns (price: real)
    ensures price == EthPerToken(store, token)
    ensures token.id == WETH_ADDRESS ==> price == 1.0
    ensures token.id != WETH_ADDRESS && store.bundle.None? ==> price == 0.0
  {
    if token.id == WETH_ADDRESS {
      return ONE_BD;
    }
    var whiteList := token.whitelistPools;
    var largestLiquidityETH := ZERO_BD;
    var priceSoFar := ZERO_BD;
    var bundle := store.bundle;
    if bundle.None? {
      return ZERO_BD;
    }

    for i := 0 to |whiteList|
      invariant Best(largestLiquidityETH, priceSoFar) == ScanPools(store, token.id, whiteList[..i])
    {
      ScanPoolsSnoc(store, token.id, whiteList, i);
      var poolAddress := whiteList[i];
      if poolAddress !in store.pools {
        continue;
      }
      var pool := store.pools[poolAddress];

      if pool.liquidity > ZERO_BI {
        if pool.token0 == token.id {
          largestLiquidityETH, priceSoFar := WeighCounterparty(store, fetch, poolAddress, pool.token1,
            pool.totalValueLockedToken1, pool.token1Price, largestLiquidityETH, priceSoFar,
            OfferViaToken1(store, poolAddress));
        }
        if pool.token1 == token.id {
          largestLiquidityETH, priceSoFar := WeighCounterparty(store, fetch, poolAddress, pool.token0,
            pool.totalValueLockedToken0, pool.token0Price, largestLiquidityETH, priceSoFar,
            OfferViaToken0(store, poolAddress));
        }
      }
    }
    assert whiteList[..|whiteList|] == whiteList;
    return priceSoFar;
  }

  // ---------------------------------------------------------------------------
  // Tracked amounts

  predicate Whitelisted(tokenId: string)
  {
    tokenId in WHITELIST_TOKENS
  }

  /**
   * The weight of a leg in the tracked amount: none when the leg is not
   * listed, once when both are, twice when it is the only listed leg.
   */
  function LegWeight(listed: bool, otherListed: bool): real
  {
    if !listed then 0.0 else if otherListed then 1.0 else 2.0
  }

  /**
   * The four-way tracking policy on two leg values: both legs listed, their
   * sum; one listed, twice its value; neither, zero.
   */
  function WhitelistPolicy(value0: real, value1: real, listed0: bool, listed1: bool): (tracked: real)
    ensures tracked == LegWeight(listed0, listed1) * value0 + LegWeight(listed1, listed0) * value1
  {
    match (listed0, listed1)
    case (true, true) => value0 + value1
    case (true, false) => 2.0 * value0
    case (false, true) => 2.0 * value1
    case (false, false) => 0.0
  }

  /** The policy treats the two legs alike. */
  lemma WhitelistPolicySymmetric(value0: real, value1: real, listed0: bool, listed1: bool)
    ensures WhitelistPolicy(value0, value1, listed0, listed1) == WhitelistPolicy(value1, value0, listed1, listed0)
  {
  }

  /** Converting both leg values by one rate converts the tracked amount by that rate. */
  lemma WhitelistPolicyScales(value0: real, value1: real, listed0: bool, listed1: bool, rate: real)
    ensures WhitelistPolicy(value0 * rate, value1 * rate, listed0, listed1)
         == WhitelistPolicy(value0, value1, listed0, listed1) * rate
  {
  }

  /**
   * The USD amount of a two-leg event that counts as tracked, pricing each leg
   * at its derived ETH times the bundle's ETH/USD rate.
   */
  function GetTrackedAmountUSD(store: Store, tokenAmount0: real, token0: Token, tokenAmount1: real, token1: Token): (r: real)
    requires store.bundle.Some?
    ensures r == WhitelistPolicy(
                   tokenAmount0 * (token0.derivedETH * store.bundle.value.ethPriceUSD),
                   tokenAmount1 * (token1.derivedETH * store.bundle.value.ethPriceUSD),
                   Whitelisted(token0.id), Whitelisted(token1.id))
  {
    var bundle := store.bundle.value;
    var price0USD := token0.derivedETH * bundle.ethPriceUSD;
    var price1USD := token1.derivedETH * bundle.ethPriceUSD;

    if Whitelisted(token0.id) && Whitelisted(token1.id) then
      tokenAmount0 * price0USD + tokenAmount1 * price1USD
    else if Whitelisted(token0.id) && !Whitelisted(token1.id) then
      tokenAmount0 * price0USD * 2.0
    else if !Whitelisted(token0.id) && Whitelisted(token1.id) then
      tokenAmount1 * price1USD * 2.0
    else
      ZERO_BD
  }

  /** Swapping the two legs leaves the tracked USD amount unchanged. */
  lemma TrackedAmountUSDSymmetric(store: Store, tokenAmount0: real, token0: Token, tokenAmount1: real, token1: Token)
    requires store.bundle.Some?
    ensures GetTrackedAmountUSD(store, tokenAmount0, token0, tokenAmount1, token1)
         == GetTrackedAmountUSD(store, tokenAmount1, token1, tokenAmount0, token0)
  {
  }

  /** The tracked ETH amount as written: zero, whatever the legs. */
  function GetTrackedAmountETH(tokenAmount0: real, token0: Token, tokenAmount1: real, token1: Token): (r: real)
    ensures r == 0.0
  {
    var derivedETH0 := token0.derivedETH;
    var derivedETH1 := token1.derivedETH;
    ZERO_BD
  }

  /**
   * The tracked ETH amount as its documentation describes it: the same
   * four-way policy as the USD amount, on the legs' derived ETH values.
   */
  function TrackedAmountETH(tokenAmount0: real, token0: Token, tokenAmount1: real, token1: Token): (r: real)
    ensures r == WhitelistPolicy(tokenAmount0 * token0.derivedETH, tokenAmount1 * token1.derivedETH,
                                 Whitelisted(token0.id), Whitelisted(token1.id))
  {
    var derivedETH0 := token0.derivedETH;
    var derivedETH1 := token1.derivedETH;
    if Whitelisted(token0.id) && Whitelisted(token1.id) then
      tokenAmount0 * derivedETH0 + tokenAmount1 * derivedETH1
    else if Whitelisted(token0.id) && !Whitelisted(token1.id) then
      tokenAmount0 * derivedETH0 * 2.0
    else if !Whitelisted(token0.id) && Whitelisted(token1.id) then
      tokenAmount1 * derivedETH1 * 2.0
    else
      ZERO_BD
  }

  /** The tracked USD amount is the documented tracked ETH amount at the bundle's rate. */
  lemma TrackedUSDIsTrackedETHAtRate(store: Store, tokenAmount0: real, token0: Token, tokenAmount1: real, token1: Token)
    requires store.bundle.Some?
    ensures GetTrackedAmountUSD(store, tokenAmount0, token0, tokenAmount1, token1)
         == TrackedAmountETH(tokenAmount0, token0, tokenAmount1, token1) * store.bundle.value.ethPriceUSD
  {
  }

  /**
   * The discrepancy: with both legs on the whitelist, one unit of WETH on each
   * side is a tracked amount of 2 ETH by the documented policy, but the
   * function as written reports 0.
   */
  lemma TrackedAmountETHDropsWhitelistedLegs(weth: Token)
    requires weth.id == WETH_ADDRESS && weth.derivedETH == 1.0
    ensures TrackedAmountETH(1.0, weth, 1.0, weth) == 2.0
    ensures GetTrackedAmountETH(1.0, weth, 1.0, weth) != TrackedAmountETH(1.0, weth, 1.0, weth)
  {
  }

  /** The four figures of a two-leg amount: tracked and untracked, in ETH and USD. */
  datatype AmountType = AmountType(eth: real, usd: real, ethUntracked: real, usdUntracked: real)

  /**
   * Tracked and untracked ETH and USD figures for a two-leg amount; all zero
   * while no bundle exists.
   */
  method GetAdjustedAmounts(store: Store, tokenAmount0: real, token0: Token, tokenAmount1: real, token1: Token)
    returns (amounts: AmountType)
    ensures store.bundle.None? ==> amounts == AmountType(0.0, 0.0, 0.0, 0.0)
    ensures store.bundle.Some? ==>
              amounts.ethUntracked == tokenAmount0 * token0.derivedETH + tokenAmount1 * token1.derivedETH
    ensures store.bundle.Some? ==>
              amounts.eth == WhitelistPolicy(tokenAmount0 * token0.derivedETH, tokenAmount1 * token1.derivedETH,
                                             Whitelisted(token0.id), Whitelisted(token1.id))
    ensures store.bundle.Some? ==>
              amounts.usd == amounts.eth * store.bundle.value.ethPriceUSD &&
              amounts.usdUntracked == amounts.ethUntracked * store.bundle.value.ethPriceUSD
    ensures store.bundle.Some? ==>
              amounts.eth == TrackedAmountETH(tokenAmount0, token0, tokenAmount1, token1) &&
              amounts.usd == GetTrackedAmountUSD(store, tokenAmount0, token0, tokenAmount1, token1)
  {
    var derivedETH0 := token0.derivedETH;
    var derivedETH1 := token1.derivedETH;
    var bundle := store.bundle;
    if bundle.None? {
      return AmountType(eth := 0.0, usd := 0.0, ethUntracked := 0.0, usdUntracked := 0.0);
    }

    var eth := ZERO_BD;
    var ethUntracked := tokenAmount0 * derivedETH0 + tokenAmount1 * derivedETH1;

    if Whitelisted(token0.id) && Whitelisted(token1.id) {
      eth := ethUntracked;
    }

    if Whitelisted(token0.id) && !Whitelisted(token1.id) {
      eth := tokenAmount0 * derivedETH0 * 2.0;
    }

    if !Whitelisted(token0.id) && Whitelisted(token1.id) {
      eth := tokenAmount1 * derivedETH1 * 2.0;
    }

    TrackedUSDIsTrackedETHAtRate(store, tokenAmount0, token0, tokenAmount1, token1);
    var usd := eth * bundle.value.ethPriceUSD;
    var usdUntracked := ethUntracked * bundle.value.ethPriceUSD;

    return AmountType(eth := eth, usd := usd, ethUntracked := ethUntracked, usdUntracked := usdUntracked);
  }
}
