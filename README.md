# Token pricing core of the exchange-v3 subgraph, in Dafny

This project models how the exchange-v3 subgraph prices tokens and how it decides which part of a two-leg amount counts as "tracked". The model proves the properties that pricing promises.

- **Reference price.** `GetEthPriceInUSD` reads the ETH/USD price from the `token1Price` of the USDC/WETH 0.3% pool.
- **Square-root prices.** `SqrtPriceX96ToTokenPrices` turns a pool's Q64.96 square-root price into the two token prices, rescaled by the tokens' decimals.
- **Derived ETH price.** `FindEthPerToken` derives a token's ETH price. It scans the token's whitelist pools in stored order and skips pools that are missing or have no liquidity. It weighs the ETH locked on the counter-party's side of each pool, and keeps the first price whose locked ETH strictly beats both the largest seen so far and `MINIMUM_ETH_LOCKED`.
- **Tracked amounts.** `GetTrackedAmountUSD` and `GetAdjustedAmounts` apply the whitelist policy:
  - both tokens whitelisted: the sum of the two legs;
  - one token whitelisted: twice that leg;
  - neither whitelisted: zero.
- **Tracked ETH amount.** `GetTrackedAmountETH` returns 0 for every input; see Findings.
- **Default records.** `CreateEmptyToken` and `CreateEmptyFactory` build all-zero records. The scan synthesises a default record for a missing counter-party, and that record's `derivedETH` is 0.

How the source's types are modelled:

- `BigDecimal` becomes exact `real` and `BigInt` becomes `int`.
- The entity store is immutable data (`Schema.Store`): pools and tokens are maps keyed by lower-case address strings, and the bundle with id `"1"` is an `Option`.
- Nothing in the core saves an entity. Every operation takes the store as a value, so the store is unchanged after any call, and two calls on the same store give the same result.

Modules:

- `Wrappers`: `Option`.
- `Schema`: the `Token`, `Pool`, `Bundle` and `Factory` records (only the fields the core touches) and the `Store`.
- `Numeric`: the decimal helpers the pricing code imports (`safeDiv`, `exponentToBigDecimal`, the zero and one constants) and integer powers for 2^192.
- `NewEntities`: `new.ts`.
- `Pricing`: `pricing.ts`.

The scan is specified at two levels:

1. **Pool level.** `PoolStep` and `ScanPools` mirror the loop one pool at a time. `FindEthPerToken` is proved equal to `EthPerToken`, which is defined by `ScanPools`.
2. **Offer level.** Each eligible pool side is an "offer" (`Candidate`). The offers in list order are `Candidates`, and `Scan` folds the comparison over them. `ScanPoolsIsScanOfCandidates` shows the two levels agree.

Against the offer level, `IsFirstBest` is an independent reference definition: the first offer that qualifies and whose locked ETH no other offer exceeds. `ScanKeepsFirstBest` proves that the scan returns exactly that offer's price, or 0 when no offer qualifies.

## Model

| member | source | states |
|---|---|---|
| `Numeric.SafeDiv` | subgraphs/exchange-v3/template/utils/pricing.ts:24 | Safe division as `price0` uses it: zero when the divisor is zero, otherwise a quotient `r` with `r * b == a` |
| `Numeric.ExponentToBigDecimal` | subgraphs/exchange-v3/template/utils/pricing.ts:23 | The decimal scale 10^n used for token decimals is at least 1 (so dividing by it is always defined) |
| `Numeric.Pow` | subgraphs/exchange-v3/template/utils/pricing.ts:20 | Integer power as in `BigInt.pow`; at least 1 for a base of at least 1 |
| `Numeric.PowAdd` | subgraphs/exchange-v3/template/utils/pricing.ts:20 | Powers add exponents: b^(m+n) = b^m · b^n |
| `Pricing.PowersOfTwo` | subgraphs/exchange-v3/template/utils/pricing.ts:20 | 2^192 equals the 58-digit literal the model uses |
| `Pricing.Q192IsTwoToThe192` | subgraphs/exchange-v3/template/utils/pricing.ts:20 | The constant `Q192` is exactly `BigInt(2).pow(192)` |
| `Pricing.SqrtPriceX96ToTokenPrices` | subgraphs/exchange-v3/template/utils/pricing.ts:21-26 | Returns two prices. `price1 · 2^192 · 10^dec1 = sqrtP² · 10^dec0`, and `price1 ≥ 0`. `price1 = 0` exactly when `sqrtP = 0`, and then `price0 = 0`; otherwise `price0 · price1 = 1` |
| `Pricing.SquareZero` | subgraphs/exchange-v3/template/utils/pricing.ts:22 | The square of the square-root price is non-negative, and zero only for a zero input |
| `Pricing.PricesOfSquare` | subgraphs/exchange-v3/template/utils/pricing.ts:22-25 | From a non-negative squared price: `price1 · q · e1 = num · e0` with `price1 ≥ 0`, and `price1 = 0` exactly when `num = 0`, in which case `price0 = 0`; otherwise `price0 · price1 = 1` |
| `Pricing.GetEthPriceInUSD` | subgraphs/exchange-v3/template/utils/pricing.ts:28-36 | The ETH price is the anchor pool's `token1Price` when that pool is stored, and 0 otherwise |
| `Pricing.EthPriceReadsOnlyAnchorPool` | subgraphs/exchange-v3/template/utils/pricing.ts:30-35 | Two stores that agree on the anchor pool's presence and its `token1Price` give the same ETH price |
| `Pricing.CounterpartyDerivedETH` | subgraphs/exchange-v3/template/utils/pricing.ts:68-71 | A stored counter-party contributes its loaded `derivedETH`, and one with no stored record is priced at 0 ETH, as its synthesised default record is |
| `Pricing.OfferViaToken1` | subgraphs/exchange-v3/template/utils/pricing.ts:66-79 | The offer of a pool in which the token is token0. Its counter-party is token1, its locked ETH is `totalValueLockedToken1` times token1's derived ETH, and its price is `token1Price` times token1's derived ETH |
| `Pricing.OfferViaToken0` | subgraphs/exchange-v3/template/utils/pricing.ts:80-92 | The offer of a pool in which the token is token1. Its counter-party is token0, its locked ETH is `totalValueLockedToken0` times token0's derived ETH, and its price is `token0Price` times token0's derived ETH |
| `Pricing.Offer` | subgraphs/exchange-v3/template/utils/pricing.ts:74-78 | One comparison of the scan. An offer whose locked ETH strictly beats both the running maximum and the floor replaces the state with its locked ETH and price. The largest locked ETH never decreases. The state either stays the same or becomes the offer's locked ETH and price, and that happens only above the floor. An offer that does not exceed the current maximum (a tie included) changes nothing |
| `Pricing.PoolStep` | subgraphs/exchange-v3/template/utils/pricing.ts:59-93 | One loop iteration. The largest locked ETH never decreases, and any change leaves it above the floor. A missing pool, a pool without liquidity, and a pool that does not hold the token all leave the state unchanged |
| `Pricing.ScanPools` | subgraphs/exchange-v3/template/utils/pricing.ts:49-94 | The loop's running state after a prefix of the pool list: still at (0, 0), or holding a locked-ETH figure above the floor, and never negative |
| `Pricing.EthPerToken` | subgraphs/exchange-v3/template/utils/pricing.ts:42-96 | The price the loop derives: 1 for WETH, and 0 for any other token while Bundle "1" is missing. Otherwise it is the `priceSoFar` of the pool scan |
| `Pricing.WeighCounterparty` | subgraphs/exchange-v3/template/utils/pricing.ts:66-79 | One side of a pool: loads or synthesises the counter-party. It keeps the new price exactly when the locked ETH strictly beats both the running maximum and the floor |
| `Pricing.FindEthPerToken` | subgraphs/exchange-v3/template/utils/pricing.ts:42-96 | Returns 1 for WETH before any lookup, and 0 for any other token while Bundle "1" is missing. Otherwise it returns the pool-by-pool scan of the whitelist pools in stored order |
| `Pricing.ScanPoolCandidates` | subgraphs/exchange-v3/template/utils/pricing.ts:59-93 | Comparing a pool's offers one by one is one iteration of the loop over that pool, including the skip of missing or empty pools |
| `Pricing.ScanPoolsIsScanOfCandidates` | subgraphs/exchange-v3/template/utils/pricing.ts:58-94 | The loop's pool-by-pool scan equals the fold of the strict comparison over all offers in list order |
| `Pricing.FirstBestUnique` | subgraphs/exchange-v3/template/utils/pricing.ts:74 | At most one offer is the first maximal qualifying offer |
| `Pricing.ScanState` | subgraphs/exchange-v3/template/utils/pricing.ts:49-91 | After any list of offers, the scan is still at (0, 0) with nothing qualifying, or it holds the locked ETH and price of the first maximal qualifying offer |
| `Pricing.ScanKeepsFirstBest` | subgraphs/exchange-v3/template/utils/pricing.ts:73-91 | No qualifying offer gives (0, 0). Otherwise a first maximal qualifying offer exists, and the scan ends on its locked ETH and price |
| `Pricing.CandidatesFromEligiblePools` | subgraphs/exchange-v3/template/utils/pricing.ts:58-92 | Every offer comes from a pool in the token's list that is stored and has liquidity > 0, with the token on the opposite side. Its locked ETH and price are that pool's TVL and quote times the counter-party's derived ETH |
| `Pricing.EligiblePoolsOffer` | subgraphs/exchange-v3/template/utils/pricing.ts:58-92 | Conversely, a listed pool that is stored and has liquidity > 0 yields an offer for each side the token is on |
| `Pricing.MissingCounterpartyNeverQualifies` | subgraphs/exchange-v3/template/utils/pricing.ts:66-91 | An offer whose counter-party has no stored record locks 0 ETH and can never set the price |
| `Pricing.EthPerTokenSelectsMostLockedPool` | subgraphs/exchange-v3/template/utils/pricing.ts:42-95 | For a non-WETH token with a bundle, the result is 0 when no offer qualifies. Otherwise it is the price of the first offer with the largest locked ETH, which exceeds the floor and comes from an eligible listed pool |
| `Pricing.TiesGoToEarlierOffer` | subgraphs/exchange-v3/template/utils/pricing.ts:74-77 | Of two offers with equal locked ETH, the later one is never the winner, and the earlier one wins when it is maximal |
| `Pricing.NoPoolsNoPrice` | subgraphs/exchange-v3/template/utils/pricing.ts:58-95 | A non-WETH token with no whitelist pools is priced at 0 |
| `Pricing.WhitelistPolicy` | subgraphs/exchange-v3/template/utils/pricing.ts:114-130 | The four-way policy as leg weights: a leg that is not whitelisted counts 0 times. A whitelisted leg counts once when the other leg is whitelisted too, and twice when it is the only one |
| `Pricing.WhitelistPolicySymmetric` | subgraphs/exchange-v3/template/utils/pricing.ts:114-130 | The four-way whitelist policy treats the two legs alike |
| `Pricing.WhitelistPolicyScales` | subgraphs/exchange-v3/template/utils/pricing.ts:195-197 | Converting both legs at one rate converts the tracked amount at that rate |
| `Pricing.GetTrackedAmountUSD` | subgraphs/exchange-v3/template/utils/pricing.ts:104-131 | With `pᵢ = derivedETHᵢ · ethPriceUSD`: both legs whitelisted gives `a0·p0 + a1·p1`; only token0 gives `2·a0·p0`; only token1 gives `2·a1·p1`; neither gives 0 |
| `Pricing.TrackedAmountUSDSymmetric` | subgraphs/exchange-v3/template/utils/pricing.ts:114-127 | Swapping the two legs leaves the tracked USD amount unchanged |
| `Pricing.GetTrackedAmountETH` | subgraphs/exchange-v3/template/utils/pricing.ts:139-150 | As written, it returns 0 for every input |
| `Pricing.TrackedAmountETH` | subgraphs/exchange-v3/template/utils/pricing.ts:133-138 | The documented tracked ETH amount: the four-way policy on the legs' derived ETH values |
| `Pricing.TrackedUSDIsTrackedETHAtRate` | subgraphs/exchange-v3/template/utils/pricing.ts:104-131 | The tracked USD amount equals the documented tracked ETH amount times the bundle's ETH/USD rate |
| `Pricing.TrackedAmountETHDropsWhitelistedLegs` | subgraphs/exchange-v3/template/utils/pricing.ts:139-150 | For one unit of WETH on each leg, the documented amount is 2 ETH, but the function as written returns 0 |
| `Pricing.GetAdjustedAmounts` | subgraphs/exchange-v3/template/utils/pricing.ts:159-200 | All four fields are 0 without a bundle. Otherwise `ethUntracked = a0·d0 + a1·d1`, and `eth` follows the four-way policy, so the three sequential `if`s act as mutually exclusive cases. Finally `usd = eth · ethPriceUSD` and `usdUntracked = ethUntracked · ethPriceUSD`. So `eth` is the documented tracked ETH amount and `usd` agrees with `getTrackedAmountUSD` |
| `NewEntities.CreateEmptyFactory` | subgraphs/exchange-v3/template/utils/new.ts:6-24 | The factory has the given factory address as its id and `ADDRESS_ZERO` as its owner. The pool count, transaction count and every volume, fee and TVL total are 0 |
| `NewEntities.CreateEmptyToken` | subgraphs/exchange-v3/template/utils/new.ts:26-47 | The token's id is its address. Symbol, name, total supply and decimals are the fetchers' results for that address. Derived prices, volumes, fees, TVL and counts are 0, and `whitelistPools` is empty |

## Left out

- **Token-metadata fetchers.** `fetchTokenSymbol`, `fetchTokenName`, `fetchTokenTotalSupply` and `fetchTokenDecimals` are contract calls in `token.ts`, which is not part of this model. They are supplied as the functions in `NewEntities.Fetchers`.
- **The graph-ts entity runtime.** This covers `Pool.load`, `Token.load`, `Bundle.load`, `save`, `Address.fromString` and `toHexString`. Loads are map lookups, and an address is its lower-case hex string (the round trip through `Address` is the identity).
- **`safeDiv` and `exponentToBigDecimal`.** They live in `utils/index.ts`, which is not part of this model. They are given the behaviour their names promise: zero on a zero divisor, and 10^n.
- **graph-ts `BigDecimal` rounding.** graph-node rounds the result of every `BigDecimal` operation (sum, product and quotient) to 34 significant digits; the model uses exact reals. The following facts hold only in exact arithmetic:
  - `SqrtPriceX96ToTokenPrices`: the scaling equation `price1 · 2^192 · 10^dec1 = sqrtP² · 10^dec0`, because `price1` is rounded after each of the three operations at pricing.ts:23; and `price0 · price1 = 1`.
  - `TrackedUSDIsTrackedETHAtRate` and `GetAdjustedAmounts` (`usd` equal to `GetTrackedAmountUSD`): both regroup `a · (d · rate) · 2` against `a · d · 2 · rate`, so after rounding the two sides may differ in the last digit.
  - `FindEthPerToken`, `Offer` and the scan lemmas: the comparisons at pricing.ts:74 and 87 act on rounded `ethLocked` values. Two pools whose locked ETH differs only beyond the 34th significant digit tie in the source, so the earlier pool wins. The model compares exact values and picks the later, larger one.
- **`constants.ts`**, which is not part of this model.
  - `ZERO_BD`, `ONE_BD` and `ZERO_BI` are 0, 1 and 0.
  - `ADDRESS_ZERO` is taken to be the all-zero 20-byte address.
  - `FACTORY_ADDRESS` is a per-deployment template value, so `CreateEmptyFactory` takes it as a parameter.
- **Schema fields.** The generated schema is not part of this model. The records carry only the fields the core reads or sets.
- **Token decimals.** `Token.decimals` is a `nat`: the decimal precision is a non-negative integer. `exponentToBigDecimal` of a negative value is not modelled.
- **Event handlers and persistence.** The code that calls these functions and stores their results is not part of this model.
- GetTrackedAmountUSD: requires the bundle to exist. The source dereferences `Bundle.load("1")` without a null check, and the model does not capture the runtime abort when the bundle is missing.
- **`MINIMUM_ETH_LOCKED`.** It is the constant 0, as `let MINIMUM_ETH_LOCKED` at pricing.ts:18 sets it. `Qualifies` still spells out both comparisons of the code (above the running maximum's start of 0, and above the floor).

## Findings

| source | as written | input that shows it | evidently intended | confidence | as-written member | corrected member |
|---|---|---|---|---|---|---|
| subgraphs/exchange-v3/template/utils/pricing.ts:139-150 | `getTrackedAmountETH` reads both tokens' `derivedETH` and then returns 0 whatever the whitelist status | one unit of WETH (derivedETH 1) on both legs: both legs are whitelisted, so the documented policy gives 2, but the function returns 0 | the four-way whitelist policy of its doc comment (lines 133-138) on ETH values, which `getAdjustedAmounts` does implement for its `eth` field | medium, not executed | `Pricing.GetTrackedAmountETH` (with `Pricing.TrackedAmountETHDropsWhitelistedLegs`) | `Pricing.TrackedAmountETH` (with `Pricing.TrackedUSDIsTrackedETHAtRate`; `GetAdjustedAmounts` agrees with it through `WhitelistPolicy`) |

The doc comment of `getTrackedAmountETH` (pricing.ts:133-138) describes the four-way policy, but the body returns 0. The model follows the code, and the finding above records the gap.
