/**
 * The entity records the pricing core reads and builds, restricted to the
 * fields it touches, and the entity store as immutable data: every `load`
 * becomes a map lookup and nothing in the core saves.
 */
module Schema {
  import opened Wrappers

  /** A token. Monetary fields are decimals (`real`), counters are integers. */
  datatype Token = Token(
    id: string,
    symbol: string,
    name: string,
    totalSupply: int,
    decimals: nat,
    derivedETH: real,
    derivedUSD: real,
    volume: real,
    volumeUSD: real,
    feesUSD: real,
    protocolFeesUSD: real,
    untrackedVolumeUSD: real,
    totalValueLocked: real,
    totalValueLockedUSD: real,
    totalValueLockedUSDUntracked: real,
    txCount: int,
    poolCount: int,
    whitelistPools: seq<string>)

  /** A pool: its two token ids, liquidity, quoted prices and per-side TVL. */
  datatype Pool = Pool(
    id: string,
    token0: string,
    token1: string,
    liquidity: int,
    token0Price: real,
    token1Price: real,
    totalValueLockedToken0: real,
    totalValueLockedToken1: real)

  /** The singleton holding the ETH/USD reference price. */
  datatype Bundle = Bundle(id: string, ethPriceUSD: real)

  /** The factory's aggregate counters. */
  datatype Factory = Factory(
    id: string,
    poolCount: int,
    totalVolumeETH: real,
    totalVolumeUSD: real,
    untrackedVolumeUSD: real,
    totalFeesUSD: real,
    totalFeesETH: real,
    totalProtocolFeesUSD: real,
    totalProtocolFeesETH: real,
    totalValueLockedETH: real,
    totalValueLockedUSD: real,
    totalValueLockedUSDUntracked: real,
    totalValueLockedETHUntracked: real,
    txCount: int,
    owner: string)

  /**
   * The entity store as the core sees it: pools and tokens keyed by their
   * lower-case address strings, and the bundle stored under id "1" if any.
   */
  datatype Store = Store(
    pools: map<string, Pool>,
    tokens: map<string, Token>,
    bundle: Option<Bundle>)
}
