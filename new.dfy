/**
 * Default-record constructors. Each builds a complete record with every
 * financial field zeroed, so that a lookup that finds nothing can be replaced
 * by a record rather than by an absent value. Neither saves what it builds.
 */
module NewEntities {
  import opened Numeric
  import opened Schema

  /** The all-zero address that a fresh factory records as its owner. */
  const ADDRESS_ZERO: string := "0x0000000000000000000000000000000000000000"

  /**
   * The token-metadata contract calls, one result per address. Each is
   * best-effort on chain and returns a default on failure; here they are
   * whatever functions the caller supplies.
   */
  datatype Fetchers = Fetchers(
    symbol: string -> string,
    name: string -> string,
    totalSupply: string -> int,
    decimals: string -> nat)

  /** A fresh factory record with id `factoryAddress`, all counters and totals zero. */
  method CreateEmptyFactory(factoryAddress: string) returns (factory: Factory)
    ensures factory.id == factoryAddress
    ensures factory.owner == ADDRESS_ZERO
    ensures factory.poolCount == 0 && factory.txCount == 0
    ensures factory.totalVolumeETH == 0.0 && factory.totalVolumeUSD == 0.0
    ensures factory.untrackedVolumeUSD == 0.0
    ensures factory.totalFeesUSD == 0.0 && factory.totalFeesETH == 0.0
    ensures factory.totalProtocolFeesUSD == 0.0 && factory.totalProtocolFeesETH == 0.0
    ensures factory.totalValueLockedETH == 0.0 && factory.totalValueLockedUSD == 0.0
    ensures factory.totalValueLockedUSDUntracked == 0.0
    ensures factory.totalValueLockedETHUntracked == 0.0
  {
    factory := Factory(
      id := factoryAddress,
      poolCount := ZERO_BI,
      totalVolumeETH := ZERO_BD,
      totalVolumeUSD := ZERO_BD,
      untrackedVolumeUSD := ZERO_BD,
      totalFeesUSD := ZERO_BD,
      totalFeesETH := ZERO_BD,
      totalProtocolFeesUSD := ZERO_BD,
      totalProtocolFeesETH := ZERO_BD,
      totalValueLockedETH := ZERO_BD,
      totalValueLockedUSD := ZERO_BD,
      totalValueLockedUSDUntracked := ZERO_BD,
      totalValueLockedETHUntracked := ZERO_BD,
      txCount := ZERO_BI,
      owner := ADDRESS_ZERO);
  }

  /**
   * A fresh token record for `tokenAddress` (its lower-case hex string):
   * metadata from the fetchers for that address, every price, volume, fee
   * and TVL field zero, no counts and no whitelist pools.
   */
  method CreateEmptyToken(tokenAddress: string, fetch: Fetchers) returns (token: Token)
    ensures token.id == tokenAddress
    ensures token.symbol == fetch.symbol(tokenAddress)
    ensures token.name == fetch.name(tokenAddress)
    ensures token.totalSupply == fetch.totalSupply(tokenAddress)
    ensures token.decimals == fetch.decimals(tokenAddress)
    ensures token.derivedETH == 0.0 && token.derivedUSD == 0.0
    ensures token.volume == 0.0 && token.volumeUSD == 0.0
    ensures token.feesUSD == 0.0 && token.protocolFeesUSD == 0.0
    ensures token.untrackedVolumeUSD == 0.0
    ensures token.totalValueLocked == 0.0 && token.totalValueLockedUSD == 0.0
    ensures token.totalValueLockedUSDUntracked == 0.0
    ensures token.txCount == 0 && token.poolCount == 0
    ensures token.whitelistPools == []
  {
    token := Token(
      id := tokenAddress,
      symbol := fetch.symbol(tokenAddress),
      name := fetch.name(tokenAddress),
      totalSupply := fetch.totalSupply(tokenAddress),
      decimals := fetch.decimals(tokenAddress),
      derivedETH := ZERO_BD,
      derivedUSD := ZERO_BD,
      volume := ZERO_BD,
      volumeUSD := ZERO_BD,
      feesUSD := ZERO_BD,
      protocolFeesUSD := ZERO_BD,
      untrackedVolumeUSD := ZERO_BD,
      totalValueLocked := ZERO_BD,
      totalValueLockedUSD := ZERO_BD,
      totalValueLockedUSDUntracked := ZERO_BD,
      txCount := ZERO_BI,
      poolCount := ZERO_BI,
      whitelistPools := []);
  }
}
