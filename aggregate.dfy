/**
 The aggregated coin that `processCoinsSequentially` stores for each listing
 record: the merge of the listing record with its detail record, in which most
 fields are defaulted once more with `||`.
 */
module Aggregate {
  import opened Dict
  import opened Json
  import opened Retry
  import opened Details
  import opened Platforms

  datatype LivePrice = LivePrice(value: JsonValue, url: string)

  /** The persisted unit, field by field in the script's order. */
  datatype Coin = Coin(
    name: JsonValue,
    symbol: JsonValue,
    price: JsonValue,
    livePrice: LivePrice,
    rank: JsonValue,
    cap: JsonValue,
    addedDate: string,
    coinMarketCap: bool,
    coingecko: bool,
    chain: JsonValue,
    launchDate: JsonValue,
    token: bool,
    description: JsonValue,
    explorerLink: JsonValue,
    address: Entries<string>,
    website: JsonValue,
    reddit: JsonValue,
    telegram: JsonValue,
    twitter: JsonValue,
    insta: JsonValue,
    youtube: JsonValue,
    discord: JsonValue,
    coinLogo: JsonValue,
    coingeckoRank: JsonValue,
    coingeckoScore: JsonValue,
    developerScore: JsonValue,
    communityScore: JsonValue,
    liquidityScore: JsonValue,
    publicInterestScore: JsonValue,
    totalVolume: JsonValue,
    high24h: JsonValue,
    low24h: JsonValue,
    priceChange24h: JsonValue,
    priceChangePercentage24h: JsonValue,
    marketCapChange24h: JsonValue,
    marketCapChangePercentage24h: JsonValue,
    circulatingSupply: JsonValue,
    totalSupply: JsonValue,
    maxSupply: JsonValue,
    lastUpdated: JsonValue,
    platforms: Entries<string>)

  const LivePricePrefix: string := "https://api.coingecko.com/api/v3/simple/price?ids="
  const LivePriceSuffix: string := "&vs_currencies=usd"

  /** The object literal assigned to `coinData[uniqueId]`. `coin` is a listing
      record that is not `undefined` or `null` (for such a record the loop has
      already thrown at `coin.name`); `address` and `platforms` are the two results
      of `getAllPlatformAddresses(details.platforms)`; `addedDate` is the
      `Date.now().toString()` of the iteration. */
  function Merge(coin: JsonValue, d: Details, address: Entries<string>, platforms: Entries<string>, addedDate: string): Coin
    requires !Nullish(coin)
  {
    var md := d.marketData;
    Coin(
      Or(Member(coin, "name"), Str("")),
      Or(Member(coin, "symbol"), Str("")),
      Or(md.currentPrice, Str("0")),
      LivePrice(Or(md.currentPrice, Str("0")), LivePricePrefix + JsString(Member(coin, "id")) + LivePriceSuffix),
      Or(d.marketCapRank, Str("")),
      Or(md.marketCap, Str("0")),
      addedDate,
      true,
      true,
      Or(d.assetPlatformId, Str("")),
      Or(d.genesisDate, Str("")),
      true,
      d.description,
      Or(d.blockchainSite, Str("")),
      address,
      Or(d.homepage, Str("")),
      d.reddit,
      d.telegram,
      d.twitter,
      d.insta,
      d.youtube,
      d.discord,
      Or(d.image, Str("")),
      Or(d.coingeckoRank, Str("")),
      Or(d.coingeckoScore, Str("")),
      Or(d.developerScore, Str("")),
      Or(d.communityScore, Str("")),
      Or(d.liquidityScore, Str("")),
      Or(d.publicInterestScore, Str("")),
      Or(md.totalVolume, Num(0)),
      Or(md.high24h, Num(0)),
      Or(md.low24h, Num(0)),
      Or(md.priceChange24h, Num(0)),
      Or(md.priceChangePercentage24h, Num(0)),
      Or(md.marketCapChange24h, Num(0)),
      Or(md.marketCapChangePercentage24h, Num(0)),
      Or(md.circulatingSupply, Num(0)),
      Or(md.totalSupply, Num(0)),
      Or(md.maxSupply, Num(0)),
      Or(d.lastUpdated, Str("")),
      platforms)
  }

  /** No field of the coin is `undefined`. */
  predicate Defined(c: Coin) {
    && c.name != Undefined && c.symbol != Undefined && c.price != Undefined
    && c.livePrice.value != Undefined && c.rank != Undefined && c.cap != Undefined
    && c.chain != Undefined && c.launchDate != Undefined && c.description != Undefined
    && c.explorerLink != Undefined && c.website != Undefined && c.reddit != Undefined
    && c.telegram != Undefined && c.twitter != Undefined && c.insta != Undefined
    && c.youtube != Undefined && c.discord != Undefined && c.coinLogo != Undefined
    && c.coingeckoRank != Undefined && c.coingeckoScore != Undefined && c.developerScore != Undefined
    && c.communityScore != Undefined && c.liquidityScore != Undefined && c.publicInterestScore != Undefined
    && c.totalVolume != Undefined && c.high24h != Undefined && c.low24h != Undefined
    && c.priceChange24h != Undefined && c.priceChangePercentage24h != Undefined
    && c.marketCapChange24h != Undefined && c.marketCapChangePercentage24h != Undefined
    && c.circulatingSupply != Undefined && c.totalSupply != Undefined && c.maxSupply != Undefined
    && c.lastUpdated != Undefined
  }

  /** Merging a normalised detail record leaves no field `undefined`. */
  lemma MergeDefined(coin: JsonValue, d: Details, address: Entries<string>, platforms: Entries<string>, addedDate: string)
    requires !Nullish(coin) && Normalised(d)
    ensures Defined(Merge(coin, d, address, platforms, addedDate))
  {
  }

  /** With a normalised detail record the merge copies every detail field unchanged:
      each `details.f || ''` and `details.market_data.f || 0` gives back `details.f`,
      which is already truthy or that default. Only `price`, `livePrice.value` and
      `cap` differ: a falsy figure (the number 0) becomes the string '0'. The listing
      fields follow `coin.name || ''` and `coin.symbol || ''`, and the live-price URL
      embeds `coin.id`. */
  lemma MergeFields(coin: JsonValue, d: Details, address: Entries<string>, platforms: Entries<string>, addedDate: string)
    requires !Nullish(coin) && Normalised(d)
    ensures var c := Merge(coin, d, address, platforms, addedDate);
      var md := d.marketData;
      && OrRule(c.name, Member(coin, "name"), Str(""))
      && OrRule(c.symbol, Member(coin, "symbol"), Str(""))
      && OrRule(c.price, md.currentPrice, Str("0"))
      && c.livePrice == LivePrice(c.price, LivePricePrefix + JsString(Member(coin, "id")) + LivePriceSuffix)
      && OrRule(c.cap, md.marketCap, Str("0"))
      && c.rank == d.marketCapRank && c.chain == d.assetPlatformId && c.launchDate == d.genesisDate
      && c.description == d.description && c.explorerLink == d.blockchainSite && c.website == d.homepage
      && c.reddit == d.reddit && c.telegram == d.telegram && c.twitter == d.twitter
      && c.insta == d.insta && c.youtube == d.youtube && c.discord == d.discord
      && c.coinLogo == d.image
      && c.coingeckoRank == d.coingeckoRank && c.coingeckoScore == d.coingeckoScore
      && c.developerScore == d.developerScore && c.communityScore == d.communityScore
      && c.liquidityScore == d.liquidityScore && c.publicInterestScore == d.publicInterestScore
      && c.totalVolume == md.totalVolume && c.high24h == md.high24h && c.low24h == md.low24h
      && c.priceChange24h == md.priceChange24h && c.priceChangePercentage24h == md.priceChangePercentage24h
      && c.marketCapChange24h == md.marketCapChange24h
      && c.marketCapChangePercentage24h == md.marketCapChangePercentage24h
      && c.circulatingSupply == md.circulatingSupply && c.totalSupply == md.totalSupply
      && c.maxSupply == md.maxSupply && c.lastUpdated == d.lastUpdated
      && c.address == address && c.platforms == platforms && c.addedDate == addedDate
      && c.coinMarketCap && c.coingecko && c.token
  {
  }

  /** Every detail-derived field of the coin at its documented default: empty
      strings, zero numbers, empty address maps, the placeholder description; note
      that `price`, `livePrice.value` and `cap` default to the string '0', not to
      the number 0. */
  predicate DetailFieldsDefault(c: Coin) {
    && c.price == Str("0") && c.livePrice.value == Str("0") && c.cap == Str("0")
    && c.rank == Str("") && c.chain == Str("") && c.launchDate == Str("")
    && c.description == Str(NoDescription) && c.explorerLink == Str("")
    && c.address == [] && c.website == Str("") && c.reddit == Str("")
    && c.telegram == Str("") && c.twitter == Str("") && c.insta == Str("")
    && c.youtube == Str("") && c.discord == Str("") && c.coinLogo == Str("")
    && c.coingeckoRank == Str("") && c.coingeckoScore == Str("") && c.developerScore == Str("")
    && c.communityScore == Str("") && c.liquidityScore == Str("") && c.publicInterestScore == Str("")
    && c.totalVolume == Num(0) && c.high24h == Num(0) && c.low24h == Num(0)
    && c.priceChange24h == Num(0) && c.priceChangePercentage24h == Num(0)
    && c.marketCapChange24h == Num(0) && c.marketCapChangePercentage24h == Num(0)
    && c.circulatingSupply == Num(0) && c.totalSupply == Num(0) && c.maxSupply == Num(0)
    && c.lastUpdated == Str("") && c.platforms == []
  }

  /** What the remote side supplies to the loop: the answers of the detail endpoint
      for the coin at each index, the identifier `generateUniqueId` returns in the
      iteration for each index, and the clock reading of each iteration. */
  datatype Environment = Environment(details: nat -> Answers, ids: nat -> string, clock: nat -> string)

  /** The detail record the loop obtains for coin `i`. */
  function DetailsAt(env: Environment, i: nat): Details {
    DetailFetch(env.details(i), DefaultRetries)
  }

  /** The aggregated coin the loop stores for coin `i`. */
  function CoinAt(coins: seq<JsonValue>, i: nat, env: Environment): Coin
    requires i < |coins| && !Nullish(coins[i])
  {
    var d := DetailsAt(env, i);
    var p := ValidPlatforms(d.platforms);
    Merge(coins[i], d, p, p, env.clock(i))
  }

  /** A coin whose detail fetch failed keeps its listing fields and has every
      detail-derived field at its default. */
  lemma FailedDetailGivesDefaults(coins: seq<JsonValue>, i: nat, env: Environment)
    requires i < |coins| && !Nullish(coins[i])
    requires DetailsAt(env, i) == Defaults
    ensures DetailFieldsDefault(CoinAt(coins, i, env))
    ensures CoinAt(coins, i, env).name == Or(Member(coins[i], "name"), Str(""))
    ensures CoinAt(coins, i, env).symbol == Or(Member(coins[i], "symbol"), Str(""))
  {
    assert ValidPlatforms(Obj([])) == [];
  }

  /** Every aggregated coin is fully defined. */
  lemma CoinAtDefined(coins: seq<JsonValue>, i: nat, env: Environment)
    requires i < |coins| && !Nullish(coins[i])
    ensures Defined(CoinAt(coins, i, env))
  {
    DetailFetchNormalised(env.details(i), DefaultRetries);
  }
}
