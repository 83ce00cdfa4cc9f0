/**
 `fetchCoinDetails`: the per-coin detail fetch (rate-limit retry with a factor of 2)
 and the normalisation of the detail response, in which every field is defaulted
 with JavaScript `||`. The all-defaults record, which coins.cjs writes out in full
 at both of its failure exits, is the single constant `Defaults`.
 */
module Details {
  import opened Opt
  import opened Json
  import opened Retry

  /** The `market_data` part of a detail record (prices, volume, supply, 24 h changes). */
  datatype MarketData = MarketData(
    currentPrice: JsonValue,
    marketCap: JsonValue,
    totalVolume: JsonValue,
    high24h: JsonValue,
    low24h: JsonValue,
    priceChange24h: JsonValue,
    priceChangePercentage24h: JsonValue,
    marketCapChange24h: JsonValue,
    marketCapChangePercentage24h: JsonValue,
    circulatingSupply: JsonValue,
    totalSupply: JsonValue,
    maxSupply: JsonValue)

  /** The record `fetchCoinDetails` returns, field by field in the script's order. */
  datatype Details = Details(
    reddit: JsonValue,
    telegram: JsonValue,
    twitter: JsonValue,
    insta: JsonValue,
    youtube: JsonValue,
    discord: JsonValue,
    description: JsonValue,
    homepage: JsonValue,
    blockchainSite: JsonValue,
    image: JsonValue,
    marketCapRank: JsonValue,
    coingeckoRank: JsonValue,
    coingeckoScore: JsonValue,
    developerScore: JsonValue,
    communityScore: JsonValue,
    liquidityScore: JsonValue,
    publicInterestScore: JsonValue,
    marketData: MarketData,
    lastUpdated: JsonValue,
    genesisDate: JsonValue,
    icoData: JsonValue,
    assetPlatformId: JsonValue,
    platforms: JsonValue)

  const NoDescription: string := "No description available"
  const TelegramPrefix: string := "https://t.me/"
  const TwitterPrefix: string := "https://twitter.com/"

  const ZeroMarketData: MarketData :=
    MarketData(Num(0), Num(0), Num(0), Num(0), Num(0), Num(0), Num(0), Num(0), Num(0), Num(0), Num(0), Num(0))

  /** The record returned when the detail fetch fails: every string empty, every
      market number 0, `ico_data` and `platforms` empty objects, and the placeholder
      description. */
  const Defaults: Details :=
    Details(Str(""), Str(""), Str(""), Str(""), Str(""), Str(""), Str(NoDescription), Str(""), Str(""), Str(""),
            Str(""), Str(""), Str(""), Str(""), Str(""), Str(""), Str(""),
            ZeroMarketData,
            Str(""), Str(""), Obj([]), Str(""), Obj([]))

  /** `v` is what `x || dflt` can produce: a truthy value or the default itself. */
  predicate DefaultedTo(v: JsonValue, dflt: JsonValue) {
    Truthy(v) || v == dflt
  }

  /** The rule of `x || dflt`: the result `v` is `x` when `x` is truthy and `dflt`
      otherwise. */
  predicate OrRule(v: JsonValue, x: JsonValue, dflt: JsonValue) {
    && (Truthy(x) ==> v == x)
    && (!Truthy(x) ==> v == dflt)
  }

  predicate MarketNormalised(m: MarketData) {
    var z := ZeroMarketData;
    && DefaultedTo(m.currentPrice, z.currentPrice)
    && DefaultedTo(m.marketCap, z.marketCap)
    && DefaultedTo(m.totalVolume, z.totalVolume)
    && DefaultedTo(m.high24h, z.high24h)
    && DefaultedTo(m.low24h, z.low24h)
    && DefaultedTo(m.priceChange24h, z.priceChange24h)
    && DefaultedTo(m.priceChangePercentage24h, z.priceChangePercentage24h)
    && DefaultedTo(m.marketCapChange24h, z.marketCapChange24h)
    && DefaultedTo(m.marketCapChangePercentage24h, z.marketCapChangePercentage24h)
    && DefaultedTo(m.circulatingSupply, z.circulatingSupply)
    && DefaultedTo(m.totalSupply, z.totalSupply)
    && DefaultedTo(m.maxSupply, z.maxSupply)
  }

  /** Every field is truthy or equal to that field of `Defaults`; in particular no
      field is `undefined`. */
  predicate Normalised(r: Details) {
    var z := Defaults;
    && DefaultedTo(r.reddit, z.reddit)
    && DefaultedTo(r.telegram, z.telegram)
    && DefaultedTo(r.twitter, z.twitter)
    && DefaultedTo(r.insta, z.insta)
    && DefaultedTo(r.youtube, z.youtube)
    && DefaultedTo(r.discord, z.discord)
    && DefaultedTo(r.description, z.description)
    && DefaultedTo(r.homepage, z.homepage)
    && DefaultedTo(r.blockchainSite, z.blockchainSite)
    && DefaultedTo(r.image, z.image)
    && DefaultedTo(r.marketCapRank, z.marketCapRank)
    && DefaultedTo(r.coingeckoRank, z.coingeckoRank)
    && DefaultedTo(r.coingeckoScore, z.coingeckoScore)
    && DefaultedTo(r.developerScore, z.developerScore)
    && DefaultedTo(r.communityScore, z.communityScore)
    && DefaultedTo(r.liquidityScore, z.liquidityScore)
    && DefaultedTo(r.publicInterestScore, z.publicInterestScore)
    && MarketNormalised(r.marketData)
    && DefaultedTo(r.lastUpdated, z.lastUpdated)
    && DefaultedTo(r.genesisDate, z.genesisDate)
    && DefaultedTo(r.icoData, z.icoData)
    && DefaultedTo(r.assetPlatformId, z.assetPlatformId)
    && DefaultedTo(r.platforms, z.platforms)
  }

  /** `prefix${id}` when `id` is truthy, else `''` (telegram and twitter links). */
  function Prefixed(prefix: string, id: JsonValue): JsonValue {
    if Truthy(id) then Str(prefix + JsString(id)) else Str("")
  }

  /** `v && v[0] ? v[0] : ''` (homepage and blockchain_site). */
  function FirstLink(v: JsonValue): JsonValue {
    if !Truthy(v) then Str("")
    else
      var first := Element(v, 0);
      if Truthy(first) then first else Str("")
  }

  /** `xs.find(link => link.includes('discord'))`: the first element whose
      `includes('discord')` is true, or `undefined`; an element before the match
      that has no `includes` method makes the callback throw. */
  function FindDiscord(xs: seq<JsonValue>): Option<JsonValue> {
    if xs == [] then Some(Undefined)
    else
      var hit :- Includes(xs[0], "discord");
      if hit then Some(xs[0]) else FindDiscord(xs[1..])
  }

  /** `chat ? chat.find(...) || '' : ''`; a truthy `chat` that is not an array has
      no `find` method, so the call throws. */
  function Discord(chat: JsonValue): Option<JsonValue> {
    if !Truthy(chat) then Some(Str(""))
    else if chat.Arr? then
      var found :- FindDiscord(chat.elems);
      Some(Or(found, Str("")))
    else None
  }

  /** `market_data[k].usd`, for the five prices quoted per currency. */
  function Usd(md: JsonValue, k: string): JsonValue
    requires !Nullish(md) && !Nullish(Member(md, k))
  {
    Member(Member(md, k), "usd")
  }

  /** One of the five `.usd` reads throws: its `market_data[k]` is missing or `null`. */
  predicate UsdThrows(md: JsonValue)
    requires !Nullish(md)
  {
    || Nullish(Member(md, "current_price"))
    || Nullish(Member(md, "market_cap"))
    || Nullish(Member(md, "total_volume"))
    || Nullish(Member(md, "high_24h"))
    || Nullish(Member(md, "low_24h"))
  }

  /** The `market_data` part of the literal. */
  function ExtractMarketData(md: JsonValue): MarketData
    requires !Nullish(md) && !UsdThrows(md)
  {
    MarketData(
      Or(Usd(md, "current_price"), Num(0)),
      Or(Usd(md, "market_cap"), Num(0)),
      Or(Usd(md, "total_volume"), Num(0)),
      Or(Usd(md, "high_24h"), Num(0)),
      Or(Usd(md, "low_24h"), Num(0)),
      Or(Member(md, "price_change_24h"), Num(0)),
      Or(Member(md, "price_change_percentage_24h"), Num(0)),
      Or(Member(md, "market_cap_change_24h"), Num(0)),
      Or(Member(md, "market_cap_change_percentage_24h"), Num(0)),
      Or(Member(md, "circulating_supply"), Num(0)),
      Or(Member(md, "total_supply"), Num(0)),
      Or(Member(md, "max_supply"), Num(0)))
  }

  /** Building the literal from `response.data` throws a TypeError: `response.data`,
      its `links`, `description`, `image` or `market_data` is `undefined` or `null`,
      the `chat_url` search throws, or one of the `.usd` reads does. */
  predicate ExtractionThrows(d: JsonValue) {
    || Nullish(d)
    || Nullish(Member(d, "links"))
    || Discord(Member(Member(d, "links"), "chat_url")).None?
    || Nullish(Member(d, "description"))
    || Nullish(Member(d, "image"))
    || Nullish(Member(d, "market_data"))
    || UsdThrows(Member(d, "market_data"))
  }

  /** The object literal built from `response.data` inside the `try`; `None` when one
      of its property reads or calls throws. */
  function ExtractDetails(d: JsonValue): Option<Details> {
    if ExtractionThrows(d) then None
    else
      var links := Member(d, "links");
      Some(Literal(d, links, Discord(Member(links, "chat_url")).value, Member(Member(d, "description"), "en"),
                   Member(Member(d, "image"), "large"), ExtractMarketData(Member(d, "market_data"))))
  }

  /** The fields of the literal once the reads that can throw have been made:
      `links` is `coinDetails.links`, `description` is `coinDetails.description.en`,
      `image` is `coinDetails.image.large`. */
  function Literal(d: JsonValue, links: JsonValue, discord: JsonValue, description: JsonValue, image: JsonValue,
                   marketData: MarketData): Details
    requires !Nullish(d) && !Nullish(links)
  {
    Details(
      Or(Member(links, "subreddit_url"), Str("")),
      Prefixed(TelegramPrefix, Member(links, "telegram_channel_identifier")),
      Prefixed(TwitterPrefix, Member(links, "twitter_screen_name")),
      Str(""),
      Str(""),
      discord,
      Or(description, Str(NoDescription)),
      FirstLink(Member(links, "homepage")),
      FirstLink(Member(links, "blockchain_site")),
      Or(image, Str("")),
      Or(Member(d, "market_cap_rank"), Str("")),
      Or(Member(d, "coingecko_rank"), Str("")),
      Or(Member(d, "coingecko_score"), Str("")),
      Or(Member(d, "developer_score"), Str("")),
      Or(Member(d, "community_score"), Str("")),
      Or(Member(d, "liquidity_score"), Str("")),
      Or(Member(d, "public_interest_score"), Str("")),
      marketData,
      Or(Member(d, "last_updated"), Str("")),
      Or(Member(d, "genesis_date"), Str("")),
      Or(Member(d, "ico_data"), Obj([])),
      Or(Member(d, "asset_platform_id"), Str("")),
      Or(Member(d, "platforms"), Obj([])))
  }

  /** What one attempt that received a response body returns: the extracted record,
      or `Defaults` when the extraction throws (the `catch` sees an error without a
      429 response). */
  function FromResponse(d: JsonValue): Details {
    match ExtractDetails(d)
    case Some(r) => r
    case None => Defaults
  }

  /** The record `fetchCoinDetails` ends with for the answers `answer`. */
  function DetailFetch(answer: Answers, retries: int): Details {
    var n := LeadingRateLimits(answer, Ceiling(retries));
    if n < Ceiling(retries) && answer(n).Ok? then FromResponse(answer(n).data) else Defaults
  }

  /**
   `fetchCoinDetails(id, retries, initialDelay)`: never throws. Each 429 is followed
   by a wait that is twice the previous one; the first answer that is not a 429 ends
   the loop with the extracted record (a body) or `Defaults` (any other error), and
   `Defaults` is also what is left once the attempts run out.
   */
  method FetchCoinDetails(answer: Answers, retries: int, initialDelay: int) returns (r: Details, sleeps: seq<int>)
    ensures sleeps == Waits(initialDelay, DetailBackoff, LeadingRateLimits(answer, Ceiling(retries)))
    ensures |sleeps| == Ceiling(retries) ==> r == Defaults
    ensures |sleeps| < Ceiling(retries) && answer(|sleeps|) == OtherError ==> r == Defaults
    ensures |sleeps| < Ceiling(retries) && answer(|sleeps|).Ok? ==> r == FromResponse(answer(|sleeps|).data)
    ensures r == DetailFetch(answer, retries)
  {
    var delay := initialDelay;
    sleeps := [];
    var i := 0;
    while i < retries
      invariant 0 <= i <= Ceiling(retries)
      invariant forall j :: 0 <= j < i ==> answer(j) == RateLimited
      invariant sleeps == Waits(initialDelay, DetailBackoff, i)
      invariant delay == initialDelay * Pow(DetailBackoff, i)
    {
      match answer(i) {
        case Ok(data) =>
          LeadingRateLimitsAt(answer, Ceiling(retries), i);
          match ExtractDetails(data) {
            case Some(details) => return details, sleeps;
            case None => return Defaults, sleeps;
          }
        case OtherError =>
          LeadingRateLimitsAt(answer, Ceiling(retries), i);
          return Defaults, sleeps;
        case RateLimited =>
      }
      WaitsSnoc(initialDelay, DetailBackoff, i);
      sleeps := sleeps + [delay];
      assert delay * DetailBackoff == initialDelay * (DetailBackoff * Pow(DetailBackoff, i));
      delay := delay * DetailBackoff;
      i := i + 1;
    }
    LeadingRateLimitsAt(answer, Ceiling(retries), i);
    r := Defaults;
  }

  /** Whatever the answers, the record is normalised: the merge in
      `processCoinsSequentially` never sees a missing detail field. */
  lemma DetailFetchNormalised(answer: Answers, retries: int)
    ensures Normalised(DetailFetch(answer, retries))
  {
    var n := LeadingRateLimits(answer, Ceiling(retries));
    if n < Ceiling(retries) && answer(n).Ok? {
      var d := answer(n).data;
      if ExtractDetails(d).Some? {
        ExtractNormalised(d);
      }
    }
  }

  /** A successful extraction is normalised. */
  lemma ExtractNormalised(d: JsonValue)
    requires ExtractDetails(d).Some?
    ensures Normalised(ExtractDetails(d).value)
  {
    var links := Member(d, "links");
    DiscordNormalised(Member(links, "chat_url"));
    ExtractMarketNormalised(Member(d, "market_data"));
    LiteralNormalised(d, links, Discord(Member(links, "chat_url")).value, Member(Member(d, "description"), "en"),
                      Member(Member(d, "image"), "large"), ExtractMarketData(Member(d, "market_data")));
  }

  /** Every `x || dflt` of the literal is truthy or its default. */
  lemma LiteralNormalised(d: JsonValue, links: JsonValue, discord: JsonValue, description: JsonValue, image: JsonValue,
                          marketData: MarketData)
    requires !Nullish(d) && !Nullish(links)
    requires DefaultedTo(discord, Str("")) && MarketNormalised(marketData)
    ensures Normalised(Literal(d, links, discord, description, image, marketData))
  {
  }

  lemma ExtractMarketNormalised(md: JsonValue)
    requires !Nullish(md) && !UsdThrows(md)
    ensures MarketNormalised(ExtractMarketData(md))
  {
  }

  /** The discord link is a truthy value or `''`. */
  lemma DiscordNormalised(chat: JsonValue)
    requires Discord(chat).Some?
    ensures DefaultedTo(Discord(chat).value, Str(""))
  {
  }

  /** Over a list of strings, `find` does not throw; it yields `undefined` exactly
      when no link mentions 'discord', and otherwise the first link that does. */
  lemma {:induction false} FindDiscordFirst(xs: seq<JsonValue>)
    requires forall i :: 0 <= i < |xs| ==> xs[i].Str?
    ensures FindDiscord(xs).Some?
    ensures FindDiscord(xs).value == Undefined <==> forall i :: 0 <= i < |xs| ==> !Contains(xs[i].s, "discord")
    ensures FindDiscord(xs).value != Undefined ==>
      exists j :: 0 <= j < |xs| && FindDiscord(xs).value == xs[j] && Contains(xs[j].s, "discord") &&
        forall i :: 0 <= i < j ==> !Contains(xs[i].s, "discord")
  {
    if xs != [] && !Contains(xs[0].s, "discord") {
      FindDiscordFirst(xs[1..]);
      var r := FindDiscord(xs).value;
      assert r == FindDiscord(xs[1..]).value;
      if r != Undefined {
        var j :| 0 <= j < |xs[1..]| && r == xs[1..][j] && Contains(xs[1..][j].s, "discord") &&
          forall i :: 0 <= i < j ==> !Contains(xs[1..][i].s, "discord");
        assert r == xs[j + 1];
        forall i | 0 <= i < j + 1 ensures !Contains(xs[i].s, "discord") {
          if i > 0 {
            assert xs[i] == xs[1..][i - 1];
          }
        }
      } else {
        forall i | 0 <= i < |xs| ensures !Contains(xs[i].s, "discord") {
          if i > 0 {
            assert xs[i] == xs[1..][i - 1];
          }
        }
      }
    }
  }

  /** One element that is neither a string nor an array, reached before any match,
      makes `find` throw. */
  lemma {:induction false} FindDiscordThrows(xs: seq<JsonValue>, j: nat)
    requires j < |xs| && !(xs[j].Str? || xs[j].Arr?)
    requires forall i :: 0 <= i < j ==> Includes(xs[i], "discord") == Some(false)
    ensures FindDiscord(xs) == None
  {
    if j > 0 {
      FindDiscordThrows(xs[1..], j - 1);
    }
  }

  /** The rule for the telegram and twitter links: the prefix followed by the
      identifier as a template literal prints it (the identifier itself when it is a
      non-empty string) for a truthy identifier, and `''` exactly when the
      identifier is falsy. */
  predicate PrefixRule(prefix: string, id: JsonValue, link: JsonValue) {
    && (Truthy(id) ==> link == Str(prefix + JsString(id)))
    && (id.Str? && id.s != "" ==> link == Str(prefix + id.s))
    && (!Truthy(id) <==> link == Str(""))
  }

  lemma PrefixedFollowsRule(prefix: string, id: JsonValue)
    requires prefix != ""
    ensures PrefixRule(prefix, id, Prefixed(prefix, id))
  {
  }

  /** The rule for homepage and blockchain_site: the first element of a non-empty
      list when it is truthy, `''` when the list is falsy, empty, or starts with a
      falsy element (such as `["", ""]`). */
  predicate FirstRule(list: JsonValue, link: JsonValue) {
    && (list.Arr? && list.elems != [] && Truthy(list.elems[0]) ==> link == list.elems[0])
    && (!Truthy(list) ==> link == Str(""))
    && (list.Arr? && (list.elems == [] || !Truthy(list.elems[0])) ==> link == Str(""))
    && DefaultedTo(link, Str(""))
  }

  lemma FirstLinkFollowsRule(list: JsonValue)
    ensures FirstRule(list, FirstLink(list))
  {
  }

  /** A link that is a string mentioning 'discord'. */
  predicate MentionsDiscord(v: JsonValue) {
    v.Str? && Contains(v.s, "discord")
  }

  /** A list of links that are all strings. */
  predicate StringLinks(chat: JsonValue) {
    chat.Arr? && forall i :: 0 <= i < |chat.elems| ==> chat.elems[i].Str?
  }

  /** The rule for the discord link: the first link that mentions 'discord', or `''`
      when none does. */
  predicate DiscordRule(links: seq<JsonValue>, link: JsonValue) {
    && ((forall i :: 0 <= i < |links| ==> !MentionsDiscord(links[i])) ==> link == Str(""))
    && (forall j :: 0 <= j < |links| && MentionsDiscord(links[j]) && (forall i :: 0 <= i < j ==> !MentionsDiscord(links[i]))
          ==> link == links[j])
  }

  /** Over a list of string links the discord search does not throw and follows the rule. */
  lemma DiscordFollowsRule(chat: JsonValue)
    requires StringLinks(chat)
    ensures Discord(chat).Some? && DiscordRule(chat.elems, Discord(chat).value)
  {
    var xs := chat.elems;
    FindDiscordFirst(xs);
    var found := FindDiscord(xs).value;
    if found != Undefined {
      var j :| 0 <= j < |xs| && found == xs[j] && Contains(xs[j].s, "discord") &&
        forall i :: 0 <= i < j ==> !Contains(xs[i].s, "discord");
      assert MentionsDiscord(xs[j]);
      forall j' | 0 <= j' < |xs| && MentionsDiscord(xs[j']) && (forall i :: 0 <= i < j' ==> !MentionsDiscord(xs[i]))
        ensures found == xs[j']
      {
        assert !(j < j') by { assert MentionsDiscord(xs[j]); }
        assert !(j' < j);
      }
    }
  }

  /** The extraction rules for the links of a record that was extracted; insta and
      youtube are always empty. */
  lemma ExtractLinks(d: JsonValue)
    requires ExtractDetails(d).Some?
    ensures !Nullish(d) && !Nullish(Member(d, "links"))
    ensures var r := ExtractDetails(d).value;
      var links := Member(d, "links");
      && r.insta == Str("") && r.youtube == Str("")
      && PrefixRule(TelegramPrefix, Member(links, "telegram_channel_identifier"), r.telegram)
      && PrefixRule(TwitterPrefix, Member(links, "twitter_screen_name"), r.twitter)
      && FirstRule(Member(links, "homepage"), r.homepage)
      && FirstRule(Member(links, "blockchain_site"), r.blockchainSite)
      && (!Truthy(Member(links, "chat_url")) ==> r.discord == Str(""))
      && (StringLinks(Member(links, "chat_url")) ==> DiscordRule(Member(links, "chat_url").elems, r.discord))
  {
    var links := Member(d, "links");
    if StringLinks(Member(links, "chat_url")) {
      DiscordFollowsRule(Member(links, "chat_url"));
    }
    PrefixedFollowsRule(TelegramPrefix, Member(links, "telegram_channel_identifier"));
    PrefixedFollowsRule(TwitterPrefix, Member(links, "twitter_screen_name"));
    FirstLinkFollowsRule(Member(links, "homepage"));
    FirstLinkFollowsRule(Member(links, "blockchain_site"));
  }

  /** The description is the English text when there is one, else the placeholder. */
  lemma ExtractDescription(d: JsonValue)
    requires ExtractDetails(d).Some?
    ensures !Nullish(d) && !Nullish(Member(d, "description"))
    ensures var en := Member(Member(d, "description"), "en");
      ExtractDetails(d).value.description == if Truthy(en) then en else Str(NoDescription)
  {
  }

  /** Each market figure follows its `x || 0`: the `.usd` quote of the five prices,
      the plain figure for the seven others. */
  lemma ExtractMarketFields(md: JsonValue)
    requires !Nullish(md) && !UsdThrows(md)
    ensures var m := ExtractMarketData(md);
      && OrRule(m.currentPrice, Member(Member(md, "current_price"), "usd"), Num(0))
      && OrRule(m.marketCap, Member(Member(md, "market_cap"), "usd"), Num(0))
      && OrRule(m.totalVolume, Member(Member(md, "total_volume"), "usd"), Num(0))
      && OrRule(m.high24h, Member(Member(md, "high_24h"), "usd"), Num(0))
      && OrRule(m.low24h, Member(Member(md, "low_24h"), "usd"), Num(0))
      && OrRule(m.priceChange24h, Member(md, "price_change_24h"), Num(0))
      && OrRule(m.priceChangePercentage24h, Member(md, "price_change_percentage_24h"), Num(0))
      && OrRule(m.marketCapChange24h, Member(md, "market_cap_change_24h"), Num(0))
      && OrRule(m.marketCapChangePercentage24h, Member(md, "market_cap_change_percentage_24h"), Num(0))
      && OrRule(m.circulatingSupply, Member(md, "circulating_supply"), Num(0))
      && OrRule(m.totalSupply, Member(md, "total_supply"), Num(0))
      && OrRule(m.maxSupply, Member(md, "max_supply"), Num(0))
  {
  }

  /** The fields of an extracted record that are plain `x || dflt` reads of the
      response body each follow that rule, and `market_data` is the extracted
      market part. */
  lemma ExtractFields(d: JsonValue)
    requires ExtractDetails(d).Some?
    ensures !Nullish(d) && !Nullish(Member(d, "links")) && !Nullish(Member(d, "image"))
    ensures !Nullish(Member(d, "market_data")) && !UsdThrows(Member(d, "market_data"))
    ensures var r := ExtractDetails(d).value;
      && OrRule(r.reddit, Member(Member(d, "links"), "subreddit_url"), Str(""))
      && OrRule(r.image, Member(Member(d, "image"), "large"), Str(""))
      && OrRule(r.marketCapRank, Member(d, "market_cap_rank"), Str(""))
      && OrRule(r.coingeckoRank, Member(d, "coingecko_rank"), Str(""))
      && OrRule(r.coingeckoScore, Member(d, "coingecko_score"), Str(""))
      && OrRule(r.developerScore, Member(d, "developer_score"), Str(""))
      && OrRule(r.communityScore, Member(d, "community_score"), Str(""))
      && OrRule(r.liquidityScore, Member(d, "liquidity_score"), Str(""))
      && OrRule(r.publicInterestScore, Member(d, "public_interest_score"), Str(""))
      && r.marketData == ExtractMarketData(Member(d, "market_data"))
      && OrRule(r.lastUpdated, Member(d, "last_updated"), Str(""))
      && OrRule(r.genesisDate, Member(d, "genesis_date"), Str(""))
      && OrRule(r.icoData, Member(d, "ico_data"), Obj([]))
      && OrRule(r.assetPlatformId, Member(d, "asset_platform_id"), Str(""))
      && OrRule(r.platforms, Member(d, "platforms"), Obj([]))
  {
  }

  /** A response whose nested objects are all present and whose chat links are
      strings is extracted without throwing. */
  predicate WellShaped(d: JsonValue) {
    && d.Obj?
    && var links := Member(d, "links");
    && links.Obj?
    && var chat := Member(links, "chat_url");
    && (!Truthy(chat) || (chat.Arr? && forall i :: 0 <= i < |chat.elems| ==> chat.elems[i].Str?))
    && !Nullish(Member(d, "description"))
    && !Nullish(Member(d, "image"))
    && var md := Member(d, "market_data");
    && md.Obj?
    && !Nullish(Member(md, "current_price"))
    && !Nullish(Member(md, "market_cap"))
    && !Nullish(Member(md, "total_volume"))
    && !Nullish(Member(md, "high_24h"))
    && !Nullish(Member(md, "low_24h"))
  }

  lemma WellShapedExtracts(d: JsonValue)
    requires WellShaped(d)
    ensures ExtractDetails(d).Some?
  {
    var chat := Member(Member(d, "links"), "chat_url");
    if Truthy(chat) {
      FindDiscordFirst(chat.elems);
    }
  }

  /** A response without `links` (or with `links: null`) throws inside the `try`,
      and the record falls back to `Defaults`. */
  lemma MissingLinksGivesDefaults(d: JsonValue)
    requires !Nullish(d) && Nullish(Member(d, "links"))
    ensures FromResponse(d) == Defaults
  {
  }

  /** Three 429 answers and then a body that extracts: waits of 2, 4 and 8 seconds
      and the extracted record. */
  method DetailRateLimitedThrice(data: JsonValue) returns (r: Details, sleeps: seq<int>)
    requires ExtractDetails(data).Some?
    ensures r == ExtractDetails(data).value
    ensures sleeps == [2000, 4000, 8000]
  {
    var script: Answers := k => if k < 3 then RateLimited else Ok(data);
    r, sleeps := FetchCoinDetails(script, DefaultRetries, InitialDelay);
  }
}
