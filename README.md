# cryptocurrency-scraper: a Dafny model of `coins.cjs`

`coins.cjs` is a Node.js script. It scrapes the CoinGecko API and builds a JSON document with one
aggregated record per coin. A run works in four stages:

1. **Listing.** `fetchCoinData` requests the market listing page by page, with 150 coins per page and
   at most one page. A 30-second pause separates two page requests. The loop stops early at an
   empty page.
2. **Checkpoint.** `fetchCoinData` reads the checkpoint file `progress.json`. When the file exists,
   the resume loop starts one past the index recorded there.
3. **Resume loop.** `processCoinsSequentially` visits each coin from that index on:
   - it fetches the coin's detail record with `fetchCoinDetails`;
   - it filters the platform addresses with `getAllPlatformAddresses`;
   - it merges listing and detail fields into one record, stored under a fresh random identifier;
   - it writes the whole document to `customCoinDatat.json`;
   - it writes the index to the checkpoint file;
   - it pauses 15 seconds.
4. **Final write.** The document the loop returns is written to `customCoinData.json`.

Both HTTP helpers retry on HTTP 429 and back off exponentially, but they differ:

- `fetchWithRetry` multiplies the wait by 4 and throws `Max retries reached` after five 429s.
- `fetchCoinDetails` multiplies the wait by 2. It never throws. Any other error, a body it cannot
  read, or five 429s all give a record of documented defaults.

## How the model is built

- **JSON values.** `Json.JsonValue` models JSON values with JavaScript's semantics:
  - truthiness and `||`;
  - property reads that throw on `undefined`/`null` (`None`);
  - `includes`, `Object.entries`, template-literal printing.
- **Objects.** Objects are entry lists in insertion order (`Dict`). `obj[k] = v` is `Dict.Put`.
  JavaScript lists keys that are array indices first, in ascending numeric order. The model does
  not, which matters only for the platform address objects (see "## Left out").
- **Remote answers.** The CoinGecko API is a parameter: a function from the attempt number to an
  `Outcome`: `Ok(body)`, `RateLimited` (429) or `OtherError`.
  - `pages(p)` answers the attempts at listing page `p`.
  - `env.details(i)` answers the detail fetches of coin `i`.
  - `env.ids(i)` and `env.clock(i)` stand for `generateUniqueId()` and `Date.now()` at coin `i`.
- **Retry loops.** Both are methods with loop invariants: `Retry.FetchWithRetry` and
  `Details.FetchCoinDetails`. Each is proved against a function of the answers (`FetchResult`,
  `DetailFetch`) and against the closed form of its waits.
- **Extraction and merge.** These are functions (`Details.ExtractDetails`, `Aggregate.Merge`) with
  lemmas about defaults and link rules.
- **The three loops.** The pagination loop, the resume loop and `fetchCoinData` are methods:
  `Pipeline.FetchListing`, `Resume.ProcessCoins` and `Pipeline.FetchCoinData`.
  - Each returns the trace of its observable effects: requests, backoff sleeps, pauses, data writes
    and checkpoint writes.
  - Each is proved equal to a specification function (`Paginate`, `TraceAfter`/`DocAfter`,
    `RunTrace`).
  - The lemmas about those functions state what the script promises: page order, resume
    checkpoints, write ordering, final write.

A consequence the model makes explicit: the resume loop starts from an empty object. The document
of a resumed run therefore holds only the coins from `startIndex` on (`Resume.ResumeDocument`).
Both data files are overwritten with it.

## Model

| member | source | states |
|---|---|---|
| Json.NatStr | coins.cjs:184 | The decimal numeral of an array index: non-empty, one digit exactly below 10, last digit `n % 10` |
| Json.NatStrInjective | coins.cjs:184 | Distinct indices give distinct numerals, so the keys `Object.entries` gives an array are distinct |
| Json.ContainsIsSubstring | coins.cjs:49 | `includes` on strings holds exactly when the needle occurs at some position |
| Json.Includes | coins.cjs:49 | `includes` is defined exactly on strings and arrays; on any other value the call throws |
| Json.ObjectEntriesDistinct | coins.cjs:184 | `Object.entries` of an array, or of an object with distinct keys, has distinct keys |
| Dict.Keys | coins.cjs:293 | `Object.keys` gives one key per entry, in insertion order |
| Dict.LookupFinds | coins.cjs:192 | A read finds a value exactly for the keys present, and the value found is stored under that key |
| Dict.PutMeaning | coins.cjs:192 | Assigning to a present key keeps the keys and their order; assigning to a new key appends one entry; no other entry appears |
| Dict.PutLookup | coins.cjs:192 | After `obj[k] = v`, reading `k` gives `v` and every other key reads as before |
| Dict.PutKeepsDistinct | coins.cjs:186 | Property assignment keeps the keys of an object distinct |
| Retry.LeadingRateLimits | coins.cjs:17-25 | The number of 429 answers that open the attempts is at most the number of attempts |
| Retry.LeadingRateLimitsMeaning | coins.cjs:17-25 | Every answer before that count is a 429, and the next one within the attempts is not |
| Retry.LeadingRateLimitsAt | coins.cjs:17-25 | Any count with that property is the count |
| Retry.Waits | coins.cjs:22-25 | One wait per 429 answer |
| Retry.WaitsClosedForm | coins.cjs:22-25 | The k-th wait is `delay * factor^k` |
| Retry.WaitsSnoc | coins.cjs:24-25 | One more 429 appends the wait `delay * factor^n` |
| Retry.WaitsIncrease | coins.cjs:25 | With a positive delay and factor above 1 the waits strictly increase, each `factor` times the previous one |
| Retry.FetchResultMeaning | coins.cjs:16-31 | The loop gives up exactly when every attempt answers 429. Otherwise it ends at the first answer that is not 429: a body is returned, any other error is rethrown |
| Retry.FetchWithRetry | coins.cjs:16-32 | The waits are `delay * 4^k`, one per leading 429. `Max retries reached` holds exactly when all attempts were used. A body is returned unchanged; any other error is rethrown at once |
| Retry.ListingRateLimitedThenOk | coins.cjs:16-25 | n < 5 answers of 429 and then a body: the body is returned after waits of `2000 * 4^k` |
| Retry.ListingAlwaysRateLimited | coins.cjs:16-31 | Five 429s: waits of 2, 8, 32, 128 and 512 seconds, then `Max retries reached` |
| Details.FetchCoinDetails | coins.cjs:35-168 | The waits are `initialDelay * 2^k`, one per leading 429. Exhausted retries or another error give the defaults; a body gives the extracted record, or the defaults when extraction throws |
| Details.DetailFetchNormalised | coins.cjs:35-168 | Whatever the answers, every field of the detail record is truthy or its default, never `undefined` |
| Details.ExtractNormalised | coins.cjs:43-80 | A record extracted from a body is normalised |
| Details.LiteralNormalised | coins.cjs:43-80 | Every `x \|\| default` of the literal is truthy or its default, so no field is `undefined`. The value rule itself is `Details.ExtractFields` |
| Details.ExtractMarketNormalised | coins.cjs:61-74 | Every market figure is truthy or 0. The value rule itself is `Details.ExtractMarketFields` |
| Details.ExtractMarketFields | coins.cjs:61-74 | Each market figure is its `.usd` quote (five prices) or the plain figure (the seven others) when that is truthy, and 0 otherwise |
| Details.DiscordNormalised | coins.cjs:49 | The discord link is truthy or `''` |
| Details.FindDiscordFirst | coins.cjs:49 | On a list of strings, `find` does not throw. It gives `undefined` exactly when no link mentions 'discord', and otherwise the first link that does |
| Details.FindDiscordThrows | coins.cjs:49 | A link that is neither a string nor an array, reached before any match, makes `find` throw |
| Details.PrefixedFollowsRule | coins.cjs:45-46 | Telegram and twitter links are the prefix followed by the identifier as a template literal prints it, for any truthy identifier (the identifier itself for a non-empty string). The link is `''` exactly when the identifier is falsy |
| Details.FirstLinkFollowsRule | coins.cjs:51-52 | Homepage and explorer are the first element of the list when it is truthy. They are `''` for a falsy list, an empty list, or a list whose first element is falsy (such as `["", ""]`) |
| Details.DiscordFollowsRule | coins.cjs:49 | On a list of string links the search does not throw. Discord is the first link mentioning 'discord', or `''` when none does |
| Details.ExtractLinks | coins.cjs:44-52 | An extracted record follows the link rules: homepage and explorer are the first list element when truthy, else `''`. Insta and youtube are `''`. Without `chat_url`, discord is `''`; with a list of string links it is the first link mentioning 'discord', else `''` |
| Details.ExtractDescription | coins.cjs:50 | The description is the English text when truthy, else 'No description available' |
| Details.ExtractFields | coins.cjs:43-80 | Each plain `x \|\| default` field of an extracted record (reddit, image, the ranks and scores, last_updated, genesis_date, ico_data, asset_platform_id, platforms) is `x` when `x` is truthy and the default otherwise; `market_data` is the extracted market part |
| Details.WellShapedExtracts | coins.cjs:43-80 | A body whose nested objects are present and whose chat links are strings is extracted without throwing |
| Details.MissingLinksGivesDefaults | coins.cjs:86-125 | A body without `links` throws inside the `try` and yields the defaults |
| Details.DetailRateLimitedThrice | coins.cjs:82-85 | Three 429s and then a body: waits of 2, 4 and 8 seconds and the extracted record |
| Platforms.KeptNonEmpty | coins.cjs:184-188 | Every kept address is a non-empty string |
| Platforms.GetAllPlatformAddresses | coins.cjs:179-190 | The loop over `Object.entries` computes the filter's specification `ValidPlatforms` |
| Platforms.KeptLookup | coins.cjs:184-189 | On distinct keys, the result has exactly the keys whose value is a non-empty string, each with that value unchanged, and distinct keys |
| Platforms.PlatformsOfObject | coins.cjs:179-190 | For an object with distinct keys, or an array, the result holds exactly the valid addresses |
| Platforms.PlatformsOfNonObject | coins.cjs:180 | A falsy value, a string, a number or a boolean gives `{}` |
| Aggregate.MergeDefined | coins.cjs:192-237 | Merging a normalised detail record leaves no field of the coin `undefined` |
| Aggregate.MergeFields | coins.cjs:192-237 | With a normalised detail record, every detail field is copied unchanged, because its `\|\| ''` or `\|\| 0` gives it back. The exceptions are price, live price and cap, where a falsy figure becomes the string '0'. Name and symbol follow `\|\| ''`. The live-price URL embeds `coin.id`. Addresses, platforms and the date are the given ones, and the three flags are true |
| Aggregate.FailedDetailGivesDefaults | coins.cjs:192-237 | A coin whose detail fetch failed keeps its name and symbol, and every detail-derived field has its documented default |
| Aggregate.CoinAtDefined | coins.cjs:173-237 | Every coin the loop stores is fully defined |
| Events.BackoffEvents | coins.cjs:22-25 | One backoff event per wait, in order |
| Events.IterationCheckpoint | coins.cjs:239-244 | One iteration writes exactly one checkpoint: its own index |
| Events.CheckpointsAreSpan | coins.cjs:172-245 | The iterations `start .. end - 1` write the checkpoints `start, ..., end - 1`, one each |
| Events.CheckpointsIncrease | coins.cjs:172-241 | Checkpoints strictly increase and lie in `start .. end - 1` |
| Events.DataWrittenBeforeCheckpoint | coins.cjs:240-241 | Checkpoint j is written right after the data file, and the data file then holds the object after iteration j |
| Events.CheckpointedValueWritten | coins.cjs:192-241 | For any identifiers, the data write before checkpoint j holds iteration j's value under its identifier, because iteration j's assignment is the last one before that write |
| Events.SegmentCheckpoint | coins.cjs:192-241 | The same for identifiers, values and waits drawn per index |
| Events.IterationsWriteInLoop | coins.cjs:240 | Inside the loop every data write goes to `customCoinDatat.json` |
| Events.AssignedKeys | coins.cjs:192 | With distinct identifiers nothing is overwritten: the keys are the identifiers in assignment order |
| Events.AssignedLookup | coins.cjs:192 | With distinct identifiers each identifier maps to its own value |
| Resume.Stop | coins.cjs:172-175 | The loop stops at or after `start`, only at the end of the list or at a coin that is `undefined` or `null` (where reading `coin.name` throws), and every coin before is readable |
| Resume.StopStep | coins.cjs:172-175 | A readable coin before the stopping point moves it past that coin |
| Resume.StopAt | coins.cjs:172-175 | The loop stops at the first coin it cannot read, or at the end |
| Resume.ProcessableMerges | coins.cjs:192-237 | Every coin the loop reads can be merged |
| Resume.AfterStep | coins.cjs:172-245 | One iteration stores the merged coin under its identifier, then adds its backoff sleeps, a data write, checkpoint i and the 15-second pause |
| Resume.ProcessCoin | coins.cjs:173-237 | The body of one iteration computes the merged coin and the detail-fetch waits |
| Resume.ProcessCoins | coins.cjs:170-247 | The loop completes with the document of the indices `startIndex ..` when no coin is `undefined`/`null`, and throws at the first such coin otherwise. Its events are those of the iterations it ran |
| Resume.ResumeCheckpoints | coins.cjs:172-241 | A loop started at `startIndex` checkpoints `startIndex, startIndex + 1, ...` up to where it stops, and nothing below `startIndex` |
| Resume.ResumeDataBeforeCheckpoint | coins.cjs:240-241 | Each checkpoint j comes right after a data write holding the document after iteration j, with coin j under its identifier |
| Resume.ResumeDocument | coins.cjs:170-247 | With distinct identifiers, a completed loop returns one entry per processed index, keyed in processing order, each holding its merged coin |
| Pipeline.PaginateNext | coins.cjs:269-277 | An appended page contributes its items, its request and (when another page remains) the 30-second pause, then the rest of the loop |
| Pipeline.PaginateEnds | coins.cjs:266-268 | An empty page ends the loop with the listing so far; an unfetched page or one without a readable `length` ends it with a failure |
| Pipeline.PaginateMoves | coins.cjs:269-276 | Going past an appended page moves its items and events into what has been accumulated |
| Pipeline.RequestPage | coins.cjs:258-264 | A page request goes through the listing retry policy and records the request and its backoff waits |
| Pipeline.FetchListing | coins.cjs:256-278 | The pagination loop from page 1 produces exactly the listing and events of `Paginate` |
| Pipeline.RequestedPage | coins.cjs:258-262 | A page request asks for that page once |
| Pipeline.RequestsSpan | coins.cjs:256-278 | The loop requests the pages `page, page + 1, ...` in order, `Requested` of them |
| Pipeline.RequestedBounds | coins.cjs:256 | No page past `maxPages` is requested, and at least one is when the loop starts within it |
| Pipeline.PagesInOrder | coins.cjs:256-278 | The pages are requested consecutively from `page`, at most `maxPages + 1 - page` of them, none beyond `maxPages` |
| Pipeline.PaginateSummary | coins.cjs:256-278 | The loop requests `Requested` pages and ends with `ListingOf` |
| Pipeline.ListingFromPages | coins.cjs:256-278 | Every requested page but the last was appended, and a fetched listing is the concatenation of the requested pages' items in page order |
| Pipeline.HowListingEnds | coins.cjs:256-278 | The loop fails exactly when the last requested page throws. Otherwise it stops at an empty page or at `maxPages` |
| Pipeline.RequestShape | coins.cjs:258-264 | A page request is the request event followed by backoff waits, with no pause |
| Pipeline.PausesBetweenRequests | coins.cjs:273-276 | The 30-second pause falls only between two page requests, never after the last |
| Pipeline.ListingEventsOnly | coins.cjs:256-278 | The pagination loop only requests pages, backs off and pauses |
| Pipeline.FetchCoinData | coins.cjs:249-298 | A run is the listing; then, if the listing was fetched, the resume loop from `startIndex`; then, if the loop completed, the final write of its document |
| Pipeline.ResumeTraceCheckpoints | coins.cjs:283-290 | After the listing, the checkpoints are those of the resume loop from `startIndex` |
| Pipeline.ResumeTraceWrites | coins.cjs:290-292 | After the listing, a saved document is written last to the final file, and every other data write goes to the in-loop file |
| Pipeline.RunCheckpoints | coins.cjs:283-290 | A failed listing writes no checkpoint. Otherwise the checkpoints are `startIndex ..` up to the stopping index, in order, all above a recorded checkpoint |
| Pipeline.FinalWriteLast | coins.cjs:290-292 | When a document is saved, its write to `customCoinData.json` is the run's last event, and every earlier data write goes to the in-loop file |
| Pipeline.NoFinalWrite | coins.cjs:290-297 | When the run throws, `customCoinData.json` is never written |
| Pipeline.EmptyFirstPage | coins.cjs:266-292 | An empty first page gives an empty listing, no iteration, and `{}` written to the final file, whatever the checkpoint |
| Pipeline.ListingExhausted | coins.cjs:249-298 | Five 429s for page 1: the request and five waits of 2 to 512 seconds, then the run ends without writing anything |
| Json.Truthy | coins.cjs:44-79 | JavaScript truthiness, used by every `\|\|` and `?:` of the literal. No contract of its own; `Details.LiteralNormalised` and `Aggregate.MergeDefined` rely on it |
| Json.Or | coins.cjs:44-79 | `a \|\| b`. No contract of its own; its meaning in the literal is stated by `Details.LiteralNormalised` and `Details.ExtractDescription` |
| Json.Member | coins.cjs:44-79 | A property read on a value that is not `undefined`/`null`; a missing key reads `undefined`. No contract of its own; `Details.MissingLinksGivesDefaults` and `Details.ExtractLinks` state its use |
| Json.Element | coins.cjs:51-52 | `v[0]` on a list. No contract of its own; `Details.FirstLinkFollowsRule` states its use |
| Json.JsString | coins.cjs:45-46 | `${v}` in a template literal. No contract of its own; `Details.PrefixedFollowsRule` states its use |
| Details.Prefixed | coins.cjs:45-46 | The telegram and twitter link expression. No contract of its own; its meaning is `Details.PrefixedFollowsRule` |
| Details.FindDiscord | coins.cjs:49 | `chat_url.find(link => link.includes('discord'))`. No contract of its own; its meaning is `Details.FindDiscordFirst` and `Details.FindDiscordThrows` |
| Details.Discord | coins.cjs:49 | The discord link expression. No contract of its own; its meaning is `Details.DiscordFollowsRule` and `Details.DiscordNormalised` |
| Details.FirstLink | coins.cjs:51-52 | The homepage and explorer expression. No contract of its own; its meaning is `Details.FirstLinkFollowsRule` |
| Details.ExtractMarketData | coins.cjs:61-74 | The `market_data` part of the literal. No contract of its own; its meaning is `Details.ExtractMarketNormalised` |
| Details.Literal | coins.cjs:43-80 | The literal once the reads that can throw have been made. No contract of its own; its meaning is `Details.LiteralNormalised` |
| Details.ExtractDetails | coins.cjs:43-80 | The literal built from `response.data`, or a throw. No contract of its own; its meaning is `Details.ExtractLinks`, `Details.ExtractDescription`, `Details.ExtractNormalised` and `Details.WellShapedExtracts` |
| Details.FromResponse | coins.cjs:38-125 | One attempt that received a body: the extracted record, or the defaults when extraction throws. No contract of its own; `Details.MissingLinksGivesDefaults` states the throwing case |
| Details.DetailFetch | coins.cjs:35-168 | The record `fetchCoinDetails` returns for given answers. No contract of its own; `Details.FetchCoinDetails` is proved equal to it and `Details.DetailFetchNormalised` states its meaning |
| Platforms.Kept | coins.cjs:183-188 | `validPlatforms` after the loop over the entries. No contract of its own; its meaning is `Platforms.KeptNonEmpty` and `Platforms.KeptLookup` |
| Platforms.ValidPlatforms | coins.cjs:179-190 | The filter's result for any argument. No contract of its own; `Platforms.GetAllPlatformAddresses` is proved equal to it, and `Platforms.PlatformsOfObject` and `Platforms.PlatformsOfNonObject` state its meaning |
| Aggregate.Merge | coins.cjs:192-237 | The object literal assigned to `coinData[uniqueId]`. No contract of its own; its meaning is `Aggregate.MergeDefined` and `Aggregate.FailedDetailGivesDefaults` |
| Aggregate.CoinAt | coins.cjs:173-237 | The coin the loop stores for index i. No contract of its own; its meaning is `Aggregate.CoinAtDefined` |
| Retry.FetchResult | coins.cjs:16-31 | How `fetchWithRetry` ends for given answers. No contract of its own; `Retry.FetchWithRetry` is proved equal to it and `Retry.FetchResultMeaning` states its meaning |
| Pipeline.IsEmptyPage | coins.cjs:266 | `data.length === 0`, or a throw where `length` cannot be read. No contract of its own; `Pipeline.PaginateEnds` and `Pipeline.HowListingEnds` state its use |
| Pipeline.PageItems | coins.cjs:270 | What `allCoins.concat(data)` appends. No contract of its own; `Pipeline.ListingFromPages` states its use |
| Pipeline.Paginate | coins.cjs:256-278 | The pagination loop entered at a page. No contract of its own; `Pipeline.FetchListing` is proved equal to it, and `Pipeline.PaginateSummary`, `Pipeline.ListingFromPages`, `Pipeline.HowListingEnds` and `Pipeline.PagesInOrder` state its meaning |
| Pipeline.StartIndex | coins.cjs:283-288 | One past the recorded checkpoint, or 0. No contract of its own; `Pipeline.RunCheckpoints` states its meaning |
| Pipeline.RunTrace | coins.cjs:249-298 | The events of a whole run. No contract of its own; `Pipeline.FetchCoinData` is proved equal to it, and `Pipeline.RunCheckpoints`, `Pipeline.FinalWriteLast` and `Pipeline.NoFinalWrite` state its meaning |
| Resume.DocAfter | coins.cjs:170-247 | `coinData` after the iterations `start .. end - 1`. No contract of its own; `Resume.ProcessCoins` is proved to return it, and `Resume.AfterStep` and `Resume.ResumeDocument` state its meaning |
| Resume.TraceAfter | coins.cjs:170-247 | The events of the iterations `start .. end - 1`. No contract of its own; `Resume.ProcessCoins` is proved to produce it, and `Resume.AfterStep`, `Resume.ResumeCheckpoints` and `Resume.ResumeDataBeforeCheckpoint` state its meaning |
| Events.Iterations | coins.cjs:172-245 | The events of consecutive iterations of the resume loop. No contract of its own; its meaning is `Events.CheckpointsAreSpan`, `Events.DataWrittenBeforeCheckpoint` and `Events.IterationsWriteInLoop` |
| Events.Assigned | coins.cjs:192 | The object after the assignments `coinData[id] = coin` in order. No contract of its own; its meaning is `Events.AssignedKeys` and `Events.AssignedLookup` |
| Details.ExtractionThrows | coins.cjs:43-80 | The reads of the literal that throw a TypeError. No contract of its own; `Details.WellShapedExtracts` and `Details.MissingLinksGivesDefaults` state its meaning |
| Details.Usd | coins.cjs:62-66 | `market_data[k].usd`. No contract of its own; its meaning is `Details.ExtractMarketFields` |
| Details.UsdThrows | coins.cjs:62-66 | One of the five `.usd` reads throws. No contract of its own; `Details.WellShapedExtracts` states when it does not |
| Json.ObjectEntries | coins.cjs:184 | `Object.entries` of an object or an array. No contract of its own; its meaning is `Json.ObjectEntriesDistinct` and `Platforms.PlatformsOfObject` |
| Json.Contains | coins.cjs:49 | `includes` on strings. No contract of its own; its meaning is `Json.ContainsIsSubstring` |
| Dict.Put | coins.cjs:186 | `obj[k] = v`. No contract of its own; its meaning is `Dict.PutMeaning`, `Dict.PutLookup` and `Dict.PutKeepsDistinct` |
| Dict.Lookup | coins.cjs:192 | `obj[k]`, or none for a missing key. No contract of its own; its meaning is `Dict.LookupFinds` |
| Platforms.ValidAddress | coins.cjs:185 | `address && typeof address === 'string'`. No contract of its own; its meaning is `Platforms.KeptNonEmpty` and `Platforms.KeptLookup` |
| Aggregate.DetailsAt | coins.cjs:176 | The detail record fetched for coin i. No contract of its own; its meaning is `Details.FetchCoinDetails` and `Details.DetailFetchNormalised` |
| Pipeline.PageRequest | coins.cjs:257-264 | The events of one page request. No contract of its own; `Pipeline.RequestPage` is proved to produce it and `Pipeline.RequestShape` states its meaning |
| Pipeline.PageOutcome | coins.cjs:258-268 | Whether a page throws, ends the loop or is appended. No contract of its own; `Pipeline.PaginateEnds`, `Pipeline.HowListingEnds` and `Pipeline.ListingFromPages` state its meaning |
| Pipeline.Contribution | coins.cjs:270 | What an appended page adds to `allCoins`. No contract of its own; `Pipeline.ListingFromPages` states its meaning |
| Pipeline.ResumeSaved | coins.cjs:290-292 | The document written to the final file after the listing, when the loop completes. No contract of its own; its meaning is `Pipeline.ResumeTraceWrites` |
| Pipeline.ResumeTrace | coins.cjs:283-292 | The events after the listing. No contract of its own; its meaning is `Pipeline.ResumeTraceCheckpoints` and `Pipeline.ResumeTraceWrites` |
| Pipeline.SavedDocument | coins.cjs:249-292 | The document written to `customCoinData.json`, if any. No contract of its own; its meaning is `Pipeline.FinalWriteLast` and `Pipeline.NoFinalWrite` |
| Details.Defaults | coins.cjs:86-167 | The all-defaults record of both failure exits. A constant; `Aggregate.FailedDetailGivesDefaults` states what it gives a coin |

## Left out

- HTTP and `axios` are not modelled: each request is a function from the attempt number to an
  outcome. URLs and query parameters are opaque, so `perPage` (150) is not modelled.
  Which non-429 errors occur is decided by the caller.
- `fs` and JSON serialisation are not modelled. Each file write is an event carrying the written
  object; `JSON.stringify` formatting is not modelled.
- Reading the checkpoint file is not modelled. It is an `Option<nat>` holding the last recorded
  index. A file that exists but that `JSON.parse` rejects, or whose `lastProcessedIndex` is not a
  number, is not modelled: only the script writes it, always with a loop index.
- `sleep` is not modelled: each sleep is an event carrying its duration in milliseconds, with no
  clock time.
- `generateUniqueId` (`crypto.randomBytes`) and `Date.now()` are caller-supplied functions of the
  coin index. Identifier distinctness is a hypothesis of `Resume.ResumeDocument`,
  `Events.AssignedKeys` and `Events.AssignedLookup`, not a fact about random bytes.
- Numbers are unbounded integers. Floating-point prices, `NaN` and the division in log messages
  are not modelled.
- Console logging is not modelled. This includes the `coin.name` template at coins.cjs:175, whose
  only effect in the model is throwing on an `undefined`/`null` coin.
- The outer `catch` (coins.cjs:295-297) only logs, so a run that throws is modelled as the events
  up to the throw.
- Asynchrony is not modelled: every `await` is sequential, so the model is a sequential trace.
- Pipeline.FetchCoinData uses `maxPages = 1` as the script does. The pagination lemmas are stated
  for any `maxPages`.
- Details.FetchCoinDetails follows the code's ×2 backoff (2, 4, 8 seconds).
- Platforms.GetAllPlatformAddresses keeps every valid entry in the order the input lists it,
  and appends each assignment `validPlatforms[platform] = address` as a new entry. JavaScript
  differs in two ways, and the model captures neither:
  - Property order: `Object.entries` and `JSON.stringify` list keys that are array indices
    ("0", "42") first, in ascending numeric order, then the other keys in insertion order.
    This does not affect `coinData`. Its keys are 16-character hexadecimal strings
    (coins.cjs:7), and an array index is a canonical numeral below 2^32 - 1, so at most
    10 digits. The insertion order of `coinData` is therefore JavaScript's order.
  - The key `__proto__`: assigning to it sets the prototype instead of creating an own
    property, so that entry is dropped from the written `address`/`platforms` objects.
  The filtered entries therefore agree with JavaScript's only up to order, and only when no key
  is `__proto__`.
- Json.Element reads a character of a string as one Unicode code point. JavaScript's `v[0]`
  reads one UTF-16 code unit, so the two differ for a first character outside the Basic
  Multilingual Plane (coins.cjs:51-52).
- File writes never fail in the model. In JavaScript a failing `writeFileSync` (coins.cjs:240-241,
  292) throws, and the outer `catch` ends the run.
- The in-loop file name `customCoinDatat.json` is kept as written. It differs from the final file
  `customCoinData.json`.
