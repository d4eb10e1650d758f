# Marketing dashboard API — a Dafny model of its core

The service answers HTTP requests with the follower and member counts of
five community channels (LinkedIn, Medium, Discord, Telegram, Twitter). Each
count comes from an adapter that calls a third-party page or API. The
adapter's result is kept in a process-wide cache for twelve hours.

This project models three parts of `index.js`:

- **The cache layer.** `fetchWithCache` becomes the class `TtlCache.Cache`.
  Its field `entries` is the mutable `cache` dictionary. Its methods are
  `FetchWithCache`, the `/` route (`RootRoute`), the single-source routes and
  the `/discord` route. Each method is proved equal to a pure step function,
  `TtlCache.Fetch` or `TtlCache.Root`. The cache's promises are lemmas about
  those functions: freshness, refresh, no caching of errors, one fetch per
  window, independence of keys, and order independence of the `/` route. The
  clock and each producer's result are parameters.
- **The extractors.** These are pure string functions over the heading text
  the scrapers read. `JsStrings` models the JavaScript string operations they
  use: `trim`, `replaceAll`, `split`, `replace` and `Number.parseInt`.
  `Scrapers` models the LinkedIn and Medium adapters on top of them.
- **The Discord loop and the Twitter lookup.** `DiscordMembers` holds the
  Discord loop as a method with a `while` loop, proved against a
  specification predicate. `TwitterFollowers` holds the Twitter status check
  and the property chain that reads the count from the JSON body.

Each file is one module:

- `js_values.dfy`: JavaScript values and producer outcomes.
- `digits.dfy`: digit runs and decimal numerals.
- `js_strings.dfy`: the string built-ins.
- `scrapers.dfy` and `scraper_examples.dfy`: the LinkedIn and Medium adapters.
- `discord.dfy`: the Discord adapter.
- `twitter.dfy`: the Twitter adapter.
- `cache.dfy`: the cache and the routes.

## Model

| member | source | states |
|---|---|---|
| TtlCache.Fetch | index.js:18-35 | One call of `fetchWithCache`. The producer runs exactly when the entry is missing or stale. The reply is an error exactly when the producer ran and threw, and then the map is unchanged. The call removes no key and adds at most its own. |
| TtlCache.Root | index.js:38-53 | The `/` route as five sequential calls on the five source keys. No key is removed, and only source keys are added. |
| TtlCache.IsStale | index.js:21 | An entry must be refetched when it is missing or strictly more than `CACHE_DURATION_MS` (43 200 000 ms) old. |
| TtlCache.FreshEntryIsServed | index.js:21-34 | A fresh entry is returned as stored. The producer is not called and the map is unchanged. |
| TtlCache.RefreshStoresData | index.js:21-25 | A missing or stale entry whose producer resolves is replaced by the new data stamped with the call time. That data is returned and every other key is unchanged. |
| TtlCache.FailureIsNotCached | index.js:26-29 | A producer that throws gives `{ error: message }` and leaves the map unchanged. The next call at any later time calls the producer again. |
| TtlCache.CachedForWholeWindow | index.js:21-25 | After a successful fetch at t, a call at any time up to t + TTL returns that data without calling the producer. This holds even when the data is the adapters' soft failure `null`. |
| TtlCache.ResolvingProducerNeverErrs | index.js:23-34 | A producer that resolves never produces an `{ error }` reply. |
| TtlCache.FetchLeavesOtherKeys | index.js:25 | A call changes no key but its own. |
| TtlCache.FetchReadsOnlyItsKey | index.js:18-35 | The reply, the decision to call the producer, and the resulting entry depend only on the entry under the call's own key. |
| TtlCache.FetchesOnDistinctKeysCommute | index.js:18-35 | Calls on two distinct keys give the same replies and the same final map in either order. |
| TtlCache.Run | index.js:18-35 | Successive calls on one key give one step per call. |
| TtlCache.NoRefetchWithinWindow | index.js:21 | No call within TTL of the entry's fetch time calls the producer. Every such call returns the stored data and leaves the map unchanged. |
| TtlCache.OneFetchPerWindow | index.js:21-25 | In a run of calls within one window that starts with a successful refetch, the first call is the only one that calls the producer. |
| TtlCache.FailuresAlwaysRetry | index.js:21-29 | While an entry is stale, every call whose producer throws calls the producer, answers the error and leaves the map unchanged. |
| TtlCache.RootSourceIsIndependent | index.js:38-53 | In the `/` route, each source's reply is what a lone call on the starting map gives. Its key ends as that lone call leaves it. |
| TtlCache.RootLeavesOtherKeys | index.js:38-53 | The `/` route touches only the five source keys. |
| TtlCache.RootIsOrderIndependent | index.js:39-45 | The five calls' replies and final entries do not depend on their order. |
| TtlCache.RootOnEmptyCache | index.js:38-53 | On an empty cache, five resolving producers come back exactly as they resolved, each under its own key. |
| TtlCache.DiscordRouteNeverRefreshes | index.js:63-70 | The `/discord` route never changes the map. It answers the ReferenceError exactly when the `discord` entry is missing or stale, and the stored data otherwise. |
| TtlCache.Cache.constructor | index.js:15 | The cache starts empty. |
| TtlCache.Cache.FetchWithCache | index.js:18-35 | The reply, the new map and whether the producer ran are exactly one `Fetch` step from the old map. |
| TtlCache.Cache.RootRoute | index.js:38-53 | The response record and the new map are `Root` of the old map: five sequential cached fetches. |
| TtlCache.Cache.SourceRoute | index.js:55-82 | Each single-source route other than `/discord` is one cached fetch on that source's key. `/discord` is `DiscordRoute`. |
| TtlCache.Cache.DiscordRoute | index.js:63-70 | The map is unchanged. The reply is the `Fetch` reply for a producer that throws the ReferenceError. |
| Digits.RunValueZero | index.js:111 | A digit run is worth 0 exactly when every digit is '0'. This is why a token like "000" is not truthy. |
| Digits.DecimalString | index.js:177 | `toString` of a count is a canonical decimal numeral: only digits, and no leading zero unless it is "0". |
| Digits.DecimalStringValue | index.js:177 | The numeral `toString` writes reads back as the same number. |
| Digits.LeadingDigitPositive | index.js:111 | A digit run that starts with a non-zero digit has a positive value. |
| Digits.CanonicalDecimalRoundTrip | index.js:177 | Every canonical numeral is the `toString` of its value, which is the other direction of the round trip. |
| Digits.RunValueAppend | index.js:138 | The value of two digit runs placed side by side is the first value shifted by the length of the second, plus the second value. |
| JsStrings.Trim | index.js:106 | `trim()` as the start trim followed by the end trim. `TrimIsSlice` states what it returns. |
| JsStrings.TrimStartSpec | index.js:106 | Trimming the start drops exactly a whitespace prefix and leaves a suffix that does not start with whitespace. |
| JsStrings.TrimEndSpec | index.js:106 | Trimming the end drops exactly a whitespace suffix and leaves a prefix that does not end with whitespace. |
| JsStrings.TrimIsSlice | index.js:135 | `trim()` returns a slice of the text. Everything outside the slice is whitespace and the slice has none at either end. |
| JsStrings.RemoveAll | index.js:109 | `replaceAll(c, "")` as the removal of every occurrence of c. `RemoveAllSpec` and `RemoveAllIsSplitJoin` state its properties. |
| JsStrings.RemoveAllSpec | index.js:109 | After `replaceAll(",", "")` no comma is left. Text without commas is unchanged. |
| JsStrings.RemoveAllIsSplitJoin | index.js:109 | `replaceAll(c, "")` equals splitting on c and joining the pieces with "". |
| JsStrings.Split | index.js:110 | `split` always returns at least one piece. |
| JsStrings.SplitSpec | index.js:136 | No piece of `split(sep)` contains the separator. The first piece is the prefix up to the first separator, or the whole string. |
| JsStrings.SplitKeepsAbsent | index.js:109-110 | A character absent from the text is absent from every piece. |
| JsStrings.JoinSplit | index.js:110 | Joining the pieces of `split(sep)` with sep gives back the text. |
| JsStrings.SplitJoin | index.js:110 | Splitting separator-free pieces joined with sep gives back the pieces. This is the other direction of the inverse. |
| JsStrings.SplitAfterPiece | index.js:136 | A separator-free piece followed by the separator is the first element of the split. |
| JsStrings.SplitNoSeparator | index.js:136 | Text without the separator splits into itself. |
| JsStrings.ReplaceFirst | index.js:138 | A string-pattern `replace` of one character. `ReplaceFirstAbsent` and `ReplaceFirstAt` state its properties. |
| JsStrings.ReplaceFirstAbsent | index.js:138 | `replace` leaves text without the character unchanged. |
| JsStrings.ReplaceFirstAt | index.js:138 | `replace("k", r)` substitutes r for the first 'k' only and keeps the rest. |
| JsStrings.LeadingRun | index.js:111 | The run `parseInt` reads consists of digits only. |
| JsStrings.LeadingRunSpec | index.js:111 | The run is a prefix that stops at the first non-digit. |
| JsStrings.LeadingRunOfDigits | index.js:111 | A string of digits is read whole. |
| JsStrings.LeadingRunStops | index.js:111 | A run followed by a non-digit is read up to that non-digit. |
| JsStrings.NumeralOf | index.js:111 | `parseInt` without a radix reads base 10, or base 16 after "0x" or "0X". |
| JsStrings.ParseInt | index.js:111 | `parseInt` is NaN exactly when no digit follows the whitespace, sign and prefix. |
| JsStrings.ParseIntTruthyIff | index.js:111 | `parseInt(x)` is truthy exactly when the digit run it reads has a non-zero digit. |
| JsStrings.ParseIntOfDigits | index.js:111 | A non-empty decimal digit string parses to its value. |
| JsStrings.ParseIntDecimalString | index.js:177 | `parseInt` reads the `toString` of any count back as that count. |
| Scrapers.FindTruthy | index.js:111 | `find((x) => Number.parseInt(x))`. A found token is one of the tokens and is truthy under `parseInt`. Nothing is found exactly when every token is falsy. |
| Scrapers.FirstTruthy | index.js:111 | `find` stops at a token whose `parseInt` is truthy, and every earlier token is falsy. It finds nothing only when every token is falsy. |
| Scrapers.FindTruthyAt | index.js:111 | The first truthy token is the one `find` returns. |
| Scrapers.LinkedInCount | index.js:106-111 | A found count has no comma or space and is truthy under `parseInt`. Nothing is found exactly when every comma-free space token is falsy. |
| Scrapers.LinkedInFollowers | index.js:90-116 | The adapter answers `null` exactly when fetching the page fails. Otherwise it answers a truthy, comma-free string, or `undefined`. |
| Scrapers.MediumCount | index.js:135-138 | Medium's extraction from the trimmed heading. It finds nothing exactly when the text is empty or starts with a space, which is when the first token is empty. |
| Scrapers.MediumCountSpec | index.js:135-138 | The result is built from the first space token: nothing when it is empty, the token itself when it has no 'k', and its first 'k' replaced by "000" otherwise. |
| Scrapers.MediumOnlyFirstToken | index.js:136 | Text after the first space does not matter. |
| Scrapers.MediumNullIffBlank | index.js:135-136 | On trimmed text, the count is missing exactly when the heading is blank. |
| Scrapers.MediumFollowers | index.js:119-143 | The adapter answers `null` exactly when the fetch fails or the heading is blank, and a string otherwise. |
| Scrapers.ThousandsOfInteger | index.js:134 | "<i>k" stands for i thousand. |
| Scrapers.ThousandsOfDecimal | index.js:134 | "<i>.<f>k" stands for the decimal i.f times a thousand, exactly. |
| Scrapers.MediumShorthandAsWritten | index.js:138 | As written, "<i>.<f>k …" comes out as "<i>.<f>000". |
| Scrapers.ExpandedShorthandReadsAsInteger | index.js:138 | `parseInt` reads that "<i>.<f>000" as i, not as i.f thousand. |
| Scrapers.ParseIntStopsAtNonDigit | index.js:138 | `parseInt` of digits followed by a non-digit reads only the digits. |
| Scrapers.MediumShorthandCorrected | index.js:134-138 | Expanded as intended, "<i>.<f>k …" gives the numeral of i.f thousand, which `parseInt` reads back as that count. |
| ScraperExamples.LinkedInExample | index.js:105-111 | "San Francisco, CA  2,847,935 followers" yields "2847935". |
| ScraperExamples.MediumPlainExample | index.js:134-138 | "35 followers" yields "35". |
| ScraperExamples.MediumShorthandExample | index.js:134-138 | "1.2k followers" yields "1.2000" as written. |
| ScraperExamples.MediumShorthandCorrectedExample | index.js:134-138 | "1.2k followers" yields "1200" when expanded as intended. |
| ScraperExamples.MediumEmptyExample | index.js:136-141 | An empty heading yields `null`. |
| DiscordMembers.Mee6Leaderboard | index.js:145-161 | One leaderboard request. `apiUrl` is unused and `page` defaults to 0. Its properties are stated by the two lemmas below. |
| DiscordMembers.ApiUrlIsIgnored | index.js:145-148 | The `apiUrl` argument has no effect on the request. |
| DiscordMembers.OneArgumentAsksForPageZero | index.js:145-148 | A call with one argument asks for page 0. |
| DiscordMembers.Accumulates | index.js:164-182 | The loop's specification. A run makes at most 100 requests and goes on only past non-empty replies. It stops at the first empty or failed reply, or at the limit. It answers `null` when the last request failed, and the decimal total otherwise. |
| DiscordMembers.AccumulatesIsDeterministic | index.js:164-182 | The loop's specification admits exactly one answer and one request count. |
| DiscordMembers.GetDiscordServerMembers | index.js:164-182 | As written, the loop makes at most 100 requests and stops at the first empty or failed one. It answers `null` on a failure and the decimal sum otherwise. Every request asks for page 0. |
| DiscordMembers.GetDiscordServerMembersPaged | index.js:164-182 | The same loop with request j asking for page j. |
| DiscordMembers.TotalOfFirstPage | index.js:169 | Asking for page 0 n times counts the first page n times. |
| DiscordMembers.TotalOfPages | index.js:168-173 | Asking for pages 0 to n-1 counts their sum. |
| DiscordMembers.AsWrittenRepeatsFirstPage | index.js:168-177 | As written, a fixed leaderboard with a non-empty first page gives 100 times that page after 100 requests. |
| DiscordMembers.PagedStopsAtFirstEmptyPage | index.js:168-177 | Paged, a fixed leaderboard gives the sum of the pages before its first empty page. |
| DiscordMembers.FiftyFiftyZeroPaged | index.js:164-182 | Pages of [50, 50, 0] give "100" after three requests. |
| DiscordMembers.FiftyFiftyZeroAsWritten | index.js:164-182 | The same pages give "5000" after 100 requests as written. |
| TwitterFollowers.FollowersPath | index.js:209 | `json.data.public_metrics.followers_count` throws unless the body is an object whose `data` is an object holding a `public_metrics` that is neither `null` nor `undefined`. |
| TwitterFollowers.Member | index.js:209 | Reading a property throws exactly on `null` or `undefined`. A missing property of an object is `undefined`. |
| TwitterFollowers.FollowersCount | index.js:197-214 | A fetch failure, a non-200 status or a body that is not JSON gives `null`. |
| TwitterFollowers.TwitterFollowers | index.js:216-229 | The Twitter producer always resolves. A count other than `null` or `undefined` comes from a response. |
| TwitterFollowers.CountComesFromMetrics | index.js:205-209 | A count other than `null` or `undefined` comes only from a 200 response. Its JSON body holds a `data.public_metrics` object, and the count is that object's `followers_count`. |
| TwitterFollowers.MetricsGiveCount | index.js:208-209 | Conversely, a 200 body holding `data.public_metrics` gives its `followers_count`, or `undefined` when it has none. |
| TwitterFollowers.MissingDataIsNull | index.js:209-212 | A 200 body without `data` gives `null`. |
| TwitterFollowers.MissingMetricsIsNull | index.js:209-212 | A 200 body whose `data` has no `public_metrics` gives `null`. |
| TwitterFollowers.DocumentedBodyExample | index.js:199-209 | The documented response shape gives the count as a number. |

## Left out

- **The Express server and the HTTP plumbing.** Routing, `res.json`, the listener and the `PORT` variable are left out. Each route is modelled as the cache calls it makes.
- **Logging.** `console.log` and `console.error` have no observable effect on results.
- **Environment loading.** dotenv and the environment lookups are left out. `CACHE_DURATION_MS` is the default 43 200 000 ms. An environment value would be a string that JavaScript coerces during the comparison; that coercion is not modelled.
- **The network and HTML parsing.** `fetch`, `response.text()`/`json()` and cheerio's `load` with `$("h…").first().text()` become inputs:
  - `Scrapers.Scrape` for the scrapers.
  - `DiscordMembers.Leaderboard` for Discord, with replies that may change between calls.
  - `TwitterFollowers.UserResponse` for Twitter.
  The clock (`Date.now()`) is the `now` parameter.
- **Telegram.** The adapter (index.js:185-194) only calls the Telegram bot library, which is not part of this model. Its result reaches the cache as an opaque producer outcome.
- **Concurrency.** `Promise.all` lets the five fetches interleave at their awaits. Concurrent calls on the same key can therefore fetch twice. The model runs each call atomically and in order, and proves that order does not matter for distinct keys. All five calls share one `now`.
- **Time stamps.** The stored time stamp is the time read before the producer's await, as in the source. The model does not represent how long the producer takes.
- **Discord delay.** The 100 ms `setTimeout` delay between Discord requests is timing only and is left out.
- **Numbers.** They are unbounded integers. Floating point, `parseInt` precision loss on very long digit runs and `Infinity` are left out. A `followers_count` that is a fractional JSON number is not representable.
- **Twitter inputs.** The commented-out `getUserId` is not modelled. The bearer token is not modelled.
- **The `catch` of `getTwitterFollowers`.** It (index.js:225-228) is unreachable, because `getFollowersCount` never throws. The model therefore has no error branch.
- **Where the code does not do what it evidently means.** Two cases:
  - The comment at index.js:134 names "1.2k followers" as an expected Medium heading, so a thousands count is meant. As written, it yields "1.2000", not 1200, because `replace("k", "000")` is a textual substitution.
  - The comment at index.js:163 says the Discord loop fetches multiple pages. As written, the loop passes its counter as the `apiUrl` argument, so every request asks for page 0.
  Both are modelled as written and listed under Findings with their corrections.
- **Leaderboard replies without a length.** `DiscordMembers.PageResult` cannot represent a `players` value that is an object without `length`. For such a reply, index.js:153 returns `undefined`, `members` becomes NaN and the loop answers "NaN". This case is not modelled.

## Findings

| source | as written | input that shows it | evidently intended | confidence | as-written member | corrected member |
|---|---|---|---|---|---|---|
| index.js:169 | `getMee6LeaderboardDiscord(page)` passes the counter as `apiUrl`, so `page` keeps its default 0 on every request. | A leaderboard with pages of 50, 50 and 0 players gives "5000" after 100 requests. | Request j asks for page j, giving "100" after three requests. | not executed | DiscordMembers.FiftyFiftyZeroAsWritten | DiscordMembers.FiftyFiftyZeroPaged |
| index.js:138 | `replace("k", "000")` appends three zeros to the text, so a decimal shorthand keeps its point. | The heading "1.2k followers" gives "1.2000", which `parseInt` reads as 1. | "1.2k" stands for 1200. | not executed | Scrapers.MediumShorthandAsWritten | Scrapers.MediumShorthandCorrected |
