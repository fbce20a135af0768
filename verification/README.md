# Portfolio stats proxy — a Dafny model

The server is a small caching proxy. It fetches a user's statistics from a
competitive-programming judge (LeetCode) and from a code-hosting platform
(GitHub). It normalises each reply into a fixed record and keeps records in a
process-wide cache for 24 hours. It serves them over a JSON API. This project
models the logic of `backend/server.js` and proves properties of it:

- `contributions.dfy` (module `Contributions`): the reshaper `processContributions`.
  It turns the flat daily list into exactly 53 weeks of 7 days and pads with
  `{date: null, count: 0}`. `ProcessContributions` keeps the source's nested loops.
  `Grid` is an independent reference definition: take the cells, then cut them
  into runs of seven.
- `leetcode.dfy` (module `LeetCode`): the judge record's normalisation. Each
  count is the count of the first `{difficulty, count}` pair with that label,
  or 0. JavaScript's `x || null` is written out as `NonZero` / `NonEmpty`.
  Because of that, a ranking or top percentage of 0, or an empty avatar URL,
  becomes null.
- `github.dfy` (module `GitHub`): the hosting record merges the calendar and
  profile replies. A missing daily list makes the reshaper throw, and the
  request ends in a 500. The `lastYear: contributions.contributions || []`
  fallback is still evaluated before the throw, but its value is never returned.
- `cache.dfy` (module `Cache`): the cache library. `NodeCache` is a class whose
  `map` field the route methods update in place. `Lookup` is the read rule.
- `handlers.dfy` (module `Handlers`): the cache key `<source>_<username>` and
  the read-through discipline (`ReadThrough`). `HandleLeetCode` / `HandleGitHub`
  are pure specifications of the two routes. `LeetCodeRoute` / `GitHubRoute`
  do the same steps on the cache object. The module also holds the cache
  admin routes.
- `combined.dfy` (module `Combined`): `/api/stats/:username`. It resolves the
  usernames, maps each settled self-call to its slot, and always reports
  `success: true` in the envelope.

Outbound calls are inputs of type `Settled<T>`: `Fulfilled(reply)` or `Rejected`
(the awaited promise throws). The handlers report how many upstream calls they
made, so "a cache hit calls no upstream" is stated, not implied. The clock is a
parameter: `now` is in seconds and `currentYear` replaces `getFullYear()`.

Two rules come from libraries whose code is not part of this model. They are
stated as assumptions:
- Cache expiry: an entry stored at `t` is served while `now - t < 86400`.
- HTTP client: the client rejects every status outside 2xx. So in the combined
  route, a 404 or 500 from a per-source route reaches its slot as
  `{success: false, error: 'Failed to fetch'}`, not as the route's own body.
  This follows the code. A design that called the retrieval functions directly
  would pass the per-source error body through instead.

## Model

| member | source | states |
|---|---|---|
| Contributions.ProcessContributions | backend/server.js:248-271 | the nested loops build exactly the reference grid `Grid(days)`, for every input length including 0 |
| Contributions.Grid | backend/server.js:249-268 | exactly 53 weeks of exactly 7 cells; cell (w, d) is the date and count of input `w*7+d` when that exists, and padding otherwise |
| Contributions.Cells | backend/server.js:257-265 | the 371 cells in reading order: input i projected while i < length, padding after |
| Contributions.ProjectAll | backend/server.js:259-262 | each input day becomes a cell with the same date and count, same length, same order |
| Contributions.Fill | backend/server.js:263-265 | n cells, all `{date: null, count: 0}` |
| Contributions.Chunk | backend/server.js:254-268 | a list of length 7k is cut into k weeks, week w being cells 7w to 7w+6 |
| Contributions.FlattenChunk | backend/server.js:254-268 | concatenating the weeks in order gives back exactly the cells that were chunked |
| Contributions.GridFlattens | backend/server.js:257-265 | read in order, the grid is the first min(length, 371) inputs followed only by padding |
| Contributions.GridPaddingExactlyPastEnd | backend/server.js:258-265 | a cell has no date if and only if its position w*7+d is at or past the input length, and such a cell is exactly the padding |
| Contributions.GridIgnoresTail | backend/server.js:254-258 | inputs at index 371 or above never affect the grid |
| LeetCode.CountIsFirstMatch | backend/server.js:102-105 | the count taken for a label is the count of the first pair with that label, or 0 if no pair has it |
| LeetCode.CountIgnoresOtherLabels | backend/server.js:102-105 | inserting a pair with another label anywhere in the list leaves a label's count unchanged |
| LeetCode.NonZero | backend/server.js:106-110 | the or-null fallback on a number: present exactly when x is present and non-zero, and then equal to x |
| LeetCode.NonEmpty | backend/server.js:107 | the or-null fallback on a string: present exactly when s is present and non-empty, and then equal to s |
| LeetCode.Normalise | backend/server.js:96-111 | fails exactly when the submission list is missing; otherwise the username is copied and easy/medium/hard/total are the first 'Easy'/'Medium'/'Hard'/'All' counts or 0; ranking and avatar are the profile's values after the or-null fallback (so 0 and empty become null), and both are null when the profile is missing; contests, rating and top percentage come from the contest record (top percentage after the or-null fallback), and a missing contest record gives 0 contests, 0 rating and null top percentage |
| LeetCode.NormaliseIgnoresOtherLabels | backend/server.js:100-105 | a pair whose label is not one of the four never changes the normalised record |
| GitHub.Normalise | backend/server.js:173-190 | fails exactly when the daily list is missing; otherwise profile fields are copied from the profile reply; the total is the current year's reported total, or 0 when there are no totals or none for that year; the raw list is kept; the weeks are exactly `Grid` of the daily list (53 weeks of 7 days), which read in order give the first 371 days and then padding |
| Cache.LookupAfterStore | backend/server.js:11 | a value stored at time t is read back unchanged while now - t < 86400, and is absent afterwards |
| Cache.StoreLeavesOtherKeys | backend/server.js:114 | storing under one key changes no other key's reading |
| Cache.NodeCache.constructor | backend/server.js:11 | a new cache is empty |
| Cache.NodeCache.Get | backend/server.js:42 | yields the stored value exactly when the key is stored and its entry is alive |
| Cache.NodeCache.Set | backend/server.js:114 | the key now maps to the value stamped with the current time; every other key is unchanged |
| Cache.NodeCache.FlushAll | backend/server.js:285 | the cache is empty afterwards |
| Cache.NodeCache.Keys | backend/server.js:275 | lists every stored key, each exactly once, and nothing else |
| Handlers.CacheKeyInjective | backend/server.js:38 | keys `leetcode_<u>` and `github_<u>` determine source and username, so no two requests for different sources or users share an entry |
| Handlers.HandleLeetCode | backend/server.js:36-131 | obeys the read-through discipline (hit: stored value unchanged, `cached: true`, no upstream call, cache untouched; miss: one upstream call, success stored under `leetcode_<u>` only and `cached: false`, failure leaves the cache unchanged); on a miss whose reply has a matched user that normalises, the answer is that normalised record with `cached: false` (and so it is stored); a fresh record is always the normalised reply; 404 'User not found' exactly when the reply has no matched user on a miss; otherwise failures are 500 |
| Handlers.HandleGitHub | backend/server.js:134-210 | obeys the read-through discipline for `github_<u>`; exactly one upstream call when the calendar call fails on a miss, so the profile is never asked; on a miss where both calls are fulfilled and the daily list is present, the answer is the normalised merge with `cached: false` (and so it is stored); a fresh record is always that merge; every failure (either call throwing, or a missing daily list) is a 500 and stores nothing |
| Handlers.FreshThenCached | backend/server.js:40-51 | after a request stores a fresh record, a request within the time-to-live is answered with that record, `cached: true`, no upstream call, and the cache unchanged |
| Handlers.ExpiredThenFetched | backend/server.js:11 | once the time-to-live has elapsed, the next request calls upstream again, and on success stores the new record stamped with the new time |
| Handlers.ReadThroughLeavesOtherKeys | backend/server.js:113-114 | a request changes what no other key reads, at any time |
| Handlers.LeetCodeSecondRequestCached | backend/server.js:42-51 | two rapid requests for one judge user answer `cached: false`, then `cached: true` with the same record |
| Handlers.GitHubUnaffectedByLeetCode | backend/server.js:223-226 | a judge request run first never changes the hosting route's answer |
| Handlers.LeetCodeUnaffectedByGitHub | backend/server.js:223-226 | a hosting request run first never changes the judge route's answer |
| Handlers.CombinedRequestsCommute | backend/server.js:223-226 | the combined route's two requests, run in either order, give the same two answers and leave the same cache |
| Handlers.LeetCodeRoute | backend/server.js:36-131 | the route method on the cache object returns the answer and call count of `HandleLeetCode` and leaves the cache as it says |
| Handlers.GitHubRoute | backend/server.js:134-210 | the route method, reshaping with `ProcessContributions`, returns the answer and call count of `HandleGitHub` and leaves the cache as it says |
| Handlers.CacheStatsRoute | backend/server.js:274-281 | `totalCached` is the number of listed keys, and the list is the stored keys, each once |
| Handlers.CacheClearRoute | backend/server.js:284-290 | answers success 'Cache cleared'; afterwards nothing is stored and every key reads as absent |
| Combined.ResolveUsername | backend/server.js:219-220 | a present, non-empty override wins; otherwise the path username is used |
| Combined.OverHttp | backend/server.js:223-226 | a per-source answer arrives as a body exactly when the route served a record; 404 and 500 answers settle as rejected |
| Combined.Compose | backend/server.js:228-233 | the envelope always reports success; a slot is 'Failed to fetch' exactly when its call was rejected, and otherwise carries that call's body |
| Combined.SlotsIndependent | backend/server.js:230-231 | each slot depends only on its own source's outcome |
| Combined.JudgeFailureDoesNotMaskHosting | backend/server.js:228-233 | judge route failing and hosting route serving gives success overall, a failed judge slot and the hosting record in its slot |
| Combined.StatsRoute | backend/server.js:213-245 | resolves both usernames, runs the judge route then the hosting route on the shared cache, and answers the composition of their settled outcomes |

## Left out

- Express setup, CORS, the JSON middleware, the health route, the error and 404 handlers, the startup banner and console logging: framework glue with no logic.
- The HTTP requests themselves (the judge's GraphQL query, the calendar service, the platform's user endpoint, the optional token header, the 10 s calendar timeout): network I/O. Each call is an input `Settled<T>`, and a timeout is one way of being `Rejected`.
- Combined.StatsRoute: runs the two self-calls one after the other rather than concurrently with `Promise.allSettled`. `CombinedRequestsCommute` shows that the order changes neither answer nor the final cache. A self-call that fails at the network level, with the local server unreachable, is not modelled apart from a route's own 404 or 500. The `catch` branch that answers 500 'Failed to fetch combined stats' cannot be reached in the model, because composition is total.
- Cache library internals: the 120 s background sweep, the deletion of an expired entry on read, value cloning, and the `getStats()` hit/miss counters. The expiry rule `now - storedAt < 86400` is an assumption. Because nothing is swept, `Keys` also lists entries that have expired but are still stored, as the library does between sweeps. The order of the listed keys is not modelled.
- Combined.StatsRoute: passes each resolved username straight to its route. The source puts it unencoded into the self-call's URL, so a name containing '/', '?', '#' or '%' reaches a different route (the 404 handler, giving a 'Failed to fetch' slot) or a different username. Such names are not modelled.
- Handlers.HandleLeetCode, Handlers.HandleGitHub and the route methods: stamp a stored entry with the request's time `now`. The source stores it after the upstream calls return, so its insertion time is later by the upstream latency. The model does not capture that delay.
- Handlers.CacheStatsRoute: does not return the library's `stats` counters.
- `Math.round` on the contest rating: the rating is taken as an integer that is already rounded. The top percentage is an opaque integer.
- Timestamps (`new Date().toISOString()`) and the `message` field of 500 answers (the caught exception's text): the wall clock and runtime error texts are not modelled. `getFullYear()` is the parameter `currentYear`.
- JavaScript values that the model's types exclude: a null difficulty count (the model's counts are integers, and `|| 0` is the identity on them), NaN, a non-array daily list, and array-valued query parameters.
- `frontend-api-integration.js` is not part of this model: it is browser-side fetching, DOM updates and counter animation.
