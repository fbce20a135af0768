/**
 * The two per-source routes and the cache admin routes. Each per-source
 * route is a read-through cache in front of one upstream: a live entry is
 * answered with `cached: true`; otherwise the upstream is asked, and only a
 * successfully normalised record is stored and answered with `cached: false`.
 */
module Handlers {
  import opened Common
  import opened Cache
  import LeetCode
  import GitHub
  import Contributions

  datatype Source = LeetCodeSource | GitHubSource

  /** A cached record of either source; both share one cache. */
  datatype Record =
    | LeetCodeRecord(leetcode: LeetCode.LeetCodeStats)
    | GitHubRecord(github: GitHub.GitHubStats)

  /**
   * A route's answer: `{success: true, data, cached}` with status 200, or
   * `{success: false, error}` with the given status.
   */
  datatype Response =
    | Served(data: Record, cached: bool)
    | Failed(status: int, error: string)

  type Store = map<string, Entry<Record>>

  /** One request's effect: the answer, the cache afterwards, and how many upstream calls were made. */
  datatype Exchange = Exchange(response: Response, entries: Store, upstreamCalls: nat)

  const NotFoundError: string := "User not found"
  const LeetCodeError: string := "Failed to fetch LeetCode data"
  const GitHubError: string := "Failed to fetch GitHub data"

  function Prefix(source: Source): string {
    match source
    case LeetCodeSource => "leetcode"
    case GitHubSource => "github"
  }

  /** The cache key `<source>_<username>`. */
  function CacheKey(source: Source, username: string): string {
    Prefix(source) + "_" + username
  }

  /** Distinct (source, username) pairs never share a cache entry. */
  lemma CacheKeyInjective(s1: Source, u1: string, s2: Source, u2: string)
    requires CacheKey(s1, u1) == CacheKey(s2, u2)
    ensures s1 == s2 && u1 == u2
  {
    var k := CacheKey(s1, u1);
    assert k[0] == Prefix(s1)[0];
    assert CacheKey(s2, u2)[0] == Prefix(s2)[0];
    var n := |Prefix(s1)| + 1;
    assert u1 == k[n..];
    assert u2 == CacheKey(s2, u2)[n..];
  }

  /**
   * The read-through discipline of one request for `key` at time `now`:
   * a live entry is returned unchanged, tagged cached, with no upstream call
   * and no change to the cache; on a miss the upstream is called, a success
   * is stored under `key` alone and tagged not cached, and a failure leaves
   * the cache as it was.
   */
  ghost predicate ReadThrough(before: Store, key: string, now: int, x: Exchange) {
    match Lookup(before, key, now)
    case Some(v) => x == Exchange(Served(v, true), before, 0)
    case None =>
      && x.upstreamCalls > 0
      && match x.response
         case Served(d, cached) => !cached && x.entries == before[key := Entry(d, now)]
         case Failed(_, _) => x.entries == before
  }

  /** GET /api/leetcode/:username, with the judge's reply (or its failure) as `upstream`. */
  function HandleLeetCode(entries: Store, username: string, now: int,
                          upstream: Settled<LeetCode.LeetCodeReply>): (x: Exchange)
    ensures ReadThrough(entries, CacheKey(LeetCodeSource, username), now, x)
    ensures x.upstreamCalls <= 1
    ensures x.response.Served? ==> x.response.data.LeetCodeRecord? || x.response.cached
    ensures x.response.Served? && !x.response.cached ==>
      && upstream.Fulfilled? && upstream.value.matchedUser.Some?
      && LeetCode.Normalise(upstream.value.matchedUser.value, upstream.value.contestRanking)
         == Some(x.response.data.leetcode)
    ensures x.response == Failed(404, NotFoundError) <==>
      Lookup(entries, CacheKey(LeetCodeSource, username), now).None?
      && upstream.Fulfilled? && upstream.value.matchedUser.None?
    ensures x.response.Failed? ==>
      x.response == Failed(404, NotFoundError) || x.response == Failed(500, LeetCodeError)
    ensures
      && Lookup(entries, CacheKey(LeetCodeSource, username), now).None?
      && upstream.Fulfilled? && upstream.value.matchedUser.Some?
      && LeetCode.Normalise(upstream.value.matchedUser.value, upstream.value.contestRanking).Some?
      ==> x.response == Served(LeetCodeRecord(
            LeetCode.Normalise(upstream.value.matchedUser.value, upstream.value.contestRanking).value), false)
  {
    var key := CacheKey(LeetCodeSource, username);
    match Lookup(entries, key, now)
    case Some(v) => Exchange(Served(v, true), entries, 0)
    case None =>
      match upstream
      case Rejected => Exchange(Failed(500, LeetCodeError), entries, 1)
      case Fulfilled(reply) =>
        match reply.matchedUser
        case None => Exchange(Failed(404, NotFoundError), entries, 1)
        case Some(user) =>
          match LeetCode.Normalise(user, reply.contestRanking)
          case None => Exchange(Failed(500, LeetCodeError), entries, 1)
          case Some(stats) =>
            var rec := LeetCodeRecord(stats);
            Exchange(Served(rec, false), entries[key := Entry(rec, now)], 1)
  }

  /**
   * GET /api/github/:username. The calendar is fetched first and the
   * profile second; a failed calendar call means the profile is never asked.
   */
  function HandleGitHub(entries: Store, username: string, now: int, currentYear: int,
                        calendar: Settled<GitHub.ContributionsReply>,
                        profile: Settled<GitHub.GitHubProfile>): (x: Exchange)
    ensures ReadThrough(entries, CacheKey(GitHubSource, username), now, x)
    ensures x.upstreamCalls <= 2
    ensures x.upstreamCalls == 1 <==>
      Lookup(entries, CacheKey(GitHubSource, username), now).None? && calendar.Rejected?
    ensures x.response.Served? ==> x.response.data.GitHubRecord? || x.response.cached
    ensures x.response.Served? && !x.response.cached ==>
      && calendar.Fulfilled? && profile.Fulfilled?
      && GitHub.Normalise(calendar.value, profile.value, currentYear) == Some(x.response.data.github)
    ensures x.response.Failed? ==> x.response == Failed(500, GitHubError)
    ensures
      && Lookup(entries, CacheKey(GitHubSource, username), now).None?
      && calendar.Fulfilled? && profile.Fulfilled?
      && GitHub.Normalise(calendar.value, profile.value, currentYear).Some?
      ==> x.response == Served(GitHubRecord(
            GitHub.Normalise(calendar.value, profile.value, currentYear).value), false)
  {
    var key := CacheKey(GitHubSource, username);
    match Lookup(entries, key, now)
    case Some(v) => Exchange(Served(v, true), entries, 0)
    case None =>
      match calendar
      case Rejected => Exchange(Failed(500, GitHubError), entries, 1)
      case Fulfilled(reply) =>
        match profile
        case Rejected => Exchange(Failed(500, GitHubError), entries, 2)
        case Fulfilled(p) =>
          match GitHub.Normalise(reply, p, currentYear)
          case None => Exchange(Failed(500, GitHubError), entries, 2)
          case Some(stats) =>
            var rec := GitHubRecord(stats);
            Exchange(Served(rec, false), entries[key := Entry(rec, now)], 2)
  }

  /**
   * Two requests for the same key: when the first stored a fresh record, a
   * second one within the time-to-live is served that record from the cache.
   */
  lemma FreshThenCached(before: Store, key: string, t1: int, x1: Exchange, t2: int, x2: Exchange)
    requires ReadThrough(before, key, t1, x1)
    requires x1.response.Served? && !x1.response.cached
    requires t2 - t1 < StdTTL
    requires ReadThrough(x1.entries, key, t2, x2)
    ensures x2 == Exchange(Served(x1.response.data, true), x1.entries, 0)
  {
    LookupAfterStore(before, key, x1.response.data, t1, t2);
  }

  /**
   * Once the time-to-live has run out, the next request calls the upstream
   * again, and on success replaces the stored record.
   */
  lemma ExpiredThenFetched(before: Store, key: string, t1: int, x1: Exchange, t2: int, x2: Exchange)
    requires ReadThrough(before, key, t1, x1)
    requires x1.response.Served? && !x1.response.cached
    requires t2 - t1 >= StdTTL
    requires ReadThrough(x1.entries, key, t2, x2)
    ensures x2.upstreamCalls > 0
    ensures x2.response.Served? ==>
      !x2.response.cached && key in x2.entries && x2.entries[key] == Entry(x2.response.data, t2)
  {
    LookupAfterStore(before, key, x1.response.data, t1, t2);
  }

  /** A request never changes what any other key reads. */
  lemma ReadThroughLeavesOtherKeys(before: Store, key: string, now: int, x: Exchange, other: string, t: int)
    requires ReadThrough(before, key, now, x)
    requires other != key
    ensures Lookup(x.entries, other, t) == Lookup(before, other, t)
  {
    if Lookup(before, key, now).None? && x.response.Served? {
      StoreLeavesOtherKeys(before, key, Entry(x.response.data, now), other, t);
    }
  }

  /** Two rapid requests for one judge user: `cached: false`, then `cached: true`. */
  lemma LeetCodeSecondRequestCached(entries: Store, username: string, t1: int, t2: int,
                                    first: Settled<LeetCode.LeetCodeReply>,
                                    second: Settled<LeetCode.LeetCodeReply>)
    requires HandleLeetCode(entries, username, t1, first).response.Served?
    requires !HandleLeetCode(entries, username, t1, first).response.cached
    requires t2 - t1 < StdTTL
    ensures var x1 := HandleLeetCode(entries, username, t1, first);
      HandleLeetCode(x1.entries, username, t2, second) == Exchange(Served(x1.response.data, true), x1.entries, 0)
  {
    var key := CacheKey(LeetCodeSource, username);
    var x1 := HandleLeetCode(entries, username, t1, first);
    FreshThenCached(entries, key, t1, x1, t2, HandleLeetCode(x1.entries, username, t2, second));
  }

  /**
   * A judge request never changes what a hosting request answers, so the
   * two requests of the combined route can run in either order.
   */
  lemma GitHubUnaffectedByLeetCode(entries: Store, lcUser: string, ghUser: string, now: int, currentYear: int,
                                   lcUpstream: Settled<LeetCode.LeetCodeReply>,
                                   calendar: Settled<GitHub.ContributionsReply>,
                                   profile: Settled<GitHub.GitHubProfile>)
    ensures var after := HandleLeetCode(entries, lcUser, now, lcUpstream).entries;
      HandleGitHub(after, ghUser, now, currentYear, calendar, profile).response
        == HandleGitHub(entries, ghUser, now, currentYear, calendar, profile).response
  {
    var lcKey := CacheKey(LeetCodeSource, lcUser);
    var ghKey := CacheKey(GitHubSource, ghUser);
    if lcKey == ghKey {
      CacheKeyInjective(LeetCodeSource, lcUser, GitHubSource, ghUser);
    }
    ReadThroughLeavesOtherKeys(entries, lcKey, now, HandleLeetCode(entries, lcUser, now, lcUpstream), ghKey, now);
  }

  /** A hosting request never changes the judge route's answer. */
  lemma LeetCodeUnaffectedByGitHub(entries: Store, lcUser: string, ghUser: string, now: int, currentYear: int,
                                   lcUpstream: Settled<LeetCode.LeetCodeReply>,
                                   calendar: Settled<GitHub.ContributionsReply>,
                                   profile: Settled<GitHub.GitHubProfile>)
    ensures var after := HandleGitHub(entries, ghUser, now, currentYear, calendar, profile).entries;
      HandleLeetCode(after, lcUser, now, lcUpstream).response
        == HandleLeetCode(entries, lcUser, now, lcUpstream).response
  {
    var lcKey := CacheKey(LeetCodeSource, lcUser);
    var ghKey := CacheKey(GitHubSource, ghUser);
    if lcKey == ghKey {
      CacheKeyInjective(LeetCodeSource, lcUser, GitHubSource, ghUser);
    }
    ReadThroughLeavesOtherKeys(entries, ghKey, now,
      HandleGitHub(entries, ghUser, now, currentYear, calendar, profile), lcKey, now);
  }

  /**
   * The combined route's two requests commute: run in either order they
   * give the same two answers and leave the same cache.
   */
  lemma CombinedRequestsCommute(entries: Store, lcUser: string, ghUser: string, now: int, currentYear: int,
                                lcUpstream: Settled<LeetCode.LeetCodeReply>,
                                calendar: Settled<GitHub.ContributionsReply>,
                                profile: Settled<GitHub.GitHubProfile>)
    ensures
      var lc1 := HandleLeetCode(entries, lcUser, now, lcUpstream);
      var gh1 := HandleGitHub(lc1.entries, ghUser, now, currentYear, calendar, profile);
      var gh2 := HandleGitHub(entries, ghUser, now, currentYear, calendar, profile);
      var lc2 := HandleLeetCode(gh2.entries, lcUser, now, lcUpstream);
      lc1.response == lc2.response && gh1.response == gh2.response && gh1.entries == lc2.entries
  {
    var lcKey := CacheKey(LeetCodeSource, lcUser);
    var ghKey := CacheKey(GitHubSource, ghUser);
    if lcKey == ghKey {
      CacheKeyInjective(LeetCodeSource, lcUser, GitHubSource, ghUser);
    }
    GitHubUnaffectedByLeetCode(entries, lcUser, ghUser, now, currentYear, lcUpstream, calendar, profile);
    LeetCodeUnaffectedByGitHub(entries, lcUser, ghUser, now, currentYear, lcUpstream, calendar, profile);
    var lc1 := HandleLeetCode(entries, lcUser, now, lcUpstream);
    var gh1 := HandleGitHub(lc1.entries, ghUser, now, currentYear, calendar, profile);
    var gh2 := HandleGitHub(entries, ghUser, now, currentYear, calendar, profile);
    var lc2 := HandleLeetCode(gh2.entries, lcUser, now, lcUpstream);
    if lc1.response.Served? && !lc1.response.cached && gh1.response.Served? && !gh1.response.cached {
      var l := Entry(lc1.response.data, now);
      var g := Entry(gh1.response.data, now);
      assert entries[lcKey := l][ghKey := g] == entries[ghKey := g][lcKey := l];
    }
  }

  /** The route: the same steps as HandleLeetCode, on the process-wide cache. */
  method LeetCodeRoute(cache: NodeCache<Record>, username: string, now: int,
                       upstream: Settled<LeetCode.LeetCodeReply>)
    returns (response: Response, upstreamCalls: nat)
    modifies cache
    ensures var x := HandleLeetCode(old(cache.entries), username, now, upstream);
      response == x.response && cache.entries == x.entries && upstreamCalls == x.upstreamCalls
  {
    var key := CacheKey(LeetCodeSource, username);
    var cached := cache.Get(key, now);
    if cached.Some? {
      return Served(cached.value, true), 0;
    }
    upstreamCalls := 1;
    if upstream.Rejected? {
      return Failed(500, LeetCodeError), upstreamCalls;
    }
    var reply := upstream.value;
    if reply.matchedUser.None? {
      return Failed(404, NotFoundError), upstreamCalls;
    }
    var stats := LeetCode.Normalise(reply.matchedUser.value, reply.contestRanking);
    if stats.None? {
      return Failed(500, LeetCodeError), upstreamCalls;
    }
    cache.Set(key, LeetCodeRecord(stats.value), now);
    response := Served(LeetCodeRecord(stats.value), false);
  }

  /** The route: the same steps as HandleGitHub, reshaping the calendar with the imperative reshaper. */
  method GitHubRoute(cache: NodeCache<Record>, username: string, now: int, currentYear: int,
                     calendar: Settled<GitHub.ContributionsReply>,
                     profile: Settled<GitHub.GitHubProfile>)
    returns (response: Response, upstreamCalls: nat)
    modifies cache
    ensures var x := HandleGitHub(old(cache.entries), username, now, currentYear, calendar, profile);
      response == x.response && cache.entries == x.entries && upstreamCalls == x.upstreamCalls
  {
    var key := CacheKey(GitHubSource, username);
    var cached := cache.Get(key, now);
    if cached.Some? {
      return Served(cached.value, true), 0;
    }
    upstreamCalls := 1;
    if calendar.Rejected? {
      return Failed(500, GitHubError), upstreamCalls;
    }
    upstreamCalls := 2;
    if profile.Rejected? {
      return Failed(500, GitHubError), upstreamCalls;
    }
    var reply, p := calendar.value, profile.value;
    if reply.contributions.None? {
      return Failed(500, GitHubError), upstreamCalls;
    }
    var days := reply.contributions.value;
    var weeks := Contributions.ProcessContributions(days);
    var stats := GitHub.GitHubStats(
      username := p.login,
      name := p.name,
      avatar := p.avatarUrl,
      bio := p.bio,
      publicRepos := p.publicRepos,
      followers := p.followers,
      following := p.following,
      contributions := GitHub.ContributionSummary(GitHub.YearTotal(reply.total, currentYear), days, weeks));
    cache.Set(key, GitHubRecord(stats), now);
    response := Served(GitHubRecord(stats), false);
  }

  /** GET /api/cache/stats, without the library's hit/miss counters. */
  method CacheStatsRoute(cache: NodeCache<Record>) returns (totalCached: nat, keys: seq<string>)
    ensures totalCached == |keys|
    ensures forall k :: k in keys <==> k in cache.entries
    ensures forall i, j :: 0 <= i < j < |keys| ==> keys[i] != keys[j]
  {
    keys := cache.Keys();
    totalCached := |keys|;
  }

  /** POST /api/cache/clear: afterwards no key is stored and every request misses. */
  method CacheClearRoute(cache: NodeCache<Record>) returns (success: bool, message: string)
    modifies cache
    ensures success && message == "Cache cleared"
    ensures cache.entries == map[]
    ensures forall k, t :: Lookup(cache.entries, k, t).None?
  {
    cache.FlushAll();
    success, message := true, "Cache cleared";
  }
}
