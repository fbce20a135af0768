/**
 * GET /api/stats/:username: asks both per-source routes over HTTP, waits
 * for both to settle, and reports each outcome in its own slot. A source
 * that fails is marked in its slot; the envelope itself still succeeds.
 */
module Combined {
  import opened Common
  import opened Handlers
  import LeetCode
  import GitHub

  /** A slot of the combined answer: the per-source body, or the generic failure marker. */
  datatype Slot = Body(response: Response) | FetchFailed

  /** `{success, leetcode, github}`. */
  datatype CombinedResponse = CombinedResponse(success: bool, leetcode: Slot, github: Slot)

  /** `override || username`: a missing or empty override falls back to the path username. */
  function ResolveUsername(override: Option<string>, username: string): (r: string)
    ensures r == username || (override.Some? && r == override.value)
    ensures r == username <== override.None? || override.value == "" || override.value == username
    ensures override.Some? && override.value != "" ==> r == override.value
  {
    if override.Some? && override.value != "" then override.value else username
  }

  /**
   * The settled self-call to a per-source route. The HTTP client rejects
   * every status outside 2xx, so only a served answer arrives as a body.
   */
  function OverHttp(r: Response): (s: Settled<Response>)
    ensures s.Fulfilled? <==> r.Served?
    ensures s.Fulfilled? ==> s.value == r
  {
    if r.Served? then Fulfilled(r) else Rejected
  }

  /** Did the slot carry a successful per-source answer? */
  predicate SlotSucceeded(s: Slot) {
    s.Body? && s.response.Served?
  }

  function SlotOf(s: Settled<Response>): Slot {
    match s
    case Fulfilled(body) => Body(body)
    case Rejected => FetchFailed
  }

  /** Composes the two settled outcomes; composition never fails. */
  function Compose(lc: Settled<Response>, gh: Settled<Response>): (r: CombinedResponse)
    ensures r.success
    ensures r.leetcode == FetchFailed <==> lc.Rejected?
    ensures r.github == FetchFailed <==> gh.Rejected?
    ensures lc.Fulfilled? ==> r.leetcode == Body(lc.value)
    ensures gh.Fulfilled? ==> r.github == Body(gh.value)
  {
    CombinedResponse(true, SlotOf(lc), SlotOf(gh))
  }

  /**
   * Each slot depends on its own source alone: whatever happened to the
   * other source, a slot reads the same.
   */
  lemma SlotsIndependent(lc: Settled<Response>, gh: Settled<Response>,
                         lc': Settled<Response>, gh': Settled<Response>)
    ensures Compose(lc, gh).leetcode == Compose(lc, gh').leetcode
    ensures Compose(lc, gh).github == Compose(lc', gh).github
  {
  }

  /**
   * When the judge route fails (404 or 500) and the hosting route serves a
   * record, the answer succeeds overall, marks the judge slot as failed and
   * carries the hosting record.
   */
  lemma JudgeFailureDoesNotMaskHosting(lc: Response, gh: Response)
    requires lc.Failed? && gh.Served?
    ensures var r := Compose(OverHttp(lc), OverHttp(gh));
      r.success && r.leetcode == FetchFailed && !SlotSucceeded(r.leetcode)
      && r.github == Body(gh) && SlotSucceeded(r.github)
  {
  }

  /**
   * The route, with the two self-calls run one after the other on the
   * shared cache (CombinedRequestsCommute shows the order changes
   * neither answer nor the final cache).
   */
  method StatsRoute(cache: Cache.NodeCache<Record>, username: string,
                    leetcodeUsername: Option<string>, githubUsername: Option<string>,
                    now: int, currentYear: int,
                    lcUpstream: Settled<LeetCode.LeetCodeReply>,
                    calendar: Settled<GitHub.ContributionsReply>,
                    profile: Settled<GitHub.GitHubProfile>)
    returns (response: CombinedResponse)
    modifies cache
    ensures var lc := HandleLeetCode(old(cache.entries), ResolveUsername(leetcodeUsername, username), now, lcUpstream);
      var gh := HandleGitHub(lc.entries, ResolveUsername(githubUsername, username), now, currentYear, calendar, profile);
      && response == Compose(OverHttp(lc.response), OverHttp(gh.response))
      && cache.entries == gh.entries
  {
    var lcUsername := ResolveUsername(leetcodeUsername, username);
    var ghUsername := ResolveUsername(githubUsername, username);
    var lcResponse, _ := LeetCodeRoute(cache, lcUsername, now, lcUpstream);
    var ghResponse, _ := GitHubRoute(cache, ghUsername, now, currentYear, calendar, profile);
    response := Compose(OverHttp(lcResponse), OverHttp(ghResponse));
  }
}
