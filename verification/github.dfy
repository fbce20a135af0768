/**
 * Normalisation of the code-hosting platform's two replies (the
 * contribution calendar and the user profile) into one record.
 */
module GitHub {
  import opened Common
  import opened Contributions

  /**
   * The contribution calendar service's reply: yearly totals keyed by year
   * and the daily list; either may be missing.
   */
  datatype ContributionsReply = ContributionsReply(
    total: Option<map<int, int>>,
    contributions: Option<seq<ContributionDay>>)

  /** The profile fields the server copies from the platform's user endpoint. */
  datatype GitHubProfile = GitHubProfile(
    login: string,
    name: Option<string>,
    avatarUrl: string,
    bio: Option<string>,
    publicRepos: int,
    followers: int,
    following: int)

  datatype ContributionSummary = ContributionSummary(
    total: int,
    lastYear: seq<ContributionDay>,
    weeks: seq<seq<WeekDay>>)

  /** The normalised record. */
  datatype GitHubStats = GitHubStats(
    username: string,
    name: Option<string>,
    avatar: string,
    bio: Option<string>,
    publicRepos: int,
    followers: int,
    following: int,
    contributions: ContributionSummary)

  /** `total?.[year] || 0`: the year's total when reported, else 0. */
  function YearTotal(total: Option<map<int, int>>, year: int): int {
    if total.Some? && year in total.value then total.value[year] else 0
  }

  /**
   * Merges the two replies. None stands for the TypeError thrown when the
   * daily list is missing and the reshaper reads its length.
   */
  function Normalise(reply: ContributionsReply, profile: GitHubProfile, currentYear: int): (r: Option<GitHubStats>)
    ensures r.Some? <==> reply.contributions.Some?
    ensures r.Some? ==>
      var s := r.value;
      var days := reply.contributions.value;
      && s.username == profile.login && s.name == profile.name && s.avatar == profile.avatarUrl
      && s.bio == profile.bio && s.publicRepos == profile.publicRepos
      && s.followers == profile.followers && s.following == profile.following
      && (reply.total.None? ==> s.contributions.total == 0)
      && (reply.total.Some? && currentYear !in reply.total.value ==> s.contributions.total == 0)
      && (reply.total.Some? && currentYear in reply.total.value ==>
            s.contributions.total == reply.total.value[currentYear])
      && s.contributions.lastYear == days
      && s.contributions.weeks == Grid(days)
      && Flatten(s.contributions.weeks) == ProjectAll(days[..Min(|days|, GridSize)]) + Fill(GridSize - Min(|days|, GridSize))
  {
    match reply.contributions
    case None => None
    case Some(days) =>
      GridFlattens(days);
      Some(GitHubStats(
        username := profile.login,
        name := profile.name,
        avatar := profile.avatarUrl,
        bio := profile.bio,
        publicRepos := profile.publicRepos,
        followers := profile.followers,
        following := profile.following,
        contributions := ContributionSummary(YearTotal(reply.total, currentYear), days, Grid(days))))
  }
}
