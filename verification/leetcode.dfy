/**
 * Normalisation of the competitive-programming judge's profile reply into
 * the flat record the server returns and caches.
 */
module LeetCode {
  import opened Common

  /** One `{difficulty, count}` pair of the accepted-submission list. */
  datatype DifficultyCount = DifficultyCount(difficulty: string, count: int)

  /** The profile part of the reply; each field may be null upstream. */
  datatype Profile = Profile(ranking: Option<int>, userAvatar: Option<string>)

  /**
   * The matched user. `submitStats` is None when the reply carries no
   * accepted-submission list (reading it then throws).
   */
  datatype MatchedUser = MatchedUser(
    username: string,
    submitStats: Option<seq<DifficultyCount>>,
    profile: Option<Profile>)

  /**
   * Contest standing. `rating` is the rating already rounded to an integer;
   * `topPercentage` is an opaque number that may be null upstream.
   */
  datatype ContestRanking = ContestRanking(
    attendedContestsCount: int,
    rating: int,
    topPercentage: Option<int>)

  /** The judge's reply to the profile query. */
  datatype LeetCodeReply = LeetCodeReply(
    matchedUser: Option<MatchedUser>,
    contestRanking: Option<ContestRanking>)

  /** The normalised record. */
  datatype LeetCodeStats = LeetCodeStats(
    username: string,
    easy: int, medium: int, hard: int, total: int,
    ranking: Option<int>,
    avatar: Option<string>,
    contests: int,
    contestRating: int,
    topPercentage: Option<int>)

  /**
   * `c` is the count of the first pair labelled `tier`, or 0 when no pair
   * carries that tier.
   */
  ghost predicate IsFirstCount(stats: seq<DifficultyCount>, tier: string, c: int) {
    || (exists i :: 0 <= i < |stats| && stats[i].difficulty == tier
          && (forall j :: 0 <= j < i ==> stats[j].difficulty != tier)
          && c == stats[i].count)
    || ((forall i :: 0 <= i < |stats| ==> stats[i].difficulty != tier) && c == 0)
  }

  /** `find` for the first pair labelled `tier`, then its count, or 0. */
  function Count(stats: seq<DifficultyCount>, tier: string): int {
    if stats == [] then 0
    else if stats[0].difficulty == tier then stats[0].count
    else Count(stats[1..], tier)
  }

  lemma {:induction false} CountIsFirstMatch(stats: seq<DifficultyCount>, tier: string)
    ensures IsFirstCount(stats, tier, Count(stats, tier))
  {
    if stats != [] && stats[0].difficulty != tier {
      var rest := stats[1..];
      CountIsFirstMatch(rest, tier);
      if exists i :: 0 <= i < |rest| && rest[i].difficulty == tier
           && (forall j :: 0 <= j < i ==> rest[j].difficulty != tier)
           && Count(rest, tier) == rest[i].count {
        var i :| 0 <= i < |rest| && rest[i].difficulty == tier
           && (forall j :: 0 <= j < i ==> rest[j].difficulty != tier)
           && Count(rest, tier) == rest[i].count;
        assert stats[i + 1] == rest[i];
        forall j | 0 <= j < i + 1 ensures stats[j].difficulty != tier {
          if j > 0 { assert stats[j] == rest[j - 1]; }
        }
      } else {
        forall j | 0 <= j < |stats| ensures stats[j].difficulty != tier {
          if j > 0 { assert stats[j] == rest[j - 1]; }
        }
      }
    }
  }

  /** A pair with any other tier, wherever it stands, does not change a count. */
  lemma {:induction false} CountIgnoresOtherLabels(
    stats: seq<DifficultyCount>, i: nat, extra: DifficultyCount, tier: string)
    requires i <= |stats|
    requires extra.difficulty != tier
    ensures Count(stats[..i] + [extra] + stats[i..], tier) == Count(stats, tier)
  {
    if i == 0 {
      assert ([extra] + stats)[1..] == stats;
    } else {
      var s := stats[..i] + [extra] + stats[i..];
      CountIgnoresOtherLabels(stats[1..], i - 1, extra, tier);
      assert s[0] == stats[0];
      assert s[1..] == stats[1..][..i - 1] + [extra] + stats[1..][i - 1..];
    }
  }

  /** JavaScript's `x || null` on a number: 0 and null both become null. */
  function NonZero(x: Option<int>): (r: Option<int>)
    ensures r.Some? <==> x.Some? && x.value != 0
    ensures r.Some? ==> r == x
  {
    if x.Some? && x.value != 0 then x else None
  }

  /** JavaScript's `s || null` on a string: "" and null both become null. */
  function NonEmpty(s: Option<string>): (r: Option<string>)
    ensures r.Some? <==> s.Some? && s.value != ""
    ensures r.Some? ==> r == s
  {
    if s.Some? && s.value != "" then s else None
  }

  /**
   * Builds the record from a matched user and the optional contest standing.
   * None stands for the TypeError thrown when the submission list is missing.
   */
  function Normalise(user: MatchedUser, contest: Option<ContestRanking>): (r: Option<LeetCodeStats>)
    ensures r.Some? <==> user.submitStats.Some?
    ensures r.Some? ==>
      var s := r.value;
      var stats := user.submitStats.value;
      && s.username == user.username
      && IsFirstCount(stats, "Easy", s.easy)
      && IsFirstCount(stats, "Medium", s.medium)
      && IsFirstCount(stats, "Hard", s.hard)
      && IsFirstCount(stats, "All", s.total)
      && (user.profile.None? ==> s.ranking.None? && s.avatar.None?)
      && (user.profile.Some? ==>
            s.ranking == NonZero(user.profile.value.ranking) && s.avatar == NonEmpty(user.profile.value.userAvatar))
      && (contest.None? ==> s.contests == 0 && s.contestRating == 0 && s.topPercentage.None?)
      && (contest.Some? ==>
            && s.contests == contest.value.attendedContestsCount
            && s.contestRating == contest.value.rating
            && s.topPercentage == NonZero(contest.value.topPercentage))
  {
    match user.submitStats
    case None => None
    case Some(stats) =>
      CountIsFirstMatch(stats, "Easy");
      CountIsFirstMatch(stats, "Medium");
      CountIsFirstMatch(stats, "Hard");
      CountIsFirstMatch(stats, "All");
      Some(LeetCodeStats(
        username := user.username,
        easy := Count(stats, "Easy"),
        medium := Count(stats, "Medium"),
        hard := Count(stats, "Hard"),
        total := Count(stats, "All"),
        ranking := if user.profile.Some? then NonZero(user.profile.value.ranking) else None,
        avatar := if user.profile.Some? then NonEmpty(user.profile.value.userAvatar) else None,
        contests := if contest.Some? then contest.value.attendedContestsCount else 0,
        contestRating := if contest.Some? then contest.value.rating else 0,
        topPercentage := if contest.Some? then NonZero(contest.value.topPercentage) else None))
  }

  /** Pairs with unrecognised labels never change the four counts. */
  lemma NormaliseIgnoresOtherLabels(
    user: MatchedUser, contest: Option<ContestRanking>, i: nat, extra: DifficultyCount)
    requires user.submitStats.Some? && i <= |user.submitStats.value|
    requires extra.difficulty !in ["Easy", "Medium", "Hard", "All"]
    ensures var stats := user.submitStats.value;
      var padded := user.(submitStats := Some(stats[..i] + [extra] + stats[i..]));
      Normalise(padded, contest) == Normalise(user, contest)
  {
    var stats := user.submitStats.value;
    CountIgnoresOtherLabels(stats, i, extra, "Easy");
    CountIgnoresOtherLabels(stats, i, extra, "Medium");
    CountIgnoresOtherLabels(stats, i, extra, "Hard");
    CountIgnoresOtherLabels(stats, i, extra, "All");
  }
}
