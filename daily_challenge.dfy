/** The daily challenge card: it loads today's active challenge, whether the user
    has completed it, and the user's streak, and lets an uncompleted challenge be
    started. */
module DailyChallenge {
  import opened Wrappers
  import opened Js
  import opened Indicators
  import opened Backend

  const STAR_COUNT: nat := 5

  datatype Challenge = Challenge(id: string, title: string, description: string, difficultyLevel: int, bonusTokens: int)

  /** A `user_challenge_completions` row; its `completed` column may be `null`. */
  datatype CompletionRow = CompletionRow(completed: Option<bool>)

  datatype StreakRow = StreakRow(currentStreak: int, longestStreak: int)

  /** The filters of the `daily_challenges` select. */
  datatype ChallengeQuery = ChallengeQuery(challengeDate: string, isActive: bool)

  /** The filters of the `user_challenge_completions` select. */
  datatype CompletionQuery = CompletionQuery(userId: string, challengeId: string)

  datatype StartOutcome = NothingLoaded | AlreadyCompletedAlert | Started(challenge: Challenge)

  /** `new Date().toISOString().split('T')[0]`: the date part of the timestamp,
      that is, the longest prefix without a `T`. */
  function DateKey(isoTimestamp: string): (key: string)
    ensures key <= isoTimestamp && 'T' !in key
    ensures |key| < |isoTimestamp| ==> isoTimestamp[|key|] == 'T'
    ensures 'T' !in isoTimestamp ==> key == isoTimestamp
  {
    BeforeFirst(isoTimestamp, 'T')
  }

  /** For an ISO timestamp `date + "T" + time` the key is exactly the date. */
  lemma DateKeyOfTimestamp(date: string, time: string)
    requires 'T' !in date
    ensures DateKey(date + "T" + time) == date
  {
    BeforeFirstJoined(date, 'T', time);
  }

  /** `completion?.completed || false`: completed only on a row whose flag is true. */
  function CompletedFlag(completion: Option<CompletionRow>): (done: bool)
    ensures done <==> completion.Some? && completion.value.completed == Some(true)
  {
    match completion
    case Some(CompletionRow(Some(flag))) => flag
    case _ => false
  }

  /** The five difficulty stars: exactly those with index below the level are lit. */
  function Stars(difficultyLevel: int): (stars: seq<bool>)
    ensures |stars| == STAR_COUNT
    ensures forall i :: 0 <= i < STAR_COUNT ==> (stars[i] <==> i < difficultyLevel)
    ensures CountLit(stars) == Clamp(difficultyLevel, STAR_COUNT)
  {
    CountLitIsClampedScore(STAR_COUNT, difficultyLevel);
    Lit(STAR_COUNT, difficultyLevel)
  }

  class DailyChallenge {
    var challenge: Option<Challenge>
    var streak: int
    var completed: bool
    var loading: bool

    constructor ()
      ensures challenge.None? && streak == 0 && !completed && loading
    {
      challenge, streak, completed, loading := None, 0, false, true;
    }

    /** `fetchDailyChallenge` at the instant whose ISO form is `nowIso`: it asks for
        today's active challenge; a returned challenge is kept and, for a signed-in
        user, its completion row decides `completed` (absent row or flag: false); a
        rejected call leaves what it had not yet set; loading ends on every path. */
    method FetchDailyChallenge(user: Option<User>, nowIso: string,
                               challengeReply: Response<Challenge>, completionReply: Response<CompletionRow>)
      returns (query: ChallengeQuery, completionQuery: Option<CompletionQuery>)
      modifies this`challenge, this`completed, this`loading
      ensures !loading
      ensures query == ChallengeQuery(DateKey(nowIso), true)
      ensures challenge == (if challengeReply.Resolved? && challengeReply.data.Some?
                            then challengeReply.data else old(challenge))
      ensures completionQuery ==
                if challengeReply.Resolved? && challengeReply.data.Some? && user.Some?
                then Some(CompletionQuery(user.value.id, challengeReply.data.value.id)) else None
      ensures completed == (if completionQuery.Some? && completionReply.Resolved?
                            then CompletedFlag(completionReply.data) else old(completed))
    {
      var today := BeforeFirst(nowIso, 'T');
      query := ChallengeQuery(today, true);
      completionQuery := None;
      if challengeReply.Resolved? && challengeReply.data.Some? {
        var challengeData := challengeReply.data.value;
        challenge := Some(challengeData);
        if user.Some? {
          completionQuery := Some(CompletionQuery(user.value.id, challengeData.id));
          if completionReply.Resolved? {
            completed := CompletedFlag(completionReply.data);
          }
        }
      }
      loading := false;
    }

    /** `fetchUserStreak`: a returned row sets the current streak; anything else leaves it. */
    method FetchUserStreak(user: Option<User>, reply: Response<StreakRow>)
      modifies this`streak
      ensures streak == (if user.Some? && reply.Resolved? && reply.data.Some?
                         then reply.data.value.currentStreak else old(streak))
    {
      if user.None? {
        return;
      }
      if reply.Resolved? && reply.data.Some? {
        streak := reply.data.value.currentStreak;
      }
    }

    /** The effect that runs on mount and whenever the user changes: only for a
        signed-in user does it run both fetches (they touch separate fields, so
        their interleaving does not matter); with no user nothing happens, so a
        signed-out card keeps loading. */
    method OnUserChange(user: Option<User>, nowIso: string, challengeReply: Response<Challenge>,
                        completionReply: Response<CompletionRow>, streakReply: Response<StreakRow>)
      returns (query: Option<ChallengeQuery>, completionQuery: Option<CompletionQuery>)
      modifies this
      ensures user.None? ==> query.None? && completionQuery.None? && unchanged(this)
      ensures user.Some? ==> query == Some(ChallengeQuery(DateKey(nowIso), true)) && !loading
      ensures challenge == (if user.Some? && challengeReply.Resolved? && challengeReply.data.Some?
                            then challengeReply.data else old(challenge))
      ensures completionQuery ==
                if user.Some? && challengeReply.Resolved? && challengeReply.data.Some?
                then Some(CompletionQuery(user.value.id, challengeReply.data.value.id)) else None
      ensures completed == (if completionQuery.Some? && completionReply.Resolved?
                            then CompletedFlag(completionReply.data) else old(completed))
      ensures streak == (if user.Some? && streakReply.Resolved? && streakReply.data.Some?
                         then streakReply.data.value.currentStreak else old(streak))
    {
      if user.None? {
        return None, None;
      }
      var q;
      q, completionQuery := FetchDailyChallenge(user, nowIso, challengeReply, completionReply);
      query := Some(q);
      FetchUserStreak(user, streakReply);
    }

    /** `handleStartChallenge`: nothing without a loaded challenge; a completed one
        only alerts; otherwise `onStartChallenge` is called once with the challenge. */
    method HandleStartChallenge() returns (outcome: StartOutcome)
      ensures challenge.None? <==> outcome == NothingLoaded
      ensures outcome == AlreadyCompletedAlert <==> challenge.Some? && completed
      ensures outcome.Started? <==> challenge.Some? && !completed
      ensures outcome.Started? ==> outcome.challenge == challenge.value
    {
      if challenge.None? {
        return NothingLoaded;
      }
      if completed {
        return AlreadyCompletedAlert;
      }
      outcome := Started(challenge.value);
    }
  }
}
