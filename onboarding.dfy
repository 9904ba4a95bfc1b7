/** The three-step onboarding wizard: a welcome page, an experience level, and a
    set of dating goals kept as a list without duplicates; the last step writes the
    answers to the user's profile. */
module Onboarding {
  import opened Wrappers
  import opened Backend

  const EXPERIENCE_LEVELS: seq<string> := ["beginner", "intermediate", "advanced"]
  const DATING_GOALS: seq<string> := ["casual", "serious", "confidence", "social"]
  const LAST_STEP: int := 2

  /** The `profiles` update, matched on `id`. */
  datatype ProfileUpdate = ProfileUpdate(
    userId: string, experienceLevel: string, datingGoals: seq<string>, onboardingCompleted: bool)

  predicate NoDuplicates(s: seq<string>) {
    forall i, j :: 0 <= i < j < |s| ==> s[i] != s[j]
  }

  /** `s.filter(g => g !== x)`. */
  function Without(s: seq<string>, x: string): (r: seq<string>)
    ensures x !in r && |r| <= |s|
    ensures forall y :: y != x ==> (y in r <==> y in s)
    ensures x !in s ==> r == s
  {
    if s == [] then []
    else (if s[0] == x then [] else [s[0]]) + Without(s[1..], x)
  }

  /** `toggleGoal`: drop every copy of the goal when it is chosen, otherwise add it at the end. */
  function ToggleGoal(goals: seq<string>, goalId: string): seq<string> {
    if goalId in goals then Without(goals, goalId) else goals + [goalId]
  }

  /** Toggling flips the goal's membership, leaves every other goal's membership
      alone, and keeps the other goals in their order. */
  lemma ToggleGoalFlips(goals: seq<string>, goalId: string)
    ensures goalId in ToggleGoal(goals, goalId) <==> goalId !in goals
    ensures forall y :: y != goalId ==> (y in ToggleGoal(goals, goalId) <==> y in goals)
    ensures Without(ToggleGoal(goals, goalId), goalId) == Without(goals, goalId)
  {
    if goalId !in goals {
      WithoutAppend(goals, goalId);
    }
  }

  lemma {:induction false} WithoutAppend(s: seq<string>, x: string)
    ensures Without(s + [x], x) == Without(s, x)
  {
    if s != [] {
      WithoutAppend(s[1..], x);
      assert (s + [x])[1..] == s[1..] + [x];
    } else {
      assert Without([x], x) == [] + Without([], x);
    }
  }

  lemma {:induction false} WithoutKeepsNoDuplicates(s: seq<string>, x: string)
    requires NoDuplicates(s)
    ensures NoDuplicates(Without(s, x))
  {
    if s != [] {
      WithoutKeepsNoDuplicates(s[1..], x);
      var rest := Without(s[1..], x);
      assert s[0] !in s[1..];
      assert s[0] !in rest;
    }
  }

  /** Toggling keeps the goal list free of duplicates. */
  lemma ToggleGoalNoDuplicates(goals: seq<string>, goalId: string)
    requires NoDuplicates(goals)
    ensures NoDuplicates(ToggleGoal(goals, goalId))
  {
    if goalId in goals {
      WithoutKeepsNoDuplicates(goals, goalId);
    }
  }

  /** Choosing an unchosen goal and then unchoosing it restores the list. */
  lemma ToggleGoalTwice(goals: seq<string>, goalId: string)
    requires goalId !in goals
    ensures ToggleGoal(ToggleGoal(goals, goalId), goalId) == goals
  {
    WithoutAppend(goals, goalId);
  }

  /** The onboarding component's state. */
  class OnboardingFlow {
    var step: int
    var experienceLevel: string
    var datingGoals: seq<string>
    var loading: bool

    ghost predicate Valid()
      reads this
    {
      0 <= step <= LAST_STEP && NoDuplicates(datingGoals)
    }

    constructor ()
      ensures Valid()
      ensures step == 0 && experienceLevel == "" && datingGoals == [] && !loading
    {
      step, experienceLevel, datingGoals, loading := 0, "", [], false;
    }

    /** `canProceed`: the welcome page always lets the user on; the level page needs a
        level; the goals page needs a goal. */
    function CanProceed(): (r: bool)
      reads this
      ensures step == 1 ==> (r <==> experienceLevel != "")
      ensures step == 2 ==> (r <==> |datingGoals| > 0)
      ensures step != 1 && step != 2 ==> r
    {
      if step == 1 then experienceLevel != ""
      else if step == 2 then |datingGoals| > 0
      else true
    }

    /** Pressing one of the level buttons shown on the level page. */
    method ChooseLevel(level: string)
      requires Valid() && step == 1 && level in EXPERIENCE_LEVELS
      modifies this`experienceLevel
      ensures Valid() && experienceLevel == level && CanProceed()
    {
      experienceLevel := level;
    }

    /** Pressing one of the goal buttons shown on the goals page. */
    method PressGoal(goalId: string)
      requires Valid() && step == 2 && goalId in DATING_GOALS
      modifies this`datingGoals
      ensures Valid()
      ensures datingGoals == ToggleGoal(old(datingGoals), goalId)
      ensures goalId in datingGoals <==> goalId !in old(datingGoals)
    {
      ToggleGoalNoDuplicates(datingGoals, goalId);
      ToggleGoalFlips(datingGoals, goalId);
      datingGoals := ToggleGoal(datingGoals, goalId);
    }

    /** `completeOnboarding`: nothing without a user; otherwise the answers go to the
        user's profile with the completion flag set, `onComplete` runs unless the
        awaited update throws (which alerts instead), and loading ends. */
    method CompleteOnboarding(user: Option<User>, updateReply: Settled)
      returns (update: Option<ProfileUpdate>, completed: bool, alerted: bool)
      requires Valid()
      modifies this`loading
      ensures Valid()
      ensures user.None? ==> update.None? && !completed && !alerted && loading == old(loading)
      ensures user.Some? ==> update == Some(ProfileUpdate(user.value.id, experienceLevel, datingGoals, true))
                             && !loading
      ensures completed <==> user.Some? && updateReply == Fulfilled
      ensures alerted <==> user.Some? && updateReply == Thrown
    {
      if user.None? {
        return None, false, false;
      }
      loading := true;
      update := Some(ProfileUpdate(user.value.id, experienceLevel, datingGoals, true));
      completed := updateReply == Fulfilled;
      alerted := !completed;
      loading := false;
    }

    /** `handleNext`, from the Continue button (enabled only when `canProceed()` and
        not loading): the first two pages advance the step, the last completes. The
        goals written are never empty and never repeat. */
    method HandleNext(user: Option<User>, updateReply: Settled)
      returns (update: Option<ProfileUpdate>, completed: bool)
      requires Valid() && CanProceed() && !loading
      modifies this`step, this`loading
      ensures Valid() && !loading
      ensures old(step) < LAST_STEP ==> step == old(step) + 1 && update.None? && !completed
      ensures old(step) == LAST_STEP ==> step == LAST_STEP
      ensures old(step) == LAST_STEP && user.Some? ==>
                update == Some(ProfileUpdate(user.value.id, experienceLevel, datingGoals, true))
      ensures old(step) == LAST_STEP ==> (completed <==> user.Some? && updateReply.Fulfilled?)
      ensures user.None? ==> update.None?
      ensures update.Some? ==> |update.value.datingGoals| > 0 && NoDuplicates(update.value.datingGoals)
      ensures completed ==> update.Some?
    {
      if step < LAST_STEP {
        step := step + 1;
        update, completed := None, false;
      } else {
        var alerted;
        update, completed, alerted := CompleteOnboarding(user, updateReply);
      }
    }
  }
}
