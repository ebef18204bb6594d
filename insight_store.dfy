/** The client store of AI insights (`insightStore.ts`): a mock generator that
    appends one insight and a mock fetch that replaces the list with two fixed
    insights. The random id, the clock and the settling of the awaited timer
    are inputs. */
module InsightStore {
  import opened Wrappers

  datatype Insight = Insight(
    id: string,
    userId: string,
    title: string,
    description: string,
    moodCorrelations: seq<(string, real)>,
    activityImpact: seq<(string, real)>,
    suggestions: seq<string>,
    timestamp: int)

  const WeekMs := 604800000

  const WeeklyDescription := "Based on your mood entries this week, we've noticed some patterns that might be helpful."
  const MonthlyDescription := "We've analyzed your mood entries for the past month and found some interesting patterns."
  const RecommendationDescription := "Based on your recent mood entries, here are some activities that might help improve your wellbeing."

  const CommonCorrelations: seq<(string, real)> :=
    [("exercise", 0.8), ("meditation", 0.7), ("work", -0.3), ("social", 0.6)]
  const CommonImpact: seq<(string, real)> :=
    [("exercise", 0.75), ("meditation", 0.65), ("reading", 0.5), ("tv", -0.2)]

  const GeneratedSuggestions: seq<string> :=
    ["Consider adding more exercise to your routine",
     "Meditation seems to improve your mood significantly",
     "Try to balance work with more social activities"]

  const MonthlySuggestions: seq<string> :=
    ["Your mood is consistently better after exercise",
     "Consider scheduling regular meditation sessions",
     "Social activities appear to boost your mood significantly"]

  const RecommendationSuggestions: seq<string> :=
    ["Spending time in nature has a strong positive effect on your mood",
     "Creative activities like painting seem to help you feel better",
     "Consider reducing screen time in the evening"]

  /** The insight `generateInsights` builds for `userId` with the random `id` at instant `now`. */
  function GeneratedInsight(id: string, userId: string, now: int): Insight
  {
    Insight(id, userId, "Weekly Mood Analysis", WeeklyDescription,
            CommonCorrelations, CommonImpact, GeneratedSuggestions, now)
  }

  /** The two insights `fetchInsights` returns for `userId` at instant `now`. */
  function MockInsights(userId: string, now: int): seq<Insight>
  {
    [ Insight("1", userId, "Monthly Mood Patterns", MonthlyDescription,
              CommonCorrelations, CommonImpact, MonthlySuggestions, now - WeekMs),
      Insight("2", userId, "Activity Recommendations", RecommendationDescription,
              [("nature", 0.85), ("creative", 0.7), ("screen time", -0.4)],
              [("walking", 0.8), ("painting", 0.65), ("journaling", 0.6)],
              RecommendationSuggestions, now - 2 * WeekMs) ]
  }

  /** Every insight the store creates carries the user's id and three suggestions. */
  lemma InsightsBelongToUser(id: string, userId: string, now: int)
    ensures GeneratedInsight(id, userId, now).userId == userId
    ensures |GeneratedInsight(id, userId, now).suggestions| == 3
    ensures |MockInsights(userId, now)| == 2
    ensures forall k :: 0 <= k < 2 ==>
              MockInsights(userId, now)[k].userId == userId && |MockInsights(userId, now)[k].suggestions| == 3
    ensures MockInsights(userId, now)[0].id == "1" && MockInsights(userId, now)[1].id == "2"
  {
  }

  class Store {
    var insights: seq<Insight>
    var isLoading: bool
    var error: Option<string>

    constructor()
      ensures insights == [] && !isLoading && error == None
    {
      insights := [];
      isLoading := false;
      error := None;
    }

    method StartRequest()
      modifies this
      ensures isLoading && error == None && insights == old(insights)
    {
      isLoading := true;
      error := None;
    }

    method Fail(message: string)
      modifies this
      ensures !isLoading && error == Some(message) && insights == old(insights)
    {
      error := Some(message);
      isLoading := false;
    }

    /** Appends exactly one insight after the existing ones. */
    method GenerateInsights(userId: string, randomId: string, now: int, thrown: Option<string>)
      modifies this
      ensures !isLoading
      ensures thrown.None? ==>
                insights == old(insights) + [GeneratedInsight(randomId, userId, now)] && error == None
      ensures thrown.None? ==> |insights| == |old(insights)| + 1 && insights[..|old(insights)|] == old(insights)
      ensures thrown.Some? ==> insights == old(insights) && error == thrown
    {
      StartRequest();
      if thrown.None? {
        insights := insights + [GeneratedInsight(randomId, userId, now)];
        isLoading := false;
      } else {
        Fail(thrown.value);
      }
    }

    /** Replaces the whole list with the two fixed insights. */
    method FetchInsights(userId: string, now: int, thrown: Option<string>)
      modifies this
      ensures !isLoading
      ensures thrown.None? ==> insights == MockInsights(userId, now) && error == None
      ensures thrown.Some? ==> insights == old(insights) && error == thrown
    {
      StartRequest();
      if thrown.None? {
        insights := MockInsights(userId, now);
        isLoading := false;
      } else {
        Fail(thrown.value);
      }
    }
  }
}
