/**
  The destination chooser of `src/components/DestinationChooser.tsx`: the mood
  vocabulary, the request `handleFind` builds from the primary and optional
  secondary mood, the state it settles in, and `handleResetAll`. The reply of
  the `/recommend` request is a parameter; composing it with module Recommender
  gives the end-to-end behaviour.
 */
module DestinationChooser {
  import opened Wrappers
  import Recommender

  datatype State = State(
    primary: string,
    secondary: string,
    result: Option<string>,
    recommendations: seq<string>,
    isLoading: bool,
    error: Option<string>)

  /** The mood labels both selects offer (the secondary one also offers "none"). */
  const Moods: seq<string> :=
    ["Adventure", "Relaxation", "Culture/History", "scenary", "Urban Life", "Romantic", "Water activity"]

  const NoSecondary := "none"
  const PromptMessage := "Please choose a Primary option."
  const FoundMessage := "Here are your recommended destinations:"
  const FailureMessage := "Failed to get recommendations. Please try again."

  /** The state on mount. */
  const Initial: State := State("", NoSecondary, None, [], false, None)

  /** What the `/recommend` request produced. */
  datatype Reply = Recommendations(names: seq<string>) | RequestFailed

  /** A state the two selects can produce. */
  predicate Selectable(s: State) {
    (s.primary == "" || s.primary in Moods) && (s.secondary == NoSecondary || s.secondary in Moods)
  }

  /** Every label the selects offer is a key of the server's mood map, so no
      selection is ignored by `createUserVector`. */
  lemma MoodsAreMapped()
    ensures forall m :: m in Moods ==> m in Recommender.MoodMap
    ensures forall m :: m in Recommender.MoodMap ==> m in Moods
  {
  }

  /** The `moods` list of the request: the primary mood, then the secondary one
      unless it is "none". */
  function MoodsList(primary: string, secondary: string): (moods: seq<string>)
    ensures |moods| == (if secondary == NoSecondary then 1 else 2)
    ensures moods[0] == primary
    ensures secondary != NoSecondary ==> moods[1] == secondary
  {
    if secondary != NoSecondary then [primary, secondary] else [primary]
  }

  /** The state once `handleFind` has started, and the request it sends, if any. */
  datatype Started = Started(state: State, request: Option<seq<string>>)

  /** The synchronous part of `handleFind`. */
  function StartFind(s: State): (r: Started)
    // with no primary mood: show the prompt, change nothing else, send nothing
    ensures s.primary == "" ==> r == Started(s.(result := Some(PromptMessage)), None)
    // otherwise: loading, error and previous recommendations cleared, request sent
    ensures s.primary != "" ==>
      && r.request == Some(MoodsList(s.primary, s.secondary))
      && r.state == s.(isLoading := true, error := None, recommendations := [])
  {
    if s.primary == "" then Started(s.(result := Some(PromptMessage)), None)
    else Started(s.(isLoading := true, error := None, recommendations := []),
                 Some(MoodsList(s.primary, s.secondary)))
  }

  /** How `handleFind` settles once its request has answered. */
  function FinishFind(s: State, reply: Reply): (r: State)
    ensures !r.isLoading
    ensures r.primary == s.primary && r.secondary == s.secondary
    ensures reply.Recommendations? ==>
      r.recommendations == reply.names && r.result == Some(FoundMessage) && r.error == s.error
    ensures reply.RequestFailed? ==>
      r.recommendations == s.recommendations && r.result == s.result && r.error == Some(FailureMessage)
  {
    match reply
    case Recommendations(names) => s.(recommendations := names, result := Some(FoundMessage), isLoading := false)
    case RequestFailed => s.(error := Some(FailureMessage), isLoading := false)
  }

  /** `handleFind`, with `reply` what the request (if one is sent) returns. */
  function HandleFind(s: State, reply: Reply): State {
    var started := StartFind(s);
    if started.request.None? then started.state else FinishFind(started.state, reply)
  }

  /** `handleResetAll`. */
  function HandleResetAll(s: State): (r: State)
    ensures r.primary == "" && r.secondary == NoSecondary
    ensures r.result == None && r.recommendations == [] && r.error == None
    ensures r.isLoading == s.isLoading
  {
    s.(primary := "", secondary := NoSecondary, result := None, recommendations := [], error := None)
  }

  /** A settled search leaves no stale result behind: a failure clears the list and
      shows the error; a success shows the new list and no error. */
  lemma HandleFindOutcome(s: State, reply: Reply)
    requires s.primary != ""
    ensures var r := HandleFind(s, reply);
      && !r.isLoading
      && (reply.RequestFailed? ==> r.recommendations == [] && r.error == Some(FailureMessage))
      && (reply.Recommendations? ==> r.recommendations == reply.names && r.error == None
                                       && r.result == Some(FoundMessage))
  {
  }

  /** End to end: with a primary mood chosen and the server answering, the chooser
      shows five distinct catalog names, which are the server's answer for
      `[primary]` or `[primary, secondary]`. */
  lemma FindShowsServerRecommendation(s: State)
    requires s.primary != ""
    ensures var moods := MoodsList(s.primary, s.secondary);
      var r := HandleFind(s, Recommendations(Recommender.Recommend(moods)));
      && r.recommendations == Recommender.Recommend(moods)
      && |r.recommendations| == 5
      && (forall i, j :: 0 <= i < j < 5 ==> r.recommendations[i] != r.recommendations[j])
      && (forall i :: 0 <= i < 5 ==> Recommender.InCatalog(r.recommendations[i]))
  {
  }

  /** End to end: a secondary mood of "Water activity", or the primary mood again,
      gets the same recommendations as no secondary mood. */
  lemma RedundantSecondaryIgnored(primary: string)
    ensures Recommender.Recommend(MoodsList(primary, "Water activity")) ==
            Recommender.Recommend(MoodsList(primary, NoSecondary))
    ensures Recommender.Recommend(MoodsList(primary, primary)) ==
            Recommender.Recommend(MoodsList(primary, NoSecondary))
  {
    Recommender.RecommendIgnoresWaterActivity([primary]);
    assert [primary] + ["Water activity"] == [primary, "Water activity"];
    if primary != NoSecondary {
      Recommender.RecommendDependsOnlyOnSet([primary, primary], [primary]);
    }
  }

  /** End to end: with a selectable primary mood other than "Water activity", the
      preference vector the server builds puts 5 on that mood's dimension. */
  lemma PrimaryMoodBoosted(s: State)
    requires Selectable(s) && s.primary != "" && s.primary != "Water activity"
    ensures s.primary in Recommender.MoodMap
    ensures Recommender.UserVector(MoodsList(s.primary, s.secondary))
              .Get(Recommender.MoodMap[s.primary]) == 5
  {
    MoodsAreMapped();
    Recommender.LabelBoosts(MoodsList(s.primary, s.secondary), 0);
  }
}
