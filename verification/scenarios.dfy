/**
  Concrete runs of the recommender on the shipped catalog, worked out from the
  uniqueness of a top-five list.
 */
module Scenarios {
  import opened Wrappers
  import opened Similarity
  import opened Ranking
  import opened Recommender

  /** Strict comparisons along a list of five positions, the last of which beats
      every position left out, make it the top five. */
  lemma CheckTop(keys: seq<Sim>, r: seq<nat>)
    requires |keys| == 12 && |r| == 5
    requires forall i :: 0 <= i < 5 ==> r[i] < 12
    requires forall i :: 0 <= i < 4 ==> Greater(keys[r[i]], keys[r[i + 1]])
    requires forall x :: 0 <= x < 12 && x !in r ==> Greater(keys[r[4]], keys[x])
    ensures TopOf(keys, 5, r)
  {
    forall i, j | 0 <= i < j < 5
      ensures r[i] != r[j] && AtLeast(keys[r[i]], keys[r[j]]) && !AtLeast(keys[r[j]], keys[r[i]])
    {
      ChainGreater(keys, r, i, j);
      GreaterIsStrict(keys[r[i]], keys[r[j]]);
    }
    forall x, i | 0 <= x < 12 && x !in r && 0 <= i < 5
      ensures AtLeast(keys[r[i]], keys[x]) && !AtLeast(keys[x], keys[r[i]])
    {
      if i < 4 {
        ChainGreater(keys, r, i, 4);
        GreaterTransitive(keys[r[i]], keys[r[4]], keys[x]);
      }
      GreaterIsStrict(keys[r[i]], keys[x]);
    }
  }

  lemma GreaterIsStrict(p: Sim, q: Sim)
    requires Greater(p, q)
    ensures AtLeast(p, q) && !AtLeast(q, p) && p != q
  {
  }

  lemma {:induction false} ChainGreater(keys: seq<Sim>, r: seq<nat>, i: nat, j: nat)
    requires |keys| == 12 && |r| == 5
    requires forall i :: 0 <= i < 5 ==> r[i] < 12
    requires forall i :: 0 <= i < 4 ==> Greater(keys[r[i]], keys[r[i + 1]])
    requires i < j < 5
    ensures Greater(keys[r[i]], keys[r[j]])
    decreases j - i
  {
    if i + 1 < j {
      ChainGreater(keys, r, i + 1, j);
      GreaterTransitive(keys[r[i]], keys[r[i + 1]], keys[r[j]]);
    }
  }

  /** The preference vector for a single mood other than "Water activity". */
  lemma SingleLabelVector(mood: string, f: Feature)
    requires MoodFeature(mood) == Some(f) && f != WaterActivity
    ensures UserVector([mood]) == Baseline.Set(f, 5)
  {
    forall g ensures UserVector([mood]).Get(g) == Baseline.Set(f, 5).Get(g) {
      assert [mood][0] == mood;
    }
    ScoresEqual(UserVector([mood]), Baseline.Set(f, 5));
  }

  /** `sums[i]` holds the written-out sums of `u` against catalog entry `i`. */
  predicate KeyMatches(catalog: seq<Destination>, u: Scores, sums: seq<Sim>, i: nat)
    requires i < |sums| && i < |catalog|
  {
    sums[i] == Sim(SumOfProducts(u, catalog[i].scores), SumOfProducts(u, u),
                   SumOfProducts(catalog[i].scores, catalog[i].scores))
  }

  /** Entries `0 .. n-1` of `sums` hold the written-out sums against the catalog. */
  predicate MatchesUpTo(catalog: seq<Destination>, u: Scores, sums: seq<Sim>, n: nat)
    requires n <= |sums| && n <= |catalog|
  {
    n == 0 || (MatchesUpTo(catalog, u, sums, n - 1) && KeyMatches(catalog, u, sums, n - 1))
  }

  lemma {:induction false} MatchesUpToEach(catalog: seq<Destination>, u: Scores, sums: seq<Sim>, n: nat)
    requires n <= |sums| && n <= |catalog|
    requires MatchesUpTo(catalog, u, sums, n)
    ensures forall i :: 0 <= i < n ==> KeyMatches(catalog, u, sums, i)
  {
    if n > 0 {
      MatchesUpToEach(catalog, u, sums, n - 1);
    }
  }

  /** The similarity sums of a vector against the catalog, from the written-out
      sums over the eight dimensions. */
  lemma KeysOf(catalog: seq<Destination>, u: Scores, sums: seq<Sim>)
    requires |sums| == |catalog|
    requires MatchesUpTo(catalog, u, sums, |catalog|)
    ensures Similarities(catalog, u) == sums
  {
    MatchesUpToEach(catalog, u, sums, |catalog|);
    forall i | 0 <= i < |catalog| ensures Similarities(catalog, u)[i] == sums[i] {
      assert KeyMatches(catalog, u, sums, i);
      assert Similarities(catalog, u)[i] == Cosine(u, catalog[i].scores);
      CosineIsSumOfProducts(u, catalog[i].scores);
    }
  }

  /** Five names read off a catalog. */
  lemma FiveNames(catalog: seq<Destination>, r: seq<nat>)
    requires |r| == 5 && forall i :: 0 <= i < 5 ==> r[i] < |catalog|
    ensures NamesAt(catalog, r) ==
      [catalog[r[0]].name, catalog[r[1]].name, catalog[r[2]].name, catalog[r[3]].name, catalog[r[4]].name]
  {
  }

  /** The response lists the names at the five positions the ranking selects. */
  lemma RecommendNames(moods: seq<string>)
    ensures var r := RecommendPositions(moods);
      Recommend(moods) ==
        [Catalog[r[0]].name, Catalog[r[1]].name, Catalog[r[2]].name, Catalog[r[3]].name, Catalog[r[4]].name]
  {
    FiveNames(Catalog, RecommendPositions(moods));
  }

  /** The response, read off the catalog positions the ranking selects. */
  lemma RecommendFromRank(moods: seq<string>, u: Scores, r: seq<nat>)
    requires UserVector(moods) == u && Rank(Catalog, u, 5) == r
    ensures RecommendPositions(moods) == r
  {
  }

  const AdventureVector: Scores := Scores(5, 1, 1, 1, 1, 1, 1, 1)

  /** The similarity sums of every catalog entry to `[5, 1, 1, 1, 1, 1, 1, 1]`. */
  const AdventureSums: seq<Sim> := [
    Sim(43, 32, 105), Sim(22, 32, 64), Sim(38, 32, 100), Sim(33, 32, 97),
    Sim(30, 32, 70), Sim(39, 32, 61), Sim(41, 32, 109), Sim(41, 32, 73),
    Sim(36, 32, 82), Sim(20, 32, 48), Sim(31, 32, 89), Sim(20, 32, 50)]

  /** Hogenakkal, Kolli Hills, Ooty, Yercaud and Valparai, in that order, beat the
      rest. */
  lemma AdventureTop()
    ensures TopOf(AdventureSums, 5, [5, 7, 0, 8, 6])
  {
    var keys, r := AdventureSums, [5, 7, 0, 8, 6];
    forall x | 0 <= x < 12 && x !in r ensures Greater(keys[r[4]], keys[x]) {
      assert x in {1, 2, 3, 4, 9, 10, 11};
    }
    CheckTop(keys, r);
  }

  lemma AdventureKeysFirstHalf()
    ensures MatchesUpTo(Catalog, AdventureVector, AdventureSums, 6)
  {
    var catalog, u, sums := Catalog, AdventureVector, AdventureSums;
    assert MatchesUpTo(catalog, u, sums, 0);
    assert KeyMatches(catalog, u, sums, 0);
    assert MatchesUpTo(catalog, u, sums, 1);
    assert KeyMatches(catalog, u, sums, 1);
    assert MatchesUpTo(catalog, u, sums, 2);
    assert KeyMatches(catalog, u, sums, 2);
    assert MatchesUpTo(catalog, u, sums, 3);
    assert KeyMatches(catalog, u, sums, 3);
    assert MatchesUpTo(catalog, u, sums, 4);
    assert KeyMatches(catalog, u, sums, 4);
    assert MatchesUpTo(catalog, u, sums, 5);
    assert KeyMatches(catalog, u, sums, 5);
    assert MatchesUpTo(catalog, u, sums, 6);
  }

  lemma AdventureKeysSecondHalf()
    ensures MatchesUpTo(Catalog, AdventureVector, AdventureSums, 12)
  {
    var catalog, u, sums := Catalog, AdventureVector, AdventureSums;
    AdventureKeysFirstHalf();
    assert KeyMatches(catalog, u, sums, 6);
    assert MatchesUpTo(catalog, u, sums, 7);
    assert KeyMatches(catalog, u, sums, 7);
    assert MatchesUpTo(catalog, u, sums, 8);
    assert KeyMatches(catalog, u, sums, 8);
    assert MatchesUpTo(catalog, u, sums, 9);
    assert KeyMatches(catalog, u, sums, 9);
    assert MatchesUpTo(catalog, u, sums, 10);
    assert KeyMatches(catalog, u, sums, 10);
    assert MatchesUpTo(catalog, u, sums, 11);
    assert KeyMatches(catalog, u, sums, 11);
    assert MatchesUpTo(catalog, u, sums, 12);
  }

  lemma AdventureKeys()
    ensures Similarities(Catalog, AdventureVector) == AdventureSums
  {
    AdventureKeysSecondHalf();
    KeysOf(Catalog, AdventureVector, AdventureSums);
  }

  lemma AdventureRank()
    ensures Rank(Catalog, AdventureVector, 5) == [5, 7, 0, 8, 6]
  {
    AdventureKeys();
    AdventureTop();
    TopUnique(AdventureSums, 5, [5, 7, 0, 8, 6]);
  }

  /** `["Adventure"]` is answered with Hogenakkal (position 5), Kolli Hills (7),
      Ooty (0), Yercaud (8) and Valparai (6): the highest adventure scores with
      otherwise modest sums of squares come first. */
  lemma AdventureScenario()
    ensures Recommend(["Adventure"]) ==
      [Catalog[5].name, Catalog[7].name, Catalog[0].name, Catalog[8].name, Catalog[6].name]
  {
    SingleLabelVector("Adventure", Adventure);
    AdventureRank();
    RecommendFromRank(["Adventure"], AdventureVector, [5, 7, 0, 8, 6]);
    RecommendNames(["Adventure"]);
  }

  /** The similarity sums of every catalog entry to the baseline `[1, 1, 1, 1, 1, 1, 1, 1]`. */
  const BaselineSums: seq<Sim> := [
    Sim(27, 8, 105), Sim(18, 8, 64), Sim(26, 8, 100), Sim(25, 8, 97),
    Sim(22, 8, 70), Sim(19, 8, 61), Sim(25, 8, 109), Sim(21, 8, 73),
    Sim(24, 8, 82), Sim(16, 8, 48), Sim(23, 8, 89), Sim(16, 8, 50)]

  /** Yercaud, Ooty, Chennai, Kodaikanal and Mahabalipuram, in that order, beat the
      rest under the baseline vector. */
  lemma BaselineTop()
    ensures TopOf(BaselineSums, 5, [8, 0, 4, 2, 3])
  {
    var keys, r := BaselineSums, [8, 0, 4, 2, 3];
    forall x | 0 <= x < 12 && x !in r ensures Greater(keys[r[4]], keys[x]) {
      assert x in {1, 5, 6, 7, 9, 10, 11};
    }
    CheckTop(keys, r);
  }

  lemma BaselineKeysFirstHalf()
    ensures MatchesUpTo(Catalog, Baseline, BaselineSums, 6)
  {
    var catalog, u, sums := Catalog, Baseline, BaselineSums;
    assert MatchesUpTo(catalog, u, sums, 0);
    assert KeyMatches(catalog, u, sums, 0);
    assert MatchesUpTo(catalog, u, sums, 1);
    assert KeyMatches(catalog, u, sums, 1);
    assert MatchesUpTo(catalog, u, sums, 2);
    assert KeyMatches(catalog, u, sums, 2);
    assert MatchesUpTo(catalog, u, sums, 3);
    assert KeyMatches(catalog, u, sums, 3);
    assert MatchesUpTo(catalog, u, sums, 4);
    assert KeyMatches(catalog, u, sums, 4);
    assert MatchesUpTo(catalog, u, sums, 5);
    assert KeyMatches(catalog, u, sums, 5);
    assert MatchesUpTo(catalog, u, sums, 6);
  }

  lemma BaselineKeysSecondHalf()
    ensures MatchesUpTo(Catalog, Baseline, BaselineSums, 12)
  {
    var catalog, u, sums := Catalog, Baseline, BaselineSums;
    BaselineKeysFirstHalf();
    assert KeyMatches(catalog, u, sums, 6);
    assert MatchesUpTo(catalog, u, sums, 7);
    assert KeyMatches(catalog, u, sums, 7);
    assert MatchesUpTo(catalog, u, sums, 8);
    assert KeyMatches(catalog, u, sums, 8);
    assert MatchesUpTo(catalog, u, sums, 9);
    assert KeyMatches(catalog, u, sums, 9);
    assert MatchesUpTo(catalog, u, sums, 10);
    assert KeyMatches(catalog, u, sums, 10);
    assert MatchesUpTo(catalog, u, sums, 11);
    assert KeyMatches(catalog, u, sums, 11);
    assert MatchesUpTo(catalog, u, sums, 12);
  }

  lemma BaselineKeys()
    ensures Similarities(Catalog, Baseline) == BaselineSums
  {
    BaselineKeysSecondHalf();
    KeysOf(Catalog, Baseline, BaselineSums);
  }

  lemma BaselineRank()
    ensures Rank(Catalog, Baseline, 5) == [8, 0, 4, 2, 3]
  {
    BaselineKeys();
    BaselineTop();
    TopUnique(BaselineSums, 5, [8, 0, 4, 2, 3]);
  }

  /** With no mood (or only "Water activity", by `RecommendIgnoresWaterActivity`)
      every dimension weighs the same, and the answer is Yercaud (position 8),
      Ooty (0), Chennai (4), Kodaikanal (2) and Mahabalipuram (3). */
  lemma NoMoodScenario()
    ensures Recommend([]) ==
      [Catalog[8].name, Catalog[0].name, Catalog[4].name, Catalog[2].name, Catalog[3].name]
  {
    var none: seq<string> := [];
    assert UserVector(none) == Baseline;
    BaselineRank();
    RecommendFromRank(none, Baseline, [8, 0, 4, 2, 3]);
    RecommendNames(none);
  }
}
