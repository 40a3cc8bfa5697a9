/**
  The mood-to-destination recommender of `backend/server.js`: the static
  catalog, the mood map, the preference vector built from a list of mood
  labels, cosine similarity, and the `/recommend` ranking (sort by descending
  score, keep the first five names).
 */
module Recommender {
  import opened Wrappers
  import opened Vectors
  import opened Similarity
  import opened Ranking

  /** The eight scoring dimensions, in the order of `FEATURES`. */
  datatype Feature =
    | Adventure | Relaxation | Culture | Scenic | Urban | Family | Romantic | WaterActivity

  const Features: seq<Feature> :=
    [Adventure, Relaxation, Culture, Scenic, Urban, Family, Romantic, WaterActivity]

  /** The position of each dimension in `FEATURES`. */
  function Index(f: Feature): (i: nat)
    ensures i < |Features| && Features[i] == f
  {
    match f
    case Adventure => 0
    case Relaxation => 1
    case Culture => 2
    case Scenic => 3
    case Urban => 4
    case Family => 5
    case Romantic => 6
    case WaterActivity => 7
  }

  /** The property name of each dimension in the source (the misspelling is the source's). */
  function Key(f: Feature): string {
    match f
    case Adventure => "Adventure_Score"
    case Relaxation => "Relaxation_Score"
    case Culture => "Cultur_Score"
    case Scenic => "Scenic_Score"
    case Urban => "Urban_Score"
    case Family => "Family_Score"
    case Romantic => "Romantic_Score"
    case WaterActivity => "Water_Activity_Tag"
  }

  /** `FEATURES`: the property names the similarity iterates, in order. */
  const FeatureKeys: seq<string> := [
    "Adventure_Score", "Relaxation_Score", "Cultur_Score", "Scenic_Score",
    "Urban_Score", "Family_Score", "Romantic_Score", "Water_Activity_Tag"]

  /** `moodMap` as written, from labels to property names. */
  const MoodKeys: map<string, string> := map[
    "Adventure" := "Adventure_Score",
    "Relaxation" := "Relaxation_Score",
    "Culture/History" := "Cultur_Score",
    "scenary" := "Scenic_Score",
    "Urban Life" := "Urban_Score",
    "Romantic" := "Romantic_Score",
    "Water activity" := "Water_Activity_Tag"
  ]

  /** One value per dimension: a catalog entry's attributes, or a preference vector.
      Every dimension is always present, which is what projecting a place onto
      `FEATURES` achieves in the source. */
  datatype Scores = Scores(
    adventure: nat, relaxation: nat, culture: nat, scenic: nat,
    urban: nat, family: nat, romantic: nat, water: nat)
  {
    function Get(f: Feature): nat {
      match f
      case Adventure => adventure
      case Relaxation => relaxation
      case Culture => culture
      case Scenic => scenic
      case Urban => urban
      case Family => family
      case Romantic => romantic
      case WaterActivity => water
    }

    /** `userVec[key] = x`. */
    function Set(f: Feature, x: nat): (r: Scores)
      ensures r.Get(f) == x
      ensures forall g :: g != f ==> r.Get(g) == Get(g)
    {
      match f
      case Adventure => this.(adventure := x)
      case Relaxation => this.(relaxation := x)
      case Culture => this.(culture := x)
      case Scenic => this.(scenic := x)
      case Urban => this.(urban := x)
      case Family => this.(family := x)
      case Romantic => this.(romantic := x)
      case WaterActivity => this.(water := x)
    }

    /** The values in `FEATURES` order. */
    function Components(): (xs: seq<nat>)
      ensures |xs| == |Features|
      ensures forall i :: 0 <= i < |Features| ==> xs[i] == Get(Features[i])
    {
      [adventure, relaxation, culture, scenic, urban, family, romantic, water]
    }
  }

  /** Two vectors that agree on every dimension are equal. */
  lemma ScoresEqual(a: Scores, b: Scores)
    requires forall f :: a.Get(f) == b.Get(f)
    ensures a == b
  {
    assert a.Get(Adventure) == b.Get(Adventure) && a.Get(Relaxation) == b.Get(Relaxation);
    assert a.Get(Culture) == b.Get(Culture) && a.Get(Scenic) == b.Get(Scenic);
    assert a.Get(Urban) == b.Get(Urban) && a.Get(Family) == b.Get(Family);
    assert a.Get(Romantic) == b.Get(Romantic) && a.Get(WaterActivity) == b.Get(WaterActivity);
  }

  datatype Destination = Destination(name: string, scores: Scores)

  /** `DESTINATION_DATA`. */
  const Catalog: seq<Destination> := [
    Destination("Ooty",          Scores(4, 3, 2, 5, 3, 5, 4, 1)),
    Destination("Madurai",       Scores(1, 1, 5, 2, 4, 4, 1, 0)),
    Destination("Kodaikanal",    Scores(3, 4, 2, 4, 2, 5, 5, 1)),
    Destination("Mahabalipuram", Scores(2, 4, 5, 3, 1, 5, 4, 1)),
    Destination("Chennai",       Scores(2, 3, 3, 2, 5, 3, 3, 1)),
    Destination("Hogenakkal",    Scores(5, 2, 1, 4, 1, 3, 2, 1)),
    Destination("Valparai",      Scores(4, 5, 1, 5, 1, 4, 5, 0)),
    Destination("Kolli Hills",   Scores(5, 3, 3, 4, 1, 2, 3, 0)),
    Destination("Yercaud",       Scores(3, 4, 2, 4, 2, 4, 4, 1)),
    Destination("Chettinad",     Scores(1, 2, 5, 2, 1, 3, 2, 0)),
    Destination("Dhanushkodi",   Scores(2, 4, 3, 5, 1, 3, 5, 0)),
    Destination("Rameswaram",    Scores(1, 1, 5, 2, 1, 4, 1, 1))
  ]

  /** `moodMap`. */
  const MoodMap: map<string, Feature> := map[
    "Adventure" := Adventure,
    "Relaxation" := Relaxation,
    "Culture/History" := Culture,
    "scenary" := Scenic,
    "Urban Life" := Urban,
    "Romantic" := Romantic,
    "Water activity" := WaterActivity
  ]

  /** The dimensions stand for the source's property names: `Features` read
      through `Key` is `FEATURES`, distinct dimensions have distinct names, and
      `MoodMap` read through `Key` is `moodMap`. */
  lemma KeysMatchSource()
    ensures |FeatureKeys| == |Features|
    ensures forall i :: 0 <= i < |Features| ==> Key(Features[i]) == FeatureKeys[i]
    ensures forall f, g :: Key(f) == Key(g) ==> f == g
    ensures MoodMap.Keys == MoodKeys.Keys
    ensures forall m :: m in MoodMap ==> Key(MoodMap[m]) == MoodKeys[m]
  {
  }

  /** `moodMap[m]`: the dimension a label boosts, or None for an unrecognised label. */
  function MoodFeature(mood: string): Option<Feature> {
    if mood in MoodMap then Some(MoodMap[mood]) else None
  }

  /** The initial preference vector: every dimension at 1. */
  const Baseline: Scores := Scores(1, 1, 1, 1, 1, 1, 1, 1)

  /** One step of the `moods.forEach` loop of `createUserVector`. */
  function ApplyMood(v: Scores, mood: string): (r: Scores)
    // an unrecognised label changes nothing
    ensures MoodFeature(mood) == None ==> r == v
    // the water tag is set to 1, every other dimension kept
    ensures MoodFeature(mood) == Some(WaterActivity) ==>
              r.Get(WaterActivity) == 1 && forall g :: g != WaterActivity ==> r.Get(g) == v.Get(g)
    // any other recognised label sets exactly its dimension to 5
    ensures forall f :: MoodFeature(mood) == Some(f) && f != WaterActivity ==>
              r.Get(f) == 5 && forall g :: g != f ==> r.Get(g) == v.Get(g)
  {
    match MoodFeature(mood)
    case None => v
    case Some(f) => if f == WaterActivity then v.Set(f, 1) else v.Set(f, 5)
  }

  /** Applying the same label twice is the same as applying it once. */
  lemma ApplyMoodIdempotent(v: Scores, mood: string)
    ensures ApplyMood(ApplyMood(v, mood), mood) == ApplyMood(v, mood)
  {
    var once := ApplyMood(v, mood);
    var twice := ApplyMood(once, mood);
    forall f ensures twice.Get(f) == once.Get(f) {
    }
    ScoresEqual(twice, once);
  }

  /** Some label in `moods` boosts dimension `f` to 5. */
  predicate Boosts(moods: seq<string>, f: Feature) {
    f != WaterActivity && exists i :: 0 <= i < |moods| && MoodFeature(moods[i]) == Some(f)
  }

  /** `createUserVector`: start from the baseline and apply each label in order.
      Its value is given in closed form: 5 on every dimension some label boosts,
      1 everywhere else. */
  function UserVector(moods: seq<string>): (r: Scores)
    ensures forall f :: r.Get(f) == if Boosts(moods, f) then 5 else 1
    decreases |moods|
  {
    if moods == [] then Baseline
    else
      var prefix := moods[..|moods| - 1];
      var last := moods[|moods| - 1];
      var v := ApplyMood(UserVector(prefix), last);
      assert forall f :: Boosts(moods, f) <==>
               Boosts(prefix, f) || (f != WaterActivity && MoodFeature(last) == Some(f)) by {
        forall f ensures Boosts(moods, f) <==>
                 Boosts(prefix, f) || (f != WaterActivity && MoodFeature(last) == Some(f))
        {
          if Boosts(prefix, f) {
            var i :| 0 <= i < |prefix| && MoodFeature(prefix[i]) == Some(f);
            assert moods[i] == prefix[i];
          }
          if Boosts(moods, f) {
            var i :| 0 <= i < |moods| && MoodFeature(moods[i]) == Some(f);
            if i < |prefix| {
              assert prefix[i] == moods[i];
            }
          }
        }
      }
      v
  }

  /** Every entry of a preference vector is 1 or 5; the family score and the water
      tag are always 1, since no label boosts either. */
  lemma PreferenceValues(moods: seq<string>)
    ensures forall f :: UserVector(moods).Get(f) in {1, 5}
    ensures UserVector(moods).Get(WaterActivity) == 1
    ensures UserVector(moods).Get(Family) == 1
  {
    assert !Boosts(moods, Family) by {
      forall m ensures MoodFeature(m) != Some(Family) {
      }
    }
  }

  /** The preference vector depends only on the set of labels given: order and
      repetitions do not matter. */
  lemma UserVectorDependsOnlyOnSet(moods1: seq<string>, moods2: seq<string>)
    requires forall m :: m in moods1 <==> m in moods2
    ensures UserVector(moods1) == UserVector(moods2)
  {
    forall f ensures UserVector(moods1).Get(f) == UserVector(moods2).Get(f) {
      if Boosts(moods1, f) {
        var i :| 0 <= i < |moods1| && MoodFeature(moods1[i]) == Some(f);
        assert moods1[i] in moods2;
      }
      if Boosts(moods2, f) {
        var i :| 0 <= i < |moods2| && MoodFeature(moods2[i]) == Some(f);
        assert moods2[i] in moods1;
      }
    }
    ScoresEqual(UserVector(moods1), UserVector(moods2));
  }

  /** Adding "Water activity" anywhere in a mood list leaves the vector as it was. */
  lemma WaterActivityNoEffect(before: seq<string>, after: seq<string>)
    ensures UserVector(before + ["Water activity"] + after) == UserVector(before + after)
  {
    var withWater := before + ["Water activity"] + after;
    var without := before + after;
    forall f ensures UserVector(withWater).Get(f) == UserVector(without).Get(f) {
      WaterBoostsNothing(before, after, f);
    }
    ScoresEqual(UserVector(withWater), UserVector(without));
  }

  lemma WaterBoostsNothing(before: seq<string>, after: seq<string>, f: Feature)
    ensures Boosts(before + ["Water activity"] + after, f) <==> Boosts(before + after, f)
  {
    var withWater := before + ["Water activity"] + after;
    var without := before + after;
    if Boosts(withWater, f) {
      var i :| 0 <= i < |withWater| && MoodFeature(withWater[i]) == Some(f);
      var k := if i < |before| then i else i - 1;
      assert without[k] == withWater[i];
    }
    if Boosts(without, f) {
      var i :| 0 <= i < |without| && MoodFeature(without[i]) == Some(f);
      var k := if i < |before| then i else i + 1;
      assert withWater[k] == without[i];
    }
  }

  /** A recognised label other than "Water activity" puts a 5 on its dimension. */
  lemma LabelBoosts(moods: seq<string>, i: nat)
    requires i < |moods|
    requires moods[i] in MoodMap && MoodMap[moods[i]] != WaterActivity
    ensures UserVector(moods).Get(MoodMap[moods[i]]) == 5
  {
    assert MoodFeature(moods[i]) == Some(MoodMap[moods[i]]);
  }

  /** The running sums of `cosineSimilarity(a, b)` over the keys of `a`, which are
      the eight dimensions. They satisfy Cauchy-Schwarz, and a sum of squares is 0
      only for the all-zero vector. */
  function Cosine(a: Scores, b: Scores): (r: Sim)
    ensures r.dot * r.dot <= r.magA * r.magB
    ensures r.magA == 0 <==> forall f :: a.Get(f) == 0
    ensures r.magB == 0 <==> forall f :: b.Get(f) == 0
  {
    var xs, ys := a.Components(), b.Components();
    CauchySchwarz(xs, ys);
    AllZero(a);
    AllZero(b);
    Sim(Dot(xs, ys), Dot(xs, xs), Dot(ys, ys))
  }

  /** The sum over the eight dimensions, written out. */
  function SumOfProducts(a: Scores, b: Scores): nat {
    a.adventure * b.adventure + a.relaxation * b.relaxation + a.culture * b.culture
    + a.scenic * b.scenic + a.urban * b.urban + a.family * b.family
    + a.romantic * b.romantic + a.water * b.water
  }

  /** The dot product of two vectors is the sum of the products of their eight
      dimensions. */
  lemma DotIsSumOfProducts(a: Scores, b: Scores)
    ensures Dot(a.Components(), b.Components()) == SumOfProducts(a, b)
  {
    var xs, ys := a.Components(), b.Components();
    assert xs[..8] == xs && ys[..8] == ys;
    forall n | 0 < n <= 8 ensures xs[..n][..n - 1] == xs[..n - 1] && ys[..n][..n - 1] == ys[..n - 1] {
    }
    assert Dot(xs[..1], ys[..1]) == a.adventure * b.adventure;
    assert Dot(xs[..2], ys[..2]) == Dot(xs[..1], ys[..1]) + a.relaxation * b.relaxation;
    assert Dot(xs[..3], ys[..3]) == Dot(xs[..2], ys[..2]) + a.culture * b.culture;
    assert Dot(xs[..4], ys[..4]) == Dot(xs[..3], ys[..3]) + a.scenic * b.scenic;
    assert Dot(xs[..5], ys[..5]) == Dot(xs[..4], ys[..4]) + a.urban * b.urban;
    assert Dot(xs[..6], ys[..6]) == Dot(xs[..5], ys[..5]) + a.family * b.family;
    assert Dot(xs[..7], ys[..7]) == Dot(xs[..6], ys[..6]) + a.romantic * b.romantic;
    assert Dot(xs, ys) == Dot(xs[..7], ys[..7]) + a.water * b.water;
  }

  /** The three sums of `cosineSimilarity`, written out over the eight dimensions. */
  lemma CosineIsSumOfProducts(a: Scores, b: Scores)
    ensures Cosine(a, b) == Sim(SumOfProducts(a, b), SumOfProducts(a, a), SumOfProducts(b, b))
  {
    DotIsSumOfProducts(a, b);
    DotIsSumOfProducts(a, a);
    DotIsSumOfProducts(b, b);
  }

  lemma AllZero(a: Scores)
    ensures Dot(a.Components(), a.Components()) == 0 <==> forall f :: a.Get(f) == 0
  {
    var xs := a.Components();
    SumOfSquaresZero(xs);
    if forall i :: 0 <= i < |xs| ==> xs[i] == 0 {
      forall f ensures a.Get(f) == 0 {
        assert xs[Index(f)] == a.Get(f);
      }
    }
  }

  /** `cosineSimilarity` as the source writes it: one pass over the keys of `a`
      accumulating the dot product and both sums of squares. */
  method CosineSimilarity(a: Scores, b: Scores) returns (r: Sim)
    ensures r == Cosine(a, b)
  {
    var xs, ys := a.Components(), b.Components();
    var dot, magA, magB := 0, 0, 0;
    var i := 0;
    while i < |Features|
      invariant 0 <= i <= |Features|
      invariant dot == Dot(xs[..i], ys[..i])
      invariant magA == Dot(xs[..i], xs[..i])
      invariant magB == Dot(ys[..i], ys[..i])
    {
      var f := Features[i];
      assert xs[..i + 1][..i] == xs[..i] && ys[..i + 1][..i] == ys[..i];
      dot := dot + a.Get(f) * b.Get(f);
      magA := magA + a.Get(f) * a.Get(f);
      magB := magB + b.Get(f) * b.Get(f);
      i := i + 1;
    }
    assert xs[..i] == xs && ys[..i] == ys;
    r := Sim(dot, magA, magB);
  }

  /** Swapping the arguments swaps the two sums of squares and keeps the dot
      product, so both calls denote the same score. */
  lemma CosineSymmetric(a: Scores, b: Scores, s: real)
    ensures Cosine(b, a) == Sim(Cosine(a, b).dot, Cosine(a, b).magB, Cosine(a, b).magA)
    ensures IsScore(s, Cosine(a, b)) <==> IsScore(s, Cosine(b, a))
  {
    DotSymmetric(a.Components(), b.Components());
    var p, q := Cosine(a, b), Cosine(b, a);
    assert p.Den() == q.Den() by {
      if !p.Degenerate() {
        assert p.magA * p.magB == q.magA * q.magB;
      }
    }
  }

  /** A vector that is not all zero has similarity exactly 1 with itself. */
  lemma SelfSimilarity(v: Scores)
    requires exists f :: v.Get(f) != 0
    ensures IsScore(1.0, Cosine(v, v))
  {
    var c := Cosine(v, v);
    assert c.dot == c.magA == c.magB;
    assert c.Num() == c.Den();
  }

  /** Every catalog entry has its seven graded scores in 1..5 and its water tag in
      {0, 1}; so no catalog vector is all zero and no preference vector is either,
      and the zero guard never fires on the recommendation path. */
  lemma CatalogWellFormed()
    ensures |Catalog| == 12
    ensures forall i, f :: 0 <= i < |Catalog| && f != WaterActivity ==> 1 <= Catalog[i].scores.Get(f) <= 5
    ensures forall i :: 0 <= i < |Catalog| ==> Catalog[i].scores.Get(WaterActivity) in {0, 1}
    ensures forall i, j :: 0 <= i < j < |Catalog| ==> Catalog[i].name != Catalog[j].name
  {
  }

  /** On the recommendation path both sums of squares are positive. */
  lemma NeverDegenerate(moods: seq<string>, i: nat)
    requires i < |Catalog|
    ensures Cosine(UserVector(moods), Catalog[i].scores).magA > 0
    ensures Cosine(UserVector(moods), Catalog[i].scores).magB > 0
  {
    CatalogWellFormed();
    assert UserVector(moods).Get(Family) != 0;
    assert Catalog[i].scores.Get(Adventure) != 0;
  }

  /** The similarity of every catalog entry to the preference vector. */
  function Similarities(catalog: seq<Destination>, user: Scores): (keys: seq<Sim>)
    ensures |keys| == |catalog|
    ensures forall i :: 0 <= i < |catalog| ==> keys[i] == Cosine(user, catalog[i].scores)
  {
    seq(|catalog|, i requires 0 <= i < |catalog| => Cosine(user, catalog[i].scores))
  }

  /** The catalog positions of the first `k` entries after the descending sort. */
  function Rank(catalog: seq<Destination>, user: Scores, k: nat): seq<nat> {
    Top(Similarities(catalog, user), k)
  }

  /** `r` is a top-`k` list for the real `scores`: `min(k, n)` distinct positions,
      scores within [0, 1] and non-increasing, equal scores in position order, and
      no position left out scoring higher than one listed (or, scoring the same,
      coming earlier). */
  predicate ScoreRanked(scores: seq<real>, k: nat, r: seq<nat>) {
    && |r| == Min(k, |scores|)
    && (forall i :: 0 <= i < |r| ==> r[i] < |scores|)
    && (forall i :: 0 <= i < |r| ==> 0.0 <= scores[r[i]] <= 1.0)
    && (forall i, j :: 0 <= i < j < |r| ==> r[i] != r[j])
    && (forall i, j :: 0 <= i < j < |r| ==> scores[r[i]] >= scores[r[j]])
    && (forall i, j :: 0 <= i < j < |r| && scores[r[i]] == scores[r[j]] ==> r[i] < r[j])
    && (forall x, i :: 0 <= x < |scores| && x !in r && 0 <= i < |r| ==>
          scores[r[i]] >= scores[x] && (scores[r[i]] == scores[x] ==> r[i] < x))
  }

  /** The ranking in terms of the real scores `cosineSimilarity` returns. */
  lemma RankByScore(catalog: seq<Destination>, user: Scores, k: nat, scores: seq<real>)
    requires |scores| == |catalog|
    requires forall i :: 0 <= i < |catalog| ==> IsScore(scores[i], Cosine(user, catalog[i].scores))
    ensures ScoreRanked(scores, k, Rank(catalog, user, k))
  {
    var keys := Similarities(catalog, user);
    assert forall p :: 0 <= p < |catalog| ==> IsScore(scores[p], keys[p]);
    assert forall p :: 0 <= p < |catalog| ==> keys[p].dot * keys[p].dot <= keys[p].magA * keys[p].magB;
    TopByScore(keys, k, Rank(catalog, user, k), scores);
  }

  /** A top-`k` list by exact keys is a top-`k` list by the real scores those keys
      stand for. */
  lemma TopByScore(keys: seq<Sim>, k: nat, r: seq<nat>, scores: seq<real>)
    requires TopOf(keys, k, r)
    requires |scores| == |keys|
    requires forall i :: 0 <= i < |keys| ==> IsScore(scores[i], keys[i])
    requires forall i :: 0 <= i < |keys| ==> keys[i].dot * keys[i].dot <= keys[i].magA * keys[i].magB
    ensures ScoreRanked(scores, k, r)
  {
    forall i, j | 0 <= i < |r| && 0 <= j < |keys|
      ensures scores[r[i]] >= scores[j] <==> AtLeast(keys[r[i]], keys[j])
      ensures scores[j] >= scores[r[i]] <==> AtLeast(keys[j], keys[r[i]])
    {
      ScoreOrder(scores[r[i]], scores[j], keys[r[i]], keys[j]);
      ScoreOrder(scores[j], scores[r[i]], keys[j], keys[r[i]]);
    }
    forall i | 0 <= i < |r| ensures 0.0 <= scores[r[i]] <= 1.0 {
      ScoreInUnitInterval(scores[r[i]], keys[r[i]]);
    }
  }

  /** The `/recommend` response: the names of the five best-scoring destinations. */
  function Recommend(moods: seq<string>): (names: seq<string>)
    ensures |names| == 5
    ensures forall i :: 0 <= i < 5 ==> InCatalog(names[i])
    ensures forall i, j :: 0 <= i < j < 5 ==> names[i] != names[j]
  {
    var r := RecommendPositions(moods);
    NamesAtDistinct(r);
    NamesAt(Catalog, r)
  }

  /** `name` is the name of some catalog entry. */
  predicate InCatalog(name: string) {
    exists j :: 0 <= j < |Catalog| && Catalog[j].name == name
  }

  /** The names at the given catalog positions, in order. */
  function NamesAt(catalog: seq<Destination>, r: seq<nat>): seq<string>
    requires forall i :: 0 <= i < |r| ==> r[i] < |catalog|
  {
    seq(|r|, i requires 0 <= i < |r| => catalog[r[i]].name)
  }

  /** Distinct catalog positions name distinct catalog entries. */
  lemma NamesAtDistinct(r: seq<nat>)
    requires forall i :: 0 <= i < |r| ==> r[i] < |Catalog|
    requires forall i, j :: 0 <= i < j < |r| ==> r[i] != r[j]
    ensures |NamesAt(Catalog, r)| == |r|
    ensures forall i :: 0 <= i < |r| ==> InCatalog(NamesAt(Catalog, r)[i])
    ensures forall i, j :: 0 <= i < j < |r| ==> NamesAt(Catalog, r)[i] != NamesAt(Catalog, r)[j]
  {
    var names := NamesAt(Catalog, r);
    forall i | 0 <= i < |r| ensures InCatalog(names[i]) {
      assert Catalog[r[i]].name == names[i];
    }
    CatalogNames(r);
    forall i, j | 0 <= i < j < |r| ensures names[i] != names[j] {
      assert names[i] == Catalog[r[i]].name && names[j] == Catalog[r[j]].name;
    }
  }

  /** The catalog positions behind the `/recommend` response. */
  function RecommendPositions(moods: seq<string>): (r: seq<nat>)
    ensures |r| == 5
    ensures forall i :: 0 <= i < 5 ==> r[i] < |Catalog|
    ensures forall i, j :: 0 <= i < j < 5 ==> r[i] != r[j]
  {
    CatalogWellFormed();
    Rank(Catalog, UserVector(moods), 5)
  }

  /** Distinct catalog positions carry distinct names. */
  lemma CatalogNames(r: seq<nat>)
    requires forall i :: 0 <= i < |r| ==> r[i] < |Catalog|
    requires forall i, j :: 0 <= i < j < |r| ==> r[i] != r[j]
    ensures forall i, j :: 0 <= i < j < |r| ==> Catalog[r[i]].name != Catalog[r[j]].name
  {
    CatalogWellFormed();
    forall i, j | 0 <= i < j < |r| ensures Catalog[r[i]].name != Catalog[r[j]].name {
      if r[i] < r[j] {
        assert Catalog[r[i]].name != Catalog[r[j]].name;
      } else {
        assert Catalog[r[j]].name != Catalog[r[i]].name;
      }
    }
  }

  /** Choosing "Water activity" never changes the recommendation. */
  lemma RecommendIgnoresWaterActivity(moods: seq<string>)
    ensures Recommend(moods + ["Water activity"]) == Recommend(moods)
  {
    WaterActivityNoEffect(moods, []);
    assert moods + ["Water activity"] + [] == moods + ["Water activity"];
    assert moods + [] == moods;
  }

  /** The recommendation depends only on the set of labels sent. */
  lemma RecommendDependsOnlyOnSet(moods1: seq<string>, moods2: seq<string>)
    requires forall m :: m in moods1 <==> m in moods2
    ensures Recommend(moods1) == Recommend(moods2)
  {
    UserVectorDependsOnlyOnSet(moods1, moods2);
  }
}
