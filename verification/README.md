# Tourenvi trip planner — a Dafny model of its core logic

Tourenvi is a trip-planning web application. Its core logic is modelled here:

- **the mood-to-destination recommender** of `backend/server.js`:
  - a catalog of twelve destinations, each scored on eight dimensions;
  - the preference vector built from mood labels;
  - the cosine similarity between that vector and each destination;
  - the sort that keeps the five best destinations.
- **three front-end components** with pure logic:
  - the trip cost calculator (`TripCalculator.tsx`);
  - the fuel estimator's cascading selects and guarded cost (`FuelEstimator.tsx`);
  - the destination chooser that builds the `moods` request (`DestinationChooser.tsx`).

Modules:

- `Wrappers`: `Option`.
- `Vectors`: dot products of natural-number vectors, and the Cauchy–Schwarz inequality for them.
- `Similarity`: the cosine similarity, kept as its three sums. The value itself is irrational.
  - `Sim(dot, magA, magB)` keeps the three sums.
  - A real `s` is the score of such a triple when `s >= 0` and `s * s` equals `dot² / (magA · magB)`. When a sum of squares is 0, the score is 0 instead.
  - Scores are compared by cross-multiplying integers, so no square root is needed.
- `Ranking`: a stable insertion sort of catalog positions. It orders by descending score and breaks ties by catalog position. On top of it:
  - `TopOf`, which says what a correct top-`k` list is;
  - `Top`, which computes one;
  - `TopUnique`, a proof that such a list is unique.
- `Recommender`: `backend/server.js`:
  - the catalog, `FEATURES` and `moodMap`;
  - `createUserVector` and `cosineSimilarity`;
  - the `/recommend` pipeline.
- `Scenarios`: two concrete runs of `/recommend` on the shipped catalog.
- `TripCalculator`, `FuelEstimator`, `DestinationChooser`: each component is modelled as pure functions over its React state. Whatever a `fetch` returned is a parameter.

Modelling choices:

- **Numbers.**
  - Catalog scores and preference values are `nat`.
  - Money, distances and mileage are exact `real`s.
  - A JavaScript result that is not finite (`NaN`, `Infinity`) is `None`.
- **`parseFloat`** is a parameter of `FuelEstimator.OnSearch`. It returns `None` for `NaN`.
- **`parseFloat(total.toFixed(2))`** is `FuelEstimator.Round2`: rounding to the nearest hundredth, with halves rounded away from zero.
- **Fuel efficiency 0.** `TripCalculator.FuelCost` and `TripCalculator.CalculateTrip` do not require a positive fuel efficiency. An efficiency of 0 gives a non-finite result (`None`), the way the unguarded division does. Negative inputs are allowed and computed as written.
- **Sort stability.** The recommender sorts with `Array.prototype.sort`. ECMA-262 requires that sort to be stable from the 10th edition (ECMAScript 2019, section 22.1.3.27) onwards. So destinations with equal scores keep their catalog order, and the model commits to exactly that order.

## Model

| member | source | states |
|---|---|---|
| Recommender.CatalogWellFormed | backend/server.js:13-26 | twelve destinations with distinct names; every graded score is in 1..5 and every water tag is 0 or 1 |
| Recommender.KeysMatchSource | backend/server.js:28-41 | the dimensions read as property names are `FEATURES` in order and pairwise distinct, and the mood map read the same way is `moodMap`, with the same seven labels |
| Recommender.Scores.Components | backend/server.js:28-31 | the vector lists the eight dimensions in `FEATURES` order |
| DestinationChooser.MoodsAreMapped | src/components/DestinationChooser.tsx:25-33 | the chooser's seven labels are exactly the keys of the server's `moodMap`, so no selection is ignored |
| Recommender.ApplyMood | backend/server.js:46-50 | an unrecognised label changes nothing; "Water activity" sets the water tag to 1; any other label sets exactly its own dimension to 5 and leaves the others unchanged |
| Recommender.ApplyMoodIdempotent | backend/server.js:46-50 | applying a label twice is the same as applying it once |
| Recommender.UserVector | backend/server.js:43-52 | closed form of `createUserVector`: 5 on each dimension that some label other than "Water activity" boosts, 1 everywhere else |
| Recommender.PreferenceValues | backend/server.js:43-52 | every entry is 1 or 5; the water tag and the family score are always 1 |
| Recommender.UserVectorDependsOnlyOnSet | backend/server.js:46-50 | two mood lists with the same set of labels give the same vector, whatever the order and repetitions |
| Recommender.WaterActivityNoEffect | backend/server.js:48 | inserting "Water activity" anywhere in a mood list leaves the vector unchanged |
| Recommender.LabelBoosts | backend/server.js:49 | a recognised label other than "Water activity", anywhere in the list, puts 5 on its dimension |
| Vectors.CauchySchwarz | backend/server.js:55-60 | for natural-number vectors, dot² ≤ (sum of squares of a) · (sum of squares of b) |
| Vectors.SumOfSquaresZero | backend/server.js:58-61 | a sum of squares is 0 exactly when every component is 0 |
| Vectors.DotSymmetric | backend/server.js:57 | the dot product does not depend on argument order |
| Recommender.Cosine | backend/server.js:54-60 | the three sums satisfy Cauchy–Schwarz; each sum of squares is 0 exactly when its vector is all zero |
| Recommender.CosineSimilarity | backend/server.js:54-60 | the single accumulating loop over the eight keys computes the same three sums as the definition |
| Recommender.CosineIsSumOfProducts | backend/server.js:55-60 | the three sums, written out over the eight named dimensions |
| Similarity.DegenerateScoresZero | backend/server.js:61 | when either sum of squares is 0, the only score is 0 |
| Similarity.QuotientIsScore | backend/server.js:62 | otherwise `dot / (√magA · √magB)` is the score |
| Similarity.ScoreUnique | backend/server.js:61-62 | a triple has exactly one score |
| Similarity.ScoreInUnitInterval | backend/server.js:54-63 | under Cauchy–Schwarz the score lies in [0, 1] |
| Recommender.CosineSymmetric | backend/server.js:54-63 | swapping the two vectors swaps the sums of squares and keeps the score |
| Recommender.SelfSimilarity | backend/server.js:54-63 | a vector that is not all zero has similarity 1 with itself |
| Recommender.NeverDegenerate | backend/server.js:61 | for every preference vector and catalog entry both sums of squares are positive, so the zero guard never fires on the recommendation path |
| Similarity.OrderIsSquaredOrder | backend/server.js:72 | the integer comparisons `AtLeast` and `Greater` are ≥ and > on the squared scores |
| Similarity.ScoreOrder | backend/server.js:72 | the integer comparisons order two scores the same way the real scores are ordered |
| Similarity.FixedUserOrder | backend/server.js:66-72 | with one user vector, score(p) ≥ score(q) exactly when dot_p² · magB_q ≥ dot_q² · magB_p |
| Ranking.Insert | backend/server.js:72 | insertion adds exactly one occurrence of the new position |
| Ranking.Sort | backend/server.js:72 | the sort returns a permutation of its input |
| Ranking.SortRanked | backend/server.js:72 | the sorted list has descending scores, and equal scores keep their catalog order |
| Ranking.RankedOrder | backend/server.js:72 | a ranked list has no repeats, never increases in score, and lists ties in catalog order |
| Ranking.RankedPrefixIsTop | backend/server.js:72-73 | the first `min(k, n)` entries of the sorted catalog form a top-`k` list |
| Ranking.Top | backend/server.js:72-73 | sort-then-slice yields a top-`k` list (`TopOf`) |
| Ranking.TopUnique | backend/server.js:72-73 | every list satisfying `TopOf` equals `Top`, so the slice is determined by the scores alone |
| Recommender.Similarities | backend/server.js:67-71 | one similarity per catalog entry, in catalog order |
| Recommender.RankByScore | backend/server.js:65-73 | in terms of the real scores: `min(k, n)` distinct catalog positions; scores within [0, 1] and non-increasing; ties in catalog order; no destination left out scores higher than a listed one, or ties with it and comes earlier in the catalog |
| Recommender.TopByScore | backend/server.js:72 | a top-`k` list by exact keys is, read through the real scores, non-increasing, within [0, 1], tie-ordered by catalog position and never beaten by a position left out |
| Recommender.RecommendPositions | backend/server.js:72-73 | five distinct catalog positions |
| Recommender.CatalogNames | backend/server.js:13-26 | distinct catalog positions carry distinct names |
| Recommender.Recommend | backend/server.js:65-74 | the response is five distinct catalog names |
| Recommender.NamesAtDistinct | backend/server.js:73 | mapping distinct catalog positions to names gives distinct names of catalog entries, one per position |
| Recommender.RecommendIgnoresWaterActivity | backend/server.js:48 | adding "Water activity" to the request never changes the response |
| Recommender.RecommendDependsOnlyOnSet | backend/server.js:46-50 | the response depends only on the set of labels sent |
| Scenarios.SingleLabelVector | backend/server.js:43-52 | a single label other than "Water activity" gives the baseline with one dimension raised to 5 |
| Scenarios.AdventureKeys | backend/server.js:67-71 | the twelve similarity sums for `["Adventure"]` |
| Scenarios.AdventureTop | backend/server.js:72-73 | catalog positions 5, 7, 0, 8, 6 (Hogenakkal, Kolli Hills, Ooty, Yercaud, Valparai) form the top-five list for those sums |
| Scenarios.AdventureRank | backend/server.js:72-73 | ranking the catalog against the `["Adventure"]` vector gives positions 5, 7, 0, 8, 6 |
| Scenarios.AdventureScenario | backend/server.js:65-74 | `["Adventure"]` is answered with the names at catalog positions 5, 7, 0, 8, 6: Hogenakkal, Kolli Hills, Ooty, Yercaud, Valparai |
| Scenarios.BaselineKeys | backend/server.js:67-71 | the twelve similarity sums for the all-ones baseline |
| Scenarios.BaselineTop | backend/server.js:72-73 | catalog positions 8, 0, 4, 2, 3 (Yercaud, Ooty, Chennai, Kodaikanal, Mahabalipuram) form the top-five list for those sums |
| Scenarios.BaselineRank | backend/server.js:72-73 | ranking the catalog against the baseline gives positions 8, 0, 4, 2, 3 |
| Scenarios.NoMoodScenario | backend/server.js:65-74 | an empty mood list is answered with the names at catalog positions 8, 0, 4, 2, 3: Yercaud, Ooty, Chennai, Kodaikanal, Mahabalipuram |
| Scenarios.RecommendNames | backend/server.js:73 | the response is the names of the ranked positions, in ranking order |
| TripCalculator.SelectableTypesPriced | src/components/TripCalculator.tsx:41-46 | nightly prices: budget 60, hotel 120, luxury 250, camping 25 |
| TripCalculator.FuelCost | src/components/TripCalculator.tsx:49 | the fuel cost is finite exactly when the efficiency is non-zero; then cost · efficiency = distance · price |
| TripCalculator.AccommodationCost | src/components/TripCalculator.tsx:50 | the accommodation cost is finite exactly when the type has a price; then it is that price times the nights |
| TripCalculator.CalculateTrip | src/components/TripCalculator.tsx:48-65 | each figure as above; tolls reported unchanged; the total is finite exactly when both costs are, and is then fuel + accommodation + tolls; carbon is 0.1 × distance for "electric" and 0.4 × distance otherwise |
| TripCalculator.CarbonByVehicle | src/components/TripCalculator.tsx:54-56 | "hybrid" is charged like "gasoline", and "electric" at a quarter of that |
| TripCalculator.TotalBoundsComponents | src/components/TripCalculator.tsx:49-51 | with non-negative inputs, a positive efficiency and a priced type, every figure is finite and the total is at least each component |
| TripCalculator.TotalMonotone | src/components/TripCalculator.tsx:49-51 | more distance, more nights or higher tolls never lower the total |
| TripCalculator.InitialTripResult | src/components/TripCalculator.tsx:29-37 | the initial form costs 0 for fuel, 240 for two hotel nights, 240 in total, with no emissions |
| FuelEstimator.OnBrandChange | src/components/FuelEstimator.tsx:48-66 | sets the brand; clears model, fuel, the fuel list, mileage, cost and error; stores the fetched models, or `[]` if the fetch failed |
| FuelEstimator.OnModelChange | src/components/FuelEstimator.tsx:68-86 | sets the model and keeps the brand; clears fuel, mileage, cost and error; stores the fetched fuels, or `[]` |
| FuelEstimator.FetchMileage | src/components/FuelEstimator.tsx:88-110 | with no brand, model or fuel, nothing happens; otherwise the cost is cleared, and the mileage kept is the reply's `mileage` field when it is a number and null when it is another JSON value or missing; a failed request sets the error message; loading ends false |
| FuelEstimator.RoundMagnitude | src/components/FuelEstimator.tsx:120 | a non-negative amount rounded to a whole number of hundredths, within half a hundredth |
| FuelEstimator.Round2 | src/components/FuelEstimator.tsx:120 | any amount rounded to a whole number of hundredths, within half a hundredth, with a tie going away from zero (up for non-negative amounts, down for negative ones) |
| FuelEstimator.OnSearch | src/components/FuelEstimator.tsx:112-123 | an incomplete selection changes nothing; otherwise a cost appears exactly when the mileage is a positive number and both inputs are non-empty and parse; that cost is `(km / mileage) · price` rounded to hundredths; everything else is as `fetchMileage` left it |
| FuelEstimator.ResetAll | src/components/FuelEstimator.tsx:125-136 | every selection, option list, input and result is emptied; the brand list and the loading flag are kept |
| FuelEstimator.SelectionChangesClearCost | src/components/FuelEstimator.tsx:48-136 | brand change, model change and reset all clear the cost |
| FuelEstimator.SearchShowsMileage | src/components/FuelEstimator.tsx:101-102 | a search that gets a mileage number shows it, with no error |
| FuelEstimator.FuelChangeKeepsResult | src/components/FuelEstimator.tsx:213 | choosing another fuel keeps the mileage and cost of the previous search |
| FuelEstimator.StepKeepsCostHasMileage | src/components/FuelEstimator.tsx:112-123 | every handler preserves "a cost is shown only with a positive mileage" |
| FuelEstimator.RunKeepsCostHasMileage | src/components/FuelEstimator.tsx:112-123 | from the initial state, every sequence of user actions keeps that invariant |
| DestinationChooser.MoodsList | src/components/DestinationChooser.tsx:59-62 | the request lists the primary mood, then the secondary one unless it is "none"; length 1 or 2 |
| DestinationChooser.StartFind | src/components/DestinationChooser.tsx:48-62 | with no primary mood: shows the prompt and sends nothing; otherwise: loading, clears the error and old recommendations, and sends the mood list |
| DestinationChooser.FinishFind | src/components/DestinationChooser.tsx:77-85 | a reply stores the names and the found message; a failure sets the error message; loading ends either way |
| DestinationChooser.HandleResetAll | src/components/DestinationChooser.tsx:96-103 | primary "", secondary "none"; result, recommendations and error cleared |
| DestinationChooser.HandleFindOutcome | src/components/DestinationChooser.tsx:48-86 | after a search with a primary mood: a failure leaves an empty list and the error; a success shows the reply's names and no error |
| DestinationChooser.FindShowsServerRecommendation | src/components/DestinationChooser.tsx:59-78 | end to end: the chooser shows the server's answer to its mood list, five distinct catalog names |
| DestinationChooser.RedundantSecondaryIgnored | src/components/DestinationChooser.tsx:59-62 | a secondary mood of "Water activity", or equal to the primary, yields the same recommendations as "none" |
| DestinationChooser.PrimaryMoodBoosted | src/components/DestinationChooser.tsx:59-62 | a selectable primary mood other than "Water activity" puts 5 on its dimension of the server's vector |

## Left out

- **Labels that name `Object.prototype` members.** In the source, `moodMap[m]` looks labels up through the prototype chain. A label such as `"toString"` therefore yields a function, and `createUserVector` stores it under a key that is not one of the eight features. `cosineSimilarity` then iterates that key too: it adds 25 to `magA` and nothing to `dot`. The model treats such labels as unrecognised. The extra key scales every destination's score by the same factor, so the ranking would be unchanged (compare `Similarity.FixedUserOrder`). The chooser never sends such a label.
- **Floating point.** Scores, money and mileage are exact reals. Neither IEEE rounding nor `Math.sqrt` is modelled, so ties that exist only through rounding are not either. The recommender's ranking is proved on the exact scores.
- **`toFixed`.** The result strings of the trip calculator are not modelled; the model stops at the numbers. `FuelEstimator.Round2` models `toFixed(2)` on the exact value.
- **`parseFloat`.** It is a parameter of `FuelEstimator.OnSearch`. Its grammar and the inputs `"Infinity"` and `NaN` are not modelled.
- **A non-finite mileage.** The reply's `mileage` field is a finite number, another JSON value, or missing. `NaN` and `Infinity`, which pass `typeof … === "number"`, are not modelled.
- **The network.**
  - Every `fetch` is left out: `/brands` on mount, `/models`, `/fuel`, `/mileage` and `/recommend`. Their outcomes are parameters.
  - Concurrency between overlapping requests, and React's batching of state updates, are not modelled. Each handler is taken to settle before the next one starts.
- **`/get-hotels`** (backend/server.js:77-142), a Google Places proxy: network I/O and an API key.
- **Express routing, JSON parsing and `listen`.** A request without `moods` would throw before ranking, which belongs to the HTTP layer.
- **`handleDestinationClick`**: navigation only.
- **Other files.**
  - `server/server.js` and `src/utils/osmRouteService.ts`: remote route lookups.
  - `Dashboard.tsx`: local storage.
  - `RoutePlanner.tsx`: hard-coded mock routes.
  - The presentation components and pages.
- **The plain setters.** `FuelEstimator.OnFuelChange`, `FuelEstimator.OnDistanceChange` and `FuelEstimator.OnFuelPriceChange` store their value and nothing else. Their behaviour is stated by `FuelEstimator.FuelChangeKeepsResult` and by the `Run` invariant, not by a contract of their own.
