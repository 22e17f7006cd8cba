# Tariff-plan recommendation engine

A Dafny model of the recommendation core of the telecom plan recommender in
`backend.py`. `recommend_top3` turns a customer's usage record into a list of
plan recommendations in four steps:

1. It builds a feature vector in the order of the loaded feature-name list.
   The derived feature `Total_Usage` is the sum of the four minute fields.
   Absent fields count as 0.
2. It scales the vector with the fitted standard scaler.
3. It computes the Euclidean distance to every k-means centroid and takes the
   three nearest.
4. It joins each of those cluster indices to the catalog row with the same
   `plan_id`. The record carries the row's id, name and price, the distance,
   and the centroid description decoded by `parse_centroid_text`, which tries
   JSON first and falls back to a Python-literal parse.

The loaded artifacts are immutable inputs (`Domain.Artifacts`): the feature
names, the scaler's mean and scale, the centroids and the plan catalog.
Library calls whose internals are not modelled are fields of a `Domain.Host`
value. These are `float()` on strings, the square root inside
`pairwise_distances`, `json.loads` and `ast.literal_eval`. Lemmas that need
real square roots require `Distance.IsSqrt(host.sqrt)`.

Each exception the engine can raise on typed catalog rows is a `Domain.Error`:
- `InvalidInput(field)`: a usage field that `float()` rejects.
- `ConfigurationError`: the feature vector and scaler lengths differ, a centroid has another width, or there are no centroids.
- `NotFound(planId)`: `.iloc[0]` on an empty catalog selection.
- `DataCorruption(planId)`: both centroid parsers fail.

Layout:
- `features.dfy`: vectorisation.
- `scaling.dfy`: the scaler.
- `distance.dfy`: distances.
- `ranking.dfy`: argsort and the top-k selection.
- `catalog.dfy`: the catalog join and the centroid parse.
- `engine.dfy`: `recommend_top3` as a method with the source's two loops, proved equal to the functional `Engine.Recommend`, plus the end-to-end properties.
- `scenario.dfy`: a worked instance with two features and three centroids.

Two choices follow from the code as written:
- `recommend_top3` hard-codes the slice `[:3]`. It returns min(3, number of centroids) records and never fails because there are fewer than three centroids. The model uses `Engine.TopCount = 3` with the same slice semantics.
- `np.argsort` is called with its default, non-stable kind, so the code promises no tie order. `Ranking.Argsort` breaks ties by ascending index to be deterministic. The properties of the result are proved against `Ranking.IsTopK`. `Ranking.PrefixIsTopK` shows that the first k entries of an argsort with any tie order satisfy it. `Engine.RecommendDistancesTieFree` shows that the reported distances do not depend on the tie order.

## Model

| member | source | states |
|---|---|---|
| Features.FeatureVector | backend.py:40-46 | The vector exists exactly when every feature can be read. It then has one entry per feature name, and entry i is the value of `feat_names[i]`. |
| Features.FeatureVectorFirstError | backend.py:40-46 | If the features before position i are readable and feature i is not, vectorisation fails with feature i's error. |
| Features.TotalUsageIsMinuteSum | backend.py:42-44 | `Total_Usage` is readable exactly when the four minute fields are, and then equals Day + Eve + Night + Intl minutes, each absent field counting 0. |
| Features.TotalUsageExample | backend.py:42-44 | Minutes 100, 50, 30 and 10 give a `Total_Usage` of 190. |
| Features.PayloadTotalUsageIgnored | backend.py:42-44 | A `Total_Usage` key in the payload itself has no effect on the derived feature. |
| Features.FeatureVectorEntry | backend.py:46 | A feature absent from the payload gives 0 at its position; a present one gives its numeric value. |
| Scaling.Scale | backend.py:48-49 | Scaling succeeds exactly when the vector has the scaler's length, fails with `ConfigurationError` otherwise, and each scaled entry maps back to the raw value under the scaler's affine map. |
| Scaling.ScaleThenUnscale | backend.py:49 | Scaling loses nothing: unscaling the scaled vector gives back the raw vector. |
| Scaling.UnscaleThenScale | backend.py:49 | Scaling is onto: every vector of the scaler's length is the scaled form of its unscaled image. |
| Distance.SqDist | backend.py:50 | The squared Euclidean distance is non-negative. |
| Distance.SqDistZero | backend.py:50 | The squared distance is zero exactly when the two points are equal. |
| Distance.SqrtMonotone | backend.py:50 | The square root preserves and reflects the order of non-negative values. |
| Distance.EuclidMeaning | backend.py:50 | A distance is non-negative, squares to the squared distance, and is zero exactly for equal points. |
| Distance.Distances | backend.py:50 | `pairwise_distances` succeeds exactly when there are centroids and all have the vector's width, failing with `ConfigurationError` otherwise. It then yields one Euclidean distance per centroid, in centroid order. |
| Distance.DistancesMeaning | backend.py:50 | Every computed distance is non-negative, and it is zero exactly where the centroid equals the scaled vector. |
| Ranking.Insert | backend.py:51 | Inserting an index into a ranking adds exactly that index. |
| Ranking.Argsort | backend.py:51 | The argsort of n distances is a sequence of length n holding exactly the indices 0..n-1. |
| Ranking.InsertRanked | backend.py:51 | Insertion keeps a ranking in non-decreasing distance order. |
| Ranking.InsertDistinct | backend.py:51 | Insertion of a new index keeps a ranking free of duplicates. |
| Ranking.ArgsortRanked | backend.py:51 | The argsort is a duplicate-free ordering of all indices by non-decreasing distance. |
| Ranking.PrefixIsTopK | backend.py:51 | The first k entries of any sorted permutation of the indices are a top-k selection: the right length, distinct, in distance order, and no unselected index is nearer than a selected one. |
| Ranking.SwappedTieIsTopK | backend.py:51 | An argsort that lists two equal distances in descending index order still gives a top-k selection. |
| Ranking.TopK | backend.py:51 | `argsort(dists)[:k]` is a top-k selection. |
| Ranking.TopKSameOrder | backend.py:51 | The selection depends only on how the distances compare, not on their values. |
| Ranking.OrderStatistic | backend.py:51 | In any top-k selection the m-th distance has at most m indices strictly nearer and at least m + 1 no farther. |
| Ranking.TopKDistancesDetermined | backend.py:51 | Any two top-k selections of the same distances list the same distances position by position, whatever the tie order. |
| Catalog.FindPlan | backend.py:56 | Finding a plan fails exactly when no catalog row has that `plan_id`; otherwise it returns a catalog row with that id. |
| Catalog.FindPlanFirst | backend.py:56 | The row found is the first row with that id, as `.iloc[0]` takes it. |
| Catalog.ParseCentroid | backend.py:35-37 | The JSON parse is returned whenever it succeeds. The literal parse is used only when JSON fails. Decoding fails exactly when both parsers fail. |
| Catalog.Resolve | backend.py:54-63 | A ranked index resolves exactly when a row has that id and its centroid text parses. It fails with `NotFound` exactly when no row has that id, and with `DataCorruption` exactly when the row is found but neither parser accepts its centroid. On success the record has that `plan_id`, the index's distance, the found row's name and price, and the decoded centroid. |
| Catalog.Assemble | backend.py:53-63 | The join succeeds exactly when every ranked index resolves. The n-th record is then the resolution of the n-th ranked index, so rank order is preserved. |
| Catalog.AssembleFirstError | backend.py:53-63 | A failing join reports the error of the first ranked index that fails, as the loop stops at the first exception. |
| Catalog.AssembleMissingPlanFails | backend.py:56 | A ranked index with no catalog row makes the whole join fail rather than being skipped. |
| Engine.BuildVector | backend.py:40-46 | The vectorisation loop returns exactly `Features.FeatureVector` of the payload, including its first error. |
| Engine.CollectRecords | backend.py:53-63 | The record loop returns exactly `Catalog.Assemble` of the ranking, including its first error. |
| Engine.RecommendTop3 | backend.py:39-64 | `recommend_top3` returns exactly `Engine.Recommend`: vectorise, scale, compute distances, take the three nearest, and join them to the catalog. |
| Engine.RecommendSucceeds | backend.py:39-64 | `recommend_top3` succeeds exactly when every feature reads, the vector has the scaler's width, there are centroids of that width, and each of the three nearest centroids has a catalog row whose centroid text parses. |
| Engine.RecommendUnfold | backend.py:50-63 | On success, the plan ids are the first three ranked indices and each record carries its index's distance. |
| Engine.RecommendEntries | backend.py:50-63 | On success there are min(3, number of centroids) records. Each has a valid centroid index as `plan_id`, the non-negative Euclidean distance to that centroid, and the name, price and decoded centroid of that plan's catalog row. |
| Engine.RecommendNearestFirst | backend.py:50-54 | The records are in non-decreasing distance order with pairwise-distinct plan ids, and no unselected centroid is nearer than a selected one. |
| Engine.RecommendExactMatch | backend.py:50-51 | When a centroid equals the scaled usage vector, the first record has distance 0. |
| Engine.RecommendMissingPlan | backend.py:56 | A ranked index with no catalog row makes the call fail, with `NotFound` of that index when the earlier indices resolve. |
| Engine.RankBySquaredDistance | backend.py:50-51 | Ranking by squared distance selects the same plans in the same order as ranking by distance. |
| Engine.RecommendDistancesTieFree | backend.py:50-63 | The reported distances are the same for every top-3 selection, so they do not depend on argsort's tie order. |
| Scenario.NearestCentroidScenario | backend.py:39-64 | Features [A, B], identity scaling, centroids (0,0), (3,4), (10,10) and usage A=3, B=4: the plans come out as 1, 0, 2, with distances 0 and 5 and then one greater than 5. |

## Left out

- Flask setup, CORS and the HTTP routes (backend.py:15-17, 66-118) are request plumbing, not modelled.
- `db_conn` and the SQL queries are database I/O, not modelled. `init_db.py` (schema creation and seeding) and `static/app.js` (browser UI) are not part of this model.
- Loading the artifacts with joblib, json and pandas (backend.py:19-28) is file I/O. The loaded values are the inputs in `Domain.Artifacts`, and a loading failure is not modelled.
- Floating point: all numbers are reals. IEEE rounding, NaN, infinities and overflow are not modelled.
- `float()` on strings is the host function `parseFloat`. Its number grammar is not modelled, and `float()` of a list, dict or `None` is modelled as an `InvalidInput` error.
- The JSON and Python-literal grammars are the host functions `jsonLoads` and `literalEval`, which return `Option`.
- The square root inside `pairwise_distances` is the host function `sqrt`. Only what `Distance.IsSqrt` states is assumed of it.
- A catalog `centroid` cell that pandas reads as NaN is not distinguished from text.
- Catalog rows are typed (`Domain.PlanRow`, with `price: real`). The `KeyError` that `float(row["price"])` (backend.py:60) raises when the catalog has no `price` column, and its `ValueError` on a price cell `float()` rejects, are not modelled.
- `Ranking.Argsort`: fixes ties by ascending index, which `np.argsort`'s default sort does not promise. What holds for every tie order is stated by `Ranking.IsTopK` and `Ranking.TopKDistancesDetermined`.
- Scaling.Scale: models `scaler.transform` as a standard scaler, `(v - mean) / scale` with nonzero scales. Other scaler classes are not modelled.
