/**
 * The K-Means HTTP handlers: the guard chain of the clustering endpoint in front of
 * `fit`, the prediction endpoint that installs client-supplied centroids before
 * `predict`, and the selector of the bundled example data sets.
 *
 * A request body is the value `json.loads` produced, or `None` when the body is not
 * JSON. The HTTP response is reduced to the error it reports or the fields it carries.
 */
module ClusteringViews {
  import opened Wrappers
  import opened Json
  import opened KMeans
  import PointParsers

  /** The tolerance `KMeansClustering` is built with when the view gives none (1e-4). */
  const Tolerance: real := 0.0001

  // ---------------------------------------------------------------------------
  // Python's view of a decoded JSON value

  /** Python truthiness: `None`, `False`, zero, and empty strings, lists and dicts are false. */
  predicate Truthy(v: JsonValue)
  {
    match v
    case JNull => false
    case JBool(b) => b
    case JInt(i) => i != 0
    case JFloat(x) => x != 0.0
    case JStr(s) => |s| > 0
    case JArray(items) => |items| > 0
    case JObject(ms) => |ms| > 0
  }

  /** `len(v)`; `None` where Python raises a TypeError. */
  function Len(v: JsonValue): (n: Option<nat>)
    ensures n.Some? <==> v.JStr? || v.JArray? || v.JObject?
    ensures n.Some? ==> (n.value > 0 <==> Truthy(v))
  {
    match v
    case JStr(s) => Some(|s|)
    case JArray(items) => Some(|items|)
    case JObject(ms) => Some(|DictOf(ms)|)
    case _ => None
  }

  /**
   * What `for item in v` visits: the elements of a list, the one-character strings of
   * a string, the keys of a dict; `None` where Python raises a TypeError.
   */
  function Iterated(v: JsonValue): (items: Option<seq<JsonValue>>)
    ensures items.Some? <==> Len(v).Some?
    ensures items.Some? ==> |items.value| == Len(v).value
    ensures v.JArray? ==> items == Some(v.items)
    ensures v.JStr? || v.JObject? ==> forall i :: 0 <= i < |items.value| ==> items.value[i].JStr?
  {
    match v
    case JArray(xs) => Some(xs)
    case JStr(s) => Some(seq(|s|, i requires 0 <= i < |s| => JStr([s[i]])))
    case JObject(ms) => var d := DictOf(ms); Some(seq(|d|, i requires 0 <= i < |d| => JStr(d[i].0)))
    case _ => None
  }

  /** `data.get(key, default)` */
  function GetOr(ms: seq<(string, JsonValue)>, key: string, default: JsonValue): (v: JsonValue)
    ensures !HasKey(ms, key) ==> v == default
    ensures HasKey(ms, key) ==> Some(v) == Get(ms, key)
  {
    if HasKey(ms, key) then Get(ms, key).value else default
  }

  /** Strings yield no point: a list of them parses to no points at all. */
  lemma {:induction false} StringsParseToNothing(items: seq<JsonValue>, parseFloat: string -> Option<real>)
    requires forall i :: 0 <= i < |items| ==> items[i].JStr?
    ensures PointParsers.ParseList(items, parseFloat) == Success([])
    decreases |items|
  {
    if |items| > 0 {
      var n := |items| - 1;
      StringsParseToNothing(items[..n], parseFloat);
    }
  }

  // ---------------------------------------------------------------------------
  // kmeans_cluster_view

  /**
   * The answers the clustering endpoint gives instead of a result. The five guard
   * failures have messages of their own; `BadValue` is any ValueError raised on the
   * way (status 400) and `Internal` any other exception (status 500).
   */
  datatype ClusterError =
    | MethodNotAllowed
    | EmptyPoints
    | KTooSmall
    | FewerPointsThanK
    | NoPointsParsed
    | MixedDimensions
    | BadValue
    | Internal

  /** The HTTP status of each answer. */
  function ClusterStatus(e: ClusterError): (status: nat)
    ensures status == 400 <==> !(e.MethodNotAllowed? || e.Internal?)
    ensures e.MethodNotAllowed? ==> status == 405
    ensures e.Internal? ==> status == 500
  {
    match e
    case MethodNotAllowed => 405
    case Internal => 500
    case _ => 400
  }

  /** A raised exception seen by the `except ValueError` / `except Exception` pair. */
  function Raised(e: PyError): ClusterError
  {
    if e == ValueError then BadValue else Internal
  }

  /** What survives the guards: the parsed points, `k` and `max_iters`. */
  datatype ClusterInput = ClusterInput(points: seq<Point>, k: nat, maxIters: int)

  /**
   * Lines 37-71 of the clustering view: read `points`, `k` (default 2) and `max_iters`
   * (default 100), then reject in this order an empty point list, k below 1, fewer raw
   * items than k, a list from which no point was parsed, and points of differing
   * dimension. `max_iters` is taken as it comes.
   */
  function ReadClusterRequest(body: JsonValue, parseInt: string -> Option<int>, parseFloat: string -> Option<real>)
    : (r: Result<ClusterInput, ClusterError>)
    ensures r.Success? ==>
      && body.JObject?
      && var raw := GetOr(body.members, "points", JArray([]));
      && Truthy(raw) && r.value.k >= 1
      && Len(raw).Some? && Len(raw).value >= r.value.k
      && PointParsers.ParseList(Iterated(raw).value, parseFloat) == Success(r.value.points)
      && |r.value.points| >= 1 && IsRectangular(r.value.points) && |r.value.points[0]| >= 1
    ensures body.JObject? ==>
      var k := IntOf(GetOr(body.members, "k", JInt(2)), parseInt);
      var m := IntOf(GetOr(body.members, "max_iters", JInt(100)), parseInt);
      && (k.Failure? ==> r == Failure(Raised(k.error)))
      && (k.Success? && m.Failure? ==> r == Failure(Raised(m.error)))
      && (r.Success? ==> k == Success(r.value.k as int) && m == Success(r.value.maxIters))
    ensures !body.JObject? ==> r == Failure(Internal)
  {
    match body
    case JObject(ms) =>
      var raw := GetOr(ms, "points", JArray([]));
      var k := IntOf(GetOr(ms, "k", JInt(2)), parseInt);
      if k.Failure? then Failure(Raised(k.error))
      else
        var maxIters := IntOf(GetOr(ms, "max_iters", JInt(100)), parseInt);
        if maxIters.Failure? then Failure(Raised(maxIters.error))
        else if !Truthy(raw) then Failure(EmptyPoints)
        else if k.value < 1 then Failure(KTooSmall)
        else if Len(raw).None? then Failure(Internal)
        else if Len(raw).value < k.value then Failure(FewerPointsThanK)
        else
          var parsed := PointParsers.ParseList(Iterated(raw).value, parseFloat);
          if parsed.Failure? then Failure(Raised(parsed.error))
          else if |parsed.value| == 0 then Failure(NoPointsParsed)
          else if !IsRectangular(parsed.value) then Failure(MixedDimensions)
          else
            PointParsers.ParseListBounds(Iterated(raw).value, parseFloat);
            Success(ClusterInput(parsed.value, k.value, maxIters.value))
    case _ => Failure(Internal)
  }

  /** The random sample drawn inside `fit` is one `np.random.choice` could draw for the validated input. */
  predicate SampleFits(v: Result<ClusterInput, ClusterError>, indices: seq<nat>)
  {
    v.Success? && v.value.k <= |v.value.points| ==> IsSample(indices, v.value.k, |v.value.points|)
  }

  /** The success response; `sse` is the value before the display rounding to four places. */
  datatype ClusterResponse = ClusterResponse(
    k: nat,
    iterations: nat,
    sse: real,
    centroids: Matrix,
    labels: seq<nat>,
    clusters: seq<Matrix>,
    points: seq<Point>,
    history: seq<IterationInfo>)

  /** `fit` raises a ValueError when the sample does not fit and a TypeError when no round ran. */
  function FitFailure(e: FitError): ClusterError
  {
    match e
    case SampleLargerThanPopulation => BadValue
    case NoIterationRan => Internal
  }

  /** What the clustering endpoint answers, with `fit` drawing the sample `indices`. */
  function ClusterOutcome(isPost: bool, body: Option<JsonValue>, parseInt: string -> Option<int>,
                          parseFloat: string -> Option<real>, indices: seq<nat>, sqrt: real -> real)
    : (r: Result<ClusterResponse, ClusterError>)
    requires body.Some? ==> SampleFits(ReadClusterRequest(body.value, parseInt, parseFloat), indices)
  {
    if !isPost then Failure(MethodNotAllowed)
    else if body.None? then Failure(BadValue)
    else
      var v := ReadClusterRequest(body.value, parseInt, parseFloat);
      if v.Failure? then Failure(v.error)
      else
        var f := FitSpec(v.value.points, v.value.k, v.value.maxIters, Tolerance, sqrt, indices);
        if f.Failure? then Failure(FitFailure(f.error))
        else
          var fit := f.value;
          Success(ClusterResponse(v.value.k, fit.iterations, fit.sse, fit.centroids, fit.labels, fit.clusters,
                                  v.value.points, fit.history))
  }

  /**
   * `kmeans_cluster_view`: run the guards, build a `KMeansClustering` with the request's
   * `k` and `max_iters`, fit it on the parsed points, and answer with what `fit` returned
   * together with `k` and the points themselves.
   */
  method KMeansClusterView(isPost: bool, body: Option<JsonValue>, parseInt: string -> Option<int>,
                           parseFloat: string -> Option<real>, indices: seq<nat>, sqrt: real -> real)
    returns (r: Result<ClusterResponse, ClusterError>)
    requires body.Some? ==> SampleFits(ReadClusterRequest(body.value, parseInt, parseFloat), indices)
    ensures r == ClusterOutcome(isPost, body, parseInt, parseFloat, indices, sqrt)
  {
    if !isPost {
      return Failure(MethodNotAllowed);
    }
    if body.None? {
      return Failure(BadValue);
    }
    var v := ReadClusterRequest(body.value, parseInt, parseFloat);
    if v.Failure? {
      return Failure(v.error);
    }
    var input := v.value;
    var model := new KMeansClustering(input.k, input.maxIters, Tolerance);
    var fit := model.Fit(Rows(input.points), indices, sqrt);
    if fit.Failure? {
      return Failure(FitFailure(fit.error));
    }
    var f := fit.value;
    r := Success(ClusterResponse(input.k, f.iterations, f.sse, f.centroids, f.labels, f.clusters, input.points,
                                 f.history));
  }

  /**
   * A successful clustering answer echoes the parsed points and `k` and copies the fit
   * result unchanged: k centroids, one label in [0, k) per point, between 1 and
   * `max_iters` rounds with one history entry each, and clusters that partition the points.
   */
  lemma ClusterResponseGuarantees(body: JsonValue, parseInt: string -> Option<int>, parseFloat: string -> Option<real>,
                                  indices: seq<nat>, sqrt: real -> real)
    requires SampleFits(ReadClusterRequest(body, parseInt, parseFloat), indices)
    ensures var r := ClusterOutcome(true, Some(body), parseInt, parseFloat, indices, sqrt);
      r.Success? ==>
        var v := ReadClusterRequest(body, parseInt, parseFloat).value;
        var f := FitSpec(v.points, v.k, v.maxIters, Tolerance, sqrt, indices);
        && f.Success?
        && r.value.k == v.k && r.value.points == v.points
        && r.value.iterations == f.value.iterations && r.value.sse == f.value.sse
        && r.value.centroids == f.value.centroids && r.value.labels == f.value.labels
        && r.value.clusters == f.value.clusters && r.value.history == f.value.history
        && |r.value.centroids| == v.k && ValidLabels(r.value.labels, |v.points|, v.k)
        && 1 <= r.value.iterations <= v.maxIters && |r.value.history| == r.value.iterations
        && GroupUnion(r.value.clusters) == multiset(v.points)
  {
    var v := ReadClusterRequest(body, parseInt, parseFloat);
    if v.Success? {
      FitGuarantees(v.value.points, v.value.k, v.value.maxIters, Tolerance, sqrt, indices);
    }
  }

  /**
   * Past the guards the request fails only inside `fit`: with a ValueError (400) when
   * fewer points were parsed than k, and otherwise with a TypeError (500) when
   * `max_iters` allows no round.
   */
  lemma ClusterFailsOnlyInFit(body: JsonValue, parseInt: string -> Option<int>, parseFloat: string -> Option<real>,
                              indices: seq<nat>, sqrt: real -> real)
    requires SampleFits(ReadClusterRequest(body, parseInt, parseFloat), indices)
    requires ReadClusterRequest(body, parseInt, parseFloat).Success?
    ensures var v := ReadClusterRequest(body, parseInt, parseFloat).value;
      var r := ClusterOutcome(true, Some(body), parseInt, parseFloat, indices, sqrt);
      && (r.Failure? <==> v.k > |v.points| || v.maxIters < 1)
      && (v.k > |v.points| ==> r == Failure(BadValue))
      && (v.k <= |v.points| && v.maxIters < 1 ==> r == Failure(Internal))
  {
  }

  /**
   * The guards fire in their order once `k` and `max_iters` are integers: an empty point
   * list is reported whatever `k` is, k below 1 whatever the list's length, and a list
   * shorter than k before any item is parsed.
   */
  lemma ClusterGuardOrder(ms: seq<(string, JsonValue)>, parseInt: string -> Option<int>,
                          parseFloat: string -> Option<real>)
    requires IntOf(GetOr(ms, "k", JInt(2)), parseInt).Success?
    requires IntOf(GetOr(ms, "max_iters", JInt(100)), parseInt).Success?
    ensures var raw := GetOr(ms, "points", JArray([]));
      var k := IntOf(GetOr(ms, "k", JInt(2)), parseInt).value;
      var r := ReadClusterRequest(JObject(ms), parseInt, parseFloat);
      && (r == Failure(EmptyPoints) <==> !Truthy(raw))
      && (r == Failure(KTooSmall) <==> Truthy(raw) && k < 1)
      && (r == Failure(FewerPointsThanK) <==> Truthy(raw) && k >= 1 && Len(raw).Some? && Len(raw).value < k)
  {
    var raw := GetOr(ms, "points", JArray([]));
    var k := IntOf(GetOr(ms, "k", JInt(2)), parseInt).value;
    var r := ReadClusterRequest(JObject(ms), parseInt, parseFloat);
    if Truthy(raw) && k >= 1 && !(Len(raw).Some? && Len(raw).value < k) {
      assert r.Failure? ==> r.error in {BadValue, Internal, NoPointsParsed, MixedDimensions};
    }
  }

  /**
   * `int()` of `k` or `max_iters` that raises ends the request at once: a string that
   * is not an integer is a ValueError (400), null, a list or a dict a TypeError (500).
   */
  lemma IntFieldErrors(ms: seq<(string, JsonValue)>, key: string, parseInt: string -> Option<int>,
                       parseFloat: string -> Option<real>)
    requires key == "k" || key == "max_iters"
    requires IntOf(GetOr(ms, key, JInt(if key == "k" then 2 else 100)), parseInt).Failure?
    requires key == "max_iters" ==> IntOf(GetOr(ms, "k", JInt(2)), parseInt).Success?
    ensures var v := GetOr(ms, key, JInt(if key == "k" then 2 else 100));
      var r := ReadClusterRequest(JObject(ms), parseInt, parseFloat);
      && (v.JStr? ==> r == Failure(BadValue) && ClusterStatus(r.error) == 400)
      && (!v.JStr? ==> r == Failure(Internal) && ClusterStatus(r.error) == 500)
  {
  }

  /**
   * Once the raw list is long enough, the parsed points decide: no point parsed, then
   * points of differing dimension, are the last two rejections.
   */
  lemma ClusterParsedGuards(ms: seq<(string, JsonValue)>, parseInt: string -> Option<int>,
                            parseFloat: string -> Option<real>)
    requires IntOf(GetOr(ms, "k", JInt(2)), parseInt).Success?
    requires IntOf(GetOr(ms, "max_iters", JInt(100)), parseInt).Success?
    requires var raw := GetOr(ms, "points", JArray([]));
      var k := IntOf(GetOr(ms, "k", JInt(2)), parseInt).value;
      Truthy(raw) && k >= 1 && Len(raw).Some? && Len(raw).value >= k
    ensures var raw := GetOr(ms, "points", JArray([]));
      var parsed := PointParsers.ParseList(Iterated(raw).value, parseFloat);
      var r := ReadClusterRequest(JObject(ms), parseInt, parseFloat);
      && (parsed.Failure? ==> r == Failure(Raised(parsed.error)))
      && (r == Failure(NoPointsParsed) <==> parsed == Success([]))
      && (r == Failure(MixedDimensions) <==> parsed.Success? && |parsed.value| > 0 && !IsRectangular(parsed.value))
      && (r.Success? <==> parsed.Success? && |parsed.value| > 0 && IsRectangular(parsed.value))
  {
  }

  /** Without `k` and `max_iters` in the request, k is 2 and `max_iters` is 100. */
  lemma ClusterDefaults(ms: seq<(string, JsonValue)>, parseInt: string -> Option<int>, parseFloat: string -> Option<real>)
    requires !HasKey(ms, "k") && !HasKey(ms, "max_iters")
    ensures var r := ReadClusterRequest(JObject(ms), parseInt, parseFloat);
      r.Success? ==> r.value.k == 2 && r.value.maxIters == 100
  {
  }

  /**
   * A `points` value that is a non-empty string or dict passes the emptiness and length
   * guards (its length counts characters or keys) and then yields no point at all.
   */
  lemma TextOrDictPointsParseToNothing(ms: seq<(string, JsonValue)>, parseInt: string -> Option<int>,
                                       parseFloat: string -> Option<real>)
    requires var raw := GetOr(ms, "points", JArray([])); raw.JStr? || raw.JObject?
    requires var r := ReadClusterRequest(JObject(ms), parseInt, parseFloat);
      !(r == Failure(EmptyPoints) || r == Failure(KTooSmall) || r == Failure(FewerPointsThanK))
    requires IntOf(GetOr(ms, "k", JInt(2)), parseInt).Success?
    requires IntOf(GetOr(ms, "max_iters", JInt(100)), parseInt).Success?
    ensures ReadClusterRequest(JObject(ms), parseInt, parseFloat) == Failure(NoPointsParsed)
  {
    StringsParseToNothing(Iterated(GetOr(ms, "points", JArray([]))).value, parseFloat);
  }

  /**
   * The length guard counts raw items, not parsed points: `{"points": [[1, 2], "junk"],
   * "k": 2}` passes it with two items, only one point is parsed, and sampling two
   * centroids from one point then fails inside `fit` with a ValueError.
   */
  lemma RawCountLetsTooFewPointsThrough(body: JsonValue, parseInt: string -> Option<int>,
                                        parseFloat: string -> Option<real>, indices: seq<nat>, sqrt: real -> real)
    requires body == JObject([("points", JArray([JArray([JInt(1), JInt(2)]), JStr("junk")])), ("k", JInt(2))])
    ensures ReadClusterRequest(body, parseInt, parseFloat) == Success(ClusterInput([[1.0, 2.0]], 2, 100))
    ensures ClusterOutcome(true, Some(body), parseInt, parseFloat, indices, sqrt) == Failure(BadValue)
  {
    JunkRequest(body, parseInt, parseFloat);
    ClusterFailsOnlyInFit(body, parseInt, parseFloat, indices, sqrt);
  }

  /** The guards accept the request with one parseable item out of two. */
  lemma JunkRequest(body: JsonValue, parseInt: string -> Option<int>, parseFloat: string -> Option<real>)
    requires body == JObject([("points", JArray([JArray([JInt(1), JInt(2)]), JStr("junk")])), ("k", JInt(2))])
    ensures ReadClusterRequest(body, parseInt, parseFloat) == Success(ClusterInput([[1.0, 2.0]], 2, 100))
  {
    var ms := body.members;
    assert ms[0].0 == "points" && ms[1].0 == "k";
    assert !HasKey(ms, "max_iters");
    var items := [JArray([JInt(1), JInt(2)]), JStr("junk")];
    assert GetOr(ms, "points", JArray([])) == JArray(items);
    assert GetOr(ms, "k", JInt(2)) == JInt(2);
    JunkItemsParse(items, parseFloat);
    GuardsAccept(ms, JArray(items), 2, 100, [[1.0, 2.0]], parseInt, parseFloat);
  }

  /** The items `[1, 2]` and `"junk"` parse to the single point (1, 2). */
  lemma JunkItemsParse(items: seq<JsonValue>, parseFloat: string -> Option<real>)
    requires items == [JArray([JInt(1), JInt(2)]), JStr("junk")]
    ensures PointParsers.ParseList(items, parseFloat) == Success([[1.0, 2.0]])
  {
    PairParses(items[0], parseFloat);
    SingleItemParses(items[0], parseFloat, [1.0, 2.0]);
    assert items[..1] == [items[0]];
  }

  /**
   * `max_iters` is not range-checked: `{"points": [[1, 2]], "k": 1, "max_iters": 0}`
   * passes every guard, and `fit` then runs no round and fails with a TypeError (500).
   */
  lemma ZeroMaxItersPassesGuards(body: JsonValue, parseInt: string -> Option<int>,
                                 parseFloat: string -> Option<real>, sqrt: real -> real)
    requires body == JObject([("points", JArray([JArray([JInt(1), JInt(2)])])), ("k", JInt(1)), ("max_iters", JInt(0))])
    ensures ReadClusterRequest(body, parseInt, parseFloat) == Success(ClusterInput([[1.0, 2.0]], 1, 0))
    ensures SampleFits(ReadClusterRequest(body, parseInt, parseFloat), [0])
      && ClusterOutcome(true, Some(body), parseInt, parseFloat, [0], sqrt) == Failure(Internal)
  {
    ZeroMaxItersRequest(body, parseInt, parseFloat);
    ClusterFailsOnlyInFit(body, parseInt, parseFloat, [0], sqrt);
  }

  /** The guards accept the request with `max_iters` 0. */
  lemma ZeroMaxItersRequest(body: JsonValue, parseInt: string -> Option<int>, parseFloat: string -> Option<real>)
    requires body == JObject([("points", JArray([JArray([JInt(1), JInt(2)])])), ("k", JInt(1)), ("max_iters", JInt(0))])
    ensures ReadClusterRequest(body, parseInt, parseFloat) == Success(ClusterInput([[1.0, 2.0]], 1, 0))
  {
    var items := [JArray([JInt(1), JInt(2)])];
    ZeroMaxItersFields(body.members, items);
    OnePointParses(items, parseFloat);
    GuardsAccept(body.members, JArray(items), 1, 0, [[1.0, 2.0]], parseInt, parseFloat);
  }

  /** The fields of the request with `max_iters` 0. */
  lemma ZeroMaxItersFields(ms: seq<(string, JsonValue)>, items: seq<JsonValue>)
    requires items == [JArray([JInt(1), JInt(2)])]
    requires ms == [("points", JArray(items)), ("k", JInt(1)), ("max_iters", JInt(0))]
    ensures GetOr(ms, "points", JArray([])) == JArray(items)
    ensures GetOr(ms, "k", JInt(2)) == JInt(1) && GetOr(ms, "max_iters", JInt(100)) == JInt(0)
  {
    assert ms[0].0 == "points" && ms[1].0 == "k" && ms[2].0 == "max_iters";
  }

  /**
   * A key written twice counts with its last value, as in the dict `json.loads` builds:
   * `{"points": [[1, 2]], "k": 5, "k": 1}` is read with k = 1.
   */
  lemma RepeatedKeyTakesLastValue(body: JsonValue, parseInt: string -> Option<int>, parseFloat: string -> Option<real>)
    requires body == JObject([("points", JArray([JArray([JInt(1), JInt(2)])])), ("k", JInt(5)), ("k", JInt(1))])
    ensures ReadClusterRequest(body, parseInt, parseFloat) == Success(ClusterInput([[1.0, 2.0]], 1, 100))
  {
    var ms := body.members;
    var items := [JArray([JInt(1), JInt(2)])];
    assert ms[0].0 == "points" && ms[1].0 == "k" && ms[2].0 == "k";
    assert !HasKey(ms, "max_iters");
    assert GetOr(ms, "points", JArray([])) == JArray(items);
    assert GetOr(ms, "k", JInt(2)) == JInt(1);
    OnePointParses(items, parseFloat);
    GuardsAccept(ms, JArray(items), 1, 100, [[1.0, 2.0]], parseInt, parseFloat);
  }

  /**
   * A coordinate beyond the double range is not a bad value: `float` raises an
   * OverflowError, which only the generic handler catches, so
   * `{"points": [[2^1024 - 2^970]], "k": 1}` is answered with status 500.
   */
  lemma OverflowingCoordinateIsInternal(body: JsonValue, parseInt: string -> Option<int>,
                                        parseFloat: string -> Option<real>, sqrt: real -> real)
    requires body == JObject([("points", JArray([JArray([JInt(FloatOverflowBound)])])), ("k", JInt(1))])
    ensures ReadClusterRequest(body, parseInt, parseFloat) == Failure(Internal)
    ensures ClusterOutcome(true, Some(body), parseInt, parseFloat, [], sqrt) == Failure(Internal)
  {
    var ms := body.members;
    var items := [JArray([JInt(FloatOverflowBound)])];
    assert ms[0].0 == "points" && ms[1].0 == "k";
    assert !HasKey(ms, "max_iters");
    assert GetOr(ms, "points", JArray([])) == JArray(items);
    assert GetOr(ms, "k", JInt(2)) == JInt(1);
    assert PointParsers.NumericValues(items[0].items, parseFloat) == Failure(OverflowError) by {
      assert items[0].items[..0] == [];
    }
    assert items[..0] == [];
    assert PointParsers.ParseList(items, parseFloat) == Failure(OverflowError);
  }

  /** A request whose fields pass every guard is accepted with its parsed points, `k` and `max_iters`. */
  lemma GuardsAccept(ms: seq<(string, JsonValue)>, raw: JsonValue, k: int, maxIters: int, points: seq<Point>,
                     parseInt: string -> Option<int>, parseFloat: string -> Option<real>)
    requires GetOr(ms, "points", JArray([])) == raw && Truthy(raw) && Iterated(raw).Some?
    requires IntOf(GetOr(ms, "k", JInt(2)), parseInt) == Success(k) && k >= 1 && Len(raw).value >= k
    requires IntOf(GetOr(ms, "max_iters", JInt(100)), parseInt) == Success(maxIters)
    requires PointParsers.ParseList(Iterated(raw).value, parseFloat) == Success(points)
    requires |points| > 0 && IsRectangular(points)
    ensures ReadClusterRequest(JObject(ms), parseInt, parseFloat) == Success(ClusterInput(points, k, maxIters))
  {
  }

  /** The single item `[1, 2]` parses to the point (1, 2). */
  lemma OnePointParses(items: seq<JsonValue>, parseFloat: string -> Option<real>)
    requires items == [JArray([JInt(1), JInt(2)])]
    ensures PointParsers.ParseList(items, parseFloat) == Success([[1.0, 2.0]])
  {
    PairParses(items[0], parseFloat);
    SingleItemParses(items[0], parseFloat, [1.0, 2.0]);
  }

  /** A list of one item holds that item's point, if it has one. */
  lemma SingleItemParses(item: JsonValue, parseFloat: string -> Option<real>, p: Point)
    requires PointParsers.ItemPoint(item, parseFloat) == Success(p) && |p| > 0
    ensures PointParsers.ParseList([item], parseFloat) == Success([p])
  {
    assert [item][..0] == [];
    assert [] + [p] == [p];
  }

  /** The list `[1, 2]` is the point (1, 2). */
  lemma PairParses(item: JsonValue, parseFloat: string -> Option<real>)
    requires item == JArray([JInt(1), JInt(2)])
    ensures PointParsers.ItemPoint(item, parseFloat) == Success([1.0, 2.0])
  {
    PointParsers.NumericValuesOfNumbers(item.items, parseFloat);
    var r := PointParsers.NumericValues(item.items, parseFloat).value;
    assert r[0] == 1.0 && r[1] == 2.0;
    assert r == [1.0, 2.0];
  }

  // ---------------------------------------------------------------------------
  // kmeans_predict_view

  /**
   * The answers the prediction endpoint gives instead of labels: its two guard
   * failures, and `Rejected` for any exception raised on the way (all reported with
   * status 400).
   */
  datatype PredictViewError = NotPost | EmptyCentroids | EmptyPointList | Rejected

  /**
   * `np.array(v)` as a numeric matrix: a list of rows of one length holding numbers
   * that convert to floats (the distance to an int beyond the double range raises an
   * OverflowError).
   */
  predicate IsNumericMatrix(v: JsonValue, parseFloat: string -> Option<real>)
  {
    && v.JArray?
    && (forall i :: 0 <= i < |v.items| ==> v.items[i].JArray?)
    && (forall i, j :: 0 <= i < |v.items| && 0 <= j < |v.items[i].items| ==>
          IsNumber(v.items[i].items[j]) && FloatOf(v.items[i].items[j], parseFloat).Success?)
    && (forall i :: 0 <= i < |v.items| ==> |v.items[i].items| == |v.items[0].items|)
  }

  /** The rows of a numeric matrix as coordinates, entry by entry. */
  function MatrixOf(v: JsonValue, parseFloat: string -> Option<real>): (m: Matrix)
    requires IsNumericMatrix(v, parseFloat)
    ensures |m| == |v.items| && IsRectangular(m)
    ensures forall i, j :: 0 <= i < |m| && 0 <= j < |v.items[i].items| ==>
      j < |m[i]| && Success(m[i][j]) == FloatOf(v.items[i].items[j], parseFloat)
  {
    var rows := v.items;
    seq(|rows|, i requires 0 <= i < |rows| =>
      seq(|rows[i].items|, j requires 0 <= j < |rows[i].items| => FloatOf(rows[i].items[j], parseFloat).value))
  }

  /** The centroids and the parsed points the prediction runs on. */
  datatype PredictInput = PredictInput(centroids: Matrix, points: seq<Point>)

  /**
   * Lines 122-142 of the prediction view: reject empty centroids, then an empty point
   * list; parse the points, and take `k = len(centroids)` rows as the model's centroids.
   * Whatever numpy or the distance would raise on the way (points or centroids that do
   * not form matrices of one dimension) is the generic 400 answer.
   */
  function ReadPredictRequest(body: JsonValue, parseFloat: string -> Option<real>)
    : (r: Result<PredictInput, PredictViewError>)
    ensures r.Success? ==>
      && body.JObject?
      && var raw := GetOr(body.members, "centroids", JArray([]));
      && IsNumericMatrix(raw, parseFloat) && r.value.centroids == MatrixOf(raw, parseFloat)
      && Len(raw) == Some(|r.value.centroids|) && |r.value.centroids| >= 1
      && Conformable(r.value.points, r.value.centroids)
      && Iterated(GetOr(body.members, "points", JArray([]))).Some?
      && PointParsers.ParseList(Iterated(GetOr(body.members, "points", JArray([]))).value, parseFloat)
           == Success(r.value.points)
  {
    match body
    case JObject(ms) =>
      var centroids := GetOr(ms, "centroids", JArray([]));
      var raw := GetOr(ms, "points", JArray([]));
      if !Truthy(centroids) then Failure(EmptyCentroids)
      else if !Truthy(raw) then Failure(EmptyPointList)
      else if Iterated(raw).None? then Failure(Rejected)
      else
        var parsed := PointParsers.ParseList(Iterated(raw).value, parseFloat);
        if parsed.Failure? || !IsNumericMatrix(centroids, parseFloat) then Failure(Rejected)
        else
          var cs := MatrixOf(centroids, parseFloat);
          if !HasDim(parsed.value, |cs[0]|) then Failure(Rejected)
          else Success(PredictInput(cs, parsed.value))
    case _ => Failure(Rejected)
  }

  /** The success response: one label per parsed point, and the points themselves. */
  datatype PredictResponse = PredictResponse(labels: seq<nat>, points: seq<Point>)

  /** What the prediction endpoint answers. */
  function PredictOutcome(isPost: bool, body: Option<JsonValue>, parseFloat: string -> Option<real>)
    : (r: Result<PredictResponse, PredictViewError>)
  {
    if !isPost then Failure(NotPost)
    else if body.None? then Failure(Rejected)
    else
      var v := ReadPredictRequest(body.value, parseFloat);
      if v.Failure? then Failure(v.error)
      else Success(PredictResponse(Assign(v.value.points, v.value.centroids), v.value.points))
  }

  /**
   * `kmeans_predict_view`: run the guards, build a `KMeansClustering` with
   * `k = len(centroids)`, overwrite its `centroids` with the supplied ones, and answer
   * with its prediction for the parsed points.
   */
  method KMeansPredictView(isPost: bool, body: Option<JsonValue>, parseFloat: string -> Option<real>)
    returns (r: Result<PredictResponse, PredictViewError>)
    ensures r == PredictOutcome(isPost, body, parseFloat)
  {
    if !isPost {
      return Failure(NotPost);
    }
    if body.None? {
      return Failure(Rejected);
    }
    var v := ReadPredictRequest(body.value, parseFloat);
    if v.Failure? {
      return Failure(v.error);
    }
    var input := v.value;
    var model := new KMeansClustering(|input.centroids|, 100, Tolerance);
    model.centroids := Some(input.centroids);
    var labels := model.Predict(Rows(input.points));
    r := Success(PredictResponse(labels.value, input.points));
  }

  /**
   * A successful prediction labels every parsed point, in order, with the first of the
   * supplied centroids nearest to it; there are `len(centroids)` of them and nothing is
   * fitted.
   */
  lemma PredictViewAssigns(body: JsonValue, parseFloat: string -> Option<real>, i: nat)
    ensures var r := PredictOutcome(true, Some(body), parseFloat);
      r.Success? ==>
        var v := ReadPredictRequest(body, parseFloat).value;
        && r.value.points == v.points
        && ValidLabels(r.value.labels, |v.points|, |v.centroids|)
        && |v.centroids| == Len(GetOr(body.members, "centroids", JArray([]))).value
        && (i < |v.points| ==>
              && IsFirstNearestAmong(v.points[i], v.centroids, |v.centroids|, r.value.labels[i])
              && forall b: nat :: IsFirstNearestAmong(v.points[i], v.centroids, |v.centroids|, b) ==> b == r.value.labels[i])
  {
    var v := ReadPredictRequest(body, parseFloat);
    if v.Success? && i < |v.value.points| {
      AssignIsFirstNearest(v.value.points, v.value.centroids, i);
    }
  }

  /**
   * The prediction guards fire in order: empty centroids first, whatever the points
   * are, then an empty point list.
   */
  lemma PredictGuardOrder(ms: seq<(string, JsonValue)>, parseFloat: string -> Option<real>)
    ensures var r := ReadPredictRequest(JObject(ms), parseFloat);
      var centroids := GetOr(ms, "centroids", JArray([]));
      var raw := GetOr(ms, "points", JArray([]));
      && (r == Failure(EmptyCentroids) <==> !Truthy(centroids))
      && (r == Failure(EmptyPointList) <==> Truthy(centroids) && !Truthy(raw))
  {
  }

  /**
   * A point list from which nothing parses is not rejected: with usable centroids the
   * answer is an empty list of labels.
   */
  lemma NothingParsedPredictsNothing(ms: seq<(string, JsonValue)>, parseFloat: string -> Option<real>)
    requires var centroids := GetOr(ms, "centroids", JArray([]));
      Truthy(centroids) && IsNumericMatrix(centroids, parseFloat)
    requires var raw := GetOr(ms, "points", JArray([]));
      Truthy(raw) && Iterated(raw).Some? && PointParsers.ParseList(Iterated(raw).value, parseFloat) == Success([])
    ensures PredictOutcome(true, Some(JObject(ms)), parseFloat) == Success(PredictResponse([], []))
  {
  }

  /**
   * The converse of the prediction guards: non-empty numeric centroids, and a non-empty
   * point list that parses to points of the centroids' dimension, are accepted, and
   * every parsed point is labelled against those centroids.
   */
  lemma PredictGuardsAccept(ms: seq<(string, JsonValue)>, parseFloat: string -> Option<real>, points: seq<Point>)
    requires var centroids := GetOr(ms, "centroids", JArray([]));
      Truthy(centroids) && IsNumericMatrix(centroids, parseFloat)
    requires var raw := GetOr(ms, "points", JArray([]));
      Truthy(raw) && Iterated(raw).Some? && PointParsers.ParseList(Iterated(raw).value, parseFloat) == Success(points)
    requires var cs := MatrixOf(GetOr(ms, "centroids", JArray([])), parseFloat);
      |cs| > 0 && HasDim(points, |cs[0]|)
    ensures var cs := MatrixOf(GetOr(ms, "centroids", JArray([])), parseFloat);
      && ReadPredictRequest(JObject(ms), parseFloat) == Success(PredictInput(cs, points))
      && PredictOutcome(true, Some(JObject(ms)), parseFloat) == Success(PredictResponse(Assign(points, cs), points))
  {
  }

  // ---------------------------------------------------------------------------
  // load_example_data_view

  /** A bundled data set: its CSV file and the k suggested for it. */
  datatype ExampleData = ExampleData(csvFile: string, k: nat)

  /** The selector's answers other than a data set: a method other than GET, or an unknown name. */
  datatype LoadError = NotGet | UnknownFile

  /** Lines 172-182 and 212 of `load_example_data_view`: the `file` parameter, `bai1` when absent, names a data set. */
  function SelectExample(isGet: bool, file: Option<string>): (r: Result<ExampleData, LoadError>)
    ensures !isGet ==> r == Failure(NotGet)
    ensures r.Success? <==> isGet && (file.None? || file.value == "bai1" || file.value == "bai2")
    ensures isGet && r.Failure? ==> r.error == UnknownFile
    ensures r.Success? ==> r.value.k == (if file.Some? && file.value == "bai2" then 3 else 2)
  {
    if !isGet then Failure(NotGet)
    else
      var name := if file.Some? then file.value else "bai1";
      var kDefault := if name == "bai1" then 2 else 3;
      if name == "bai1" then Success(ExampleData("Bai1_k2_data.csv", kDefault))
      else if name == "bai2" then Success(ExampleData("Bai2_k3_data.csv", kDefault))
      else Failure(UnknownFile)
  }

  /**
   * Exactly the names `bai1` (also the default) and `bai2` select a data set, the first
   * with k = 2 and the second with k = 3; every other name is refused.
   */
  lemma ExampleSelection(isGet: bool, file: Option<string>)
    ensures var r := SelectExample(isGet, file);
      var name := if file.Some? then file.value else "bai1";
      && (r.Success? <==> isGet && (name == "bai1" || name == "bai2"))
      && (isGet && name == "bai1" ==> r == Success(ExampleData("Bai1_k2_data.csv", 2)))
      && (isGet && name == "bai2" ==> r == Success(ExampleData("Bai2_k3_data.csv", 3)))
      && (isGet && file.None? ==> r == Success(ExampleData("Bai1_k2_data.csv", 2)))
      && (!isGet ==> r == Failure(NotGet))
  {
  }
}
