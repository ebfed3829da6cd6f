/**
 * The dashboard's write endpoints (dashboard.py, `DashboardHandler.do_POST`
 * and `save_external_prediction`): `/api/prediction` stores a prediction
 * sent by an external model, `/api/resolve` resolves a stored one. A request
 * arrives as its Authorization header and its JSON body, already parsed
 * (None when the body is not valid JSON); a response is a status and a body.
 */
module DashboardApi {
  import opened Wrappers
  import opened Records
  import opened Text
  import Store
  import Queries
  import Resolve

  /** The scheme prefix of a bearer-token Authorization header (section 2.1 of RFC 6750). */
  const BEARER: string := "Bearer "

  const DEFAULT_TIMEFRAME: string := "5"

  /** The configured timeframes; each has its own store. */
  predicate IsTimeframe(tf: string) { tf == "5" || tf == "15" || tf == "60" }

  datatype Body =
    | ErrorBody(message: string)
    | MissingFieldsBody(fields: seq<string>)
    | CreatedBody(predictionId: int, timeframe: string)
    | ResolvedBody(directionCorrect: bool, targetErrorPct: real, calibrationScore: real)

  datatype Response = Response(status: int, body: Body)

  /** `header.replace('Bearer ', '') if header else ''`: every occurrence of the prefix is removed. */
  function ProvidedKey(header: string): string {
    if header == "" then "" else ReplaceAll(header, BEARER, "")
  }

  /**
   * The prediction endpoint's authentication: with no key configured every
   * request passes; otherwise a header without the bearer prefix is 401 and
   * a key that does not match is 403. None means the request may proceed.
   */
  function AuthorizePrediction(apiKey: string, header: string): (r: Option<Response>)
    ensures apiKey == "" ==> r.None?
    ensures r.None? <==> apiKey == "" || (StartsWith(header, BEARER) && ProvidedKey(header) == apiKey)
    ensures r.Some? ==> r.value.status in {401, 403}
    ensures r.Some? && r.value.status == 401 <==> apiKey != "" && !StartsWith(header, BEARER)
  {
    if apiKey != "" && !StartsWith(header, BEARER) then Some(Response(401, ErrorBody("Missing Authorization header")))
    else if apiKey != "" && ProvidedKey(header) != apiKey then Some(Response(403, ErrorBody("Invalid API key")))
    else None
  }

  /** The resolve endpoint checks only the key: a missing prefix is not rejected by itself. */
  function AuthorizeResolve(apiKey: string, header: string): (r: Option<Response>)
    ensures r.None? <==> apiKey == "" || ProvidedKey(header) == apiKey
    ensures r.Some? ==> r.value.status == 403
  {
    if apiKey != "" && ProvidedKey(header) != apiKey then Some(Response(403, ErrorBody("Invalid API key")))
    else None
  }

  lemma StripPrefix(key: string)
    requires !Contains(key, BEARER)
    ensures ProvidedKey(BEARER + key) == key
  {
    var h := BEARER + key;
    assert h[..|BEARER|] == BEARER;
    assert h[|BEARER|..] == key;
    ReplaceAbsent(key, BEARER, "");
  }

  /** The header a client is meant to send is accepted by both endpoints. */
  lemma WellFormedHeaderPasses(apiKey: string)
    requires !Contains(apiKey, BEARER)
    ensures AuthorizePrediction(apiKey, BEARER + apiKey).None?
    ensures AuthorizeResolve(apiKey, BEARER + apiKey).None?
  {
    StripPrefix(apiKey);
    assert (BEARER + apiKey)[..|BEARER|] == BEARER;
  }

  /** A well-formed header carrying another key is refused with 403 by both endpoints. */
  lemma WrongKeyForbidden(apiKey: string, key: string)
    requires apiKey != "" && key != apiKey && !Contains(key, BEARER)
    ensures AuthorizePrediction(apiKey, BEARER + key) == Some(Response(403, ErrorBody("Invalid API key")))
    ensures AuthorizeResolve(apiKey, BEARER + key) == Some(Response(403, ErrorBody("Invalid API key")))
  {
    StripPrefix(key);
    assert (BEARER + key)[..|BEARER|] == BEARER;
  }

  /**
   * Because every occurrence of the prefix is stripped, a repeated prefix
   * is accepted too: "Bearer Bearer k" authenticates key "k".
   */
  lemma RepeatedPrefixAccepted()
    ensures AuthorizePrediction("k", "Bearer Bearer k").None?
  {
    var h := "Bearer Bearer k";
    assert h[..7] == BEARER && h[7..] == "Bearer k";
    assert h[7..][..7] == BEARER && h[7..][7..] == "k";
    assert ReplaceAll("k", BEARER, "") == "k";
    assert ReplaceAll(h[7..], BEARER, "") == "k";
  }

  /** The JSON body of `/api/prediction`; absent keys are None. */
  datatype IngestPayload = IngestPayload(
    timestamp: Option<Timestamp>,
    currentPrice: Option<real>,
    direction: Option<string>,
    target: Option<real>,
    confidence: Option<int>,
    reasoning: Option<string>,
    source: Option<string>,
    timeframe: Option<string>)

  /** The JSON body of `/api/resolve`. */
  datatype ResolvePayload = ResolvePayload(
    predictionId: Option<int>,
    actualPrice: Option<real>,
    timeframe: Option<string>)

  const REQUIRED_PREDICTION_FIELDS: seq<string> := ["current_price", "direction", "target", "confidence"]

  /** Whether the required key `f` is absent from the prediction body. */
  predicate PredictionFieldAbsent(p: IngestPayload, f: string) {
    (f == "current_price" && p.currentPrice.None?) || (f == "direction" && p.direction.None?)
    || (f == "target" && p.target.None?) || (f == "confidence" && p.confidence.None?)
  }

  /** The missing required keys of a prediction, in the order they are checked. */
  function MissingPredictionFields(p: IngestPayload): (m: seq<string>)
    ensures m == [] <==> p.currentPrice.Some? && p.direction.Some? && p.target.Some? && p.confidence.Some?
    ensures |m| <= 4
    ensures ("current_price" in m <==> p.currentPrice.None?) && ("direction" in m <==> p.direction.None?)
    ensures ("target" in m <==> p.target.None?) && ("confidence" in m <==> p.confidence.None?)
    ensures m == Queries.Filter(REQUIRED_PREDICTION_FIELDS, (f: string) => PredictionFieldAbsent(p, f))
  {
    MissingFieldsUnfold(p);
    (if p.currentPrice.None? then ["current_price"] else [])
    + (if p.direction.None? then ["direction"] else [])
    + (if p.target.None? then ["target"] else [])
    + (if p.confidence.None? then ["confidence"] else [])
  }

  /** The comprehension over the required keys, unfolded one key at a time. */
  lemma MissingFieldsUnfold(p: IngestPayload)
    ensures var absent := (f: string) => PredictionFieldAbsent(p, f);
      Queries.Filter(REQUIRED_PREDICTION_FIELDS, absent)
      == (if p.currentPrice.None? then ["current_price"] else [])
         + (if p.direction.None? then ["direction"] else [])
         + (if p.target.None? then ["target"] else [])
         + (if p.confidence.None? then ["confidence"] else [])
  {
    var absent := (f: string) => PredictionFieldAbsent(p, f);
    Queries.FilterOfFour("current_price", "direction", "target", "confidence", absent);
    assert absent("current_price") == p.currentPrice.None? && absent("direction") == p.direction.None?;
    assert absent("target") == p.target.None? && absent("confidence") == p.confidence.None?;
  }

  const REQUIRED_RESOLVE_FIELDS: seq<string> := ["prediction_id", "actual_price"]

  predicate ResolveFieldAbsent(p: ResolvePayload, f: string) {
    (f == "prediction_id" && p.predictionId.None?) || (f == "actual_price" && p.actualPrice.None?)
  }

  /** The missing required keys of a resolution request, in order. */
  function MissingResolveFields(p: ResolvePayload): (m: seq<string>)
    ensures m == [] <==> p.predictionId.Some? && p.actualPrice.Some?
    ensures ("prediction_id" in m <==> p.predictionId.None?) && ("actual_price" in m <==> p.actualPrice.None?)
    ensures m == Queries.Filter(REQUIRED_RESOLVE_FIELDS, (f: string) => ResolveFieldAbsent(p, f))
  {
    ResolveFieldsUnfold(p);
    (if p.predictionId.None? then ["prediction_id"] else [])
    + (if p.actualPrice.None? then ["actual_price"] else [])
  }

  /** The comprehension over the two required keys, unfolded one key at a time. */
  lemma ResolveFieldsUnfold(p: ResolvePayload)
    ensures var absent := (f: string) => ResolveFieldAbsent(p, f);
      Queries.Filter(REQUIRED_RESOLVE_FIELDS, absent)
      == (if p.predictionId.None? then ["prediction_id"] else [])
         + (if p.actualPrice.None? then ["actual_price"] else [])
  {
    var absent := (f: string) => ResolveFieldAbsent(p, f);
    Queries.FilterOfTwo("prediction_id", "actual_price", absent);
    assert absent("prediction_id") == p.predictionId.None? && absent("actual_price") == p.actualPrice.None?;
  }

  /** An unknown or absent timeframe falls back to the default one. */
  function NormalizeTimeframe(tf: Option<string>): (r: string)
    ensures IsTimeframe(r)
    ensures tf.Some? && IsTimeframe(tf.value) ==> r == tf.value
    ensures tf.None? || !IsTimeframe(tf.value) ==> r == DEFAULT_TIMEFRAME
  {
    if tf.Some? && IsTimeframe(tf.value) then tf.value else DEFAULT_TIMEFRAME
  }

  /**
   * `save_external_prediction`: the creation columns of the stored row,
   * with the direction upper-cased and the defaults for absent keys.
   */
  function ExternalRow(p: IngestPayload, now: Timestamp): (r: Prediction)
    requires MissingPredictionFields(p) == []
    ensures r.currentPrice == p.currentPrice.value && r.predictedTarget == p.target.value
    ensures r.confidence == p.confidence.value
    ensures |r.predictedDirection| == |p.direction.value|
    ensures forall i :: 0 <= i < |r.predictedDirection| ==> r.predictedDirection[i] == UpperChar(p.direction.value[i])
    ensures r.timestamp == (if p.timestamp.Some? then p.timestamp.value else now)
    ensures r.reasoning == (if p.reasoning.Some? then p.reasoning.value else "")
    ensures r.source == Some(if p.source.Some? then p.source.value else "local_llm")
    ensures r.resolution.None? && r.isExtreme.None?
  {
    Prediction(0, p.timestamp.GetOr(now), p.currentPrice.value, Upper(p.direction.value), p.target.value,
               p.confidence.value, p.reasoning.GetOr(""), Some(p.source.GetOr("local_llm")),
               None, None, None, None)
  }

  /** A lower-case direction from an external model is stored as the predictor's own "UP"/"DOWN". */
  lemma DirectionUpperCased()
    ensures Upper("up") == "UP" && Upper("down") == "DOWN" && Upper("Up") == "UP"
  {
  }

  /**
   * Resolving a stored row through the endpoint leaves the table exactly as
   * the predictor's own resolution of that row would.
   */
  lemma ResolveEndpointMatchesPredictor(t: seq<Prediction>, p: Prediction, actualPrice: real, now: Timestamp)
    requires Store.PredictionIds(t) && p in t && p.currentPrice != 0.0
    ensures var res := Resolve.ResolutionOf(p, actualPrice, now);
      Store.Updated(t, p.(resolution := Some(res)))
      == seq(|t|, j requires 0 <= j < |t| => if t[j].id == p.id then t[j].(resolution := Some(res)) else t[j])
  {
    var res := Resolve.ResolutionOf(p, actualPrice, now);
    forall j | 0 <= j < |t| && t[j].id == p.id
      ensures Store.Merge(t[j], p.(resolution := Some(res))) == t[j].(resolution := Some(res))
    {
      Store.SameIdSameRow(t, t[j], p);
    }
  }

  /**
   * The server: the configured key and the store of each timeframe. The
   * three stores are distinct objects.
   */
  class DashboardServer {
    const apiKey: string
    const db5: Store.Database
    const db15: Store.Database
    const db60: Store.Database

    ghost predicate Valid()
      reads this, db5, db15, db60
    {
      db5 != db15 && db5 != db60 && db15 != db60
      && db5.Valid() && db15.Valid() && db60.Valid()
    }

    constructor (key: string, s5: Store.Database, s15: Store.Database, s60: Store.Database)
      requires s5 != s15 && s5 != s60 && s15 != s60
      requires s5.Valid() && s15.Valid() && s60.Valid()
      ensures apiKey == key && db5 == s5 && db15 == s15 && db60 == s60
      ensures Valid()
    {
      apiKey := key;
      db5 := s5;
      db15 := s15;
      db60 := s60;
    }

    /** The store `get_db_path` picks; an unknown timeframe uses the default one's. */
    function StoreFor(tf: string): (db: Store.Database)
      reads this
      ensures db in {db5, db15, db60}
      ensures !IsTimeframe(tf) ==> db == db5
    {
      if tf == "15" then db15 else if tf == "60" then db60 else db5
    }

    /**
     * POST /api/prediction. Rejections (401, 403, 400) change nothing;
     * otherwise the row is appended to the store of the chosen timeframe,
     * the other stores are untouched, and the reply is 201 with the new id.
     */
    method HandlePrediction(header: string, body: Option<IngestPayload>, now: Timestamp) returns (resp: Response)
      requires Valid()
      modifies db5, db15, db60
      ensures Valid()
      ensures AuthorizePrediction(apiKey, header).Some? ==>
        resp == AuthorizePrediction(apiKey, header).value && unchanged(db5, db15, db60)
      ensures AuthorizePrediction(apiKey, header).None? && body.None? ==>
        resp == Response(400, ErrorBody("Invalid JSON")) && unchanged(db5, db15, db60)
      ensures AuthorizePrediction(apiKey, header).None? && body.Some? && MissingPredictionFields(body.value) != [] ==>
        resp == Response(400, MissingFieldsBody(MissingPredictionFields(body.value))) && unchanged(db5, db15, db60)
      ensures resp.status == 201 <==>
        AuthorizePrediction(apiKey, header).None? && body.Some? && MissingPredictionFields(body.value) == []
      ensures resp.status == 201 ==>
        var tf := NormalizeTimeframe(body.value.timeframe);
        var db := StoreFor(tf);
        resp.body == CreatedBody(|old(db.predictions)| + 1, tf)
        && db.predictions == old(db.predictions) + [ExternalRow(body.value, now).(id := |old(db.predictions)| + 1)]
        && db.verifierPredictions == old(db.verifierPredictions)
        && db.metaLearnings == old(db.metaLearnings) && db.consensusOutcomes == old(db.consensusOutcomes)
        && (db != db5 ==> unchanged(db5)) && (db != db15 ==> unchanged(db15)) && (db != db60 ==> unchanged(db60))
    {
      var auth := AuthorizePrediction(apiKey, header);
      if auth.Some? {
        return auth.value;
      }
      if body.None? {
        return Response(400, ErrorBody("Invalid JSON"));
      }
      var data := body.value;
      var missing := MissingPredictionFields(data);
      if missing != [] {
        return Response(400, MissingFieldsBody(missing));
      }
      var tf := NormalizeTimeframe(data.timeframe);
      var db := StoreFor(tf);
      var id := db.SavePrediction(ExternalRow(data, now));
      resp := Response(201, CreatedBody(id, tf));
    }

    /**
     * POST /api/resolve. Rejections (403, 400), an unknown id (404) and a
     * stored entry price of zero (500, the division raises) change nothing;
     * otherwise only the resolution columns of that row are written, with
     * the predictor's own formulas, and the reply carries the verdict.
     */
    method HandleResolve(header: string, body: Option<ResolvePayload>, now: Timestamp) returns (resp: Response)
      requires Valid()
      modifies db5, db15, db60
      ensures Valid()
      ensures AuthorizeResolve(apiKey, header).Some? ==>
        resp == AuthorizeResolve(apiKey, header).value && unchanged(db5, db15, db60)
      ensures AuthorizeResolve(apiKey, header).None? && body.None? ==>
        resp == Response(400, ErrorBody("Invalid JSON")) && unchanged(db5, db15, db60)
      ensures AuthorizeResolve(apiKey, header).None? && body.Some? && MissingResolveFields(body.value) != [] ==>
        resp == Response(400, MissingFieldsBody(MissingResolveFields(body.value))) && unchanged(db5, db15, db60)
      ensures resp.status == 404 ==>
        resp.body == ErrorBody("Prediction not found") && unchanged(db5, db15, db60)
        && body.Some? && body.value.predictionId.Some?
        && old(StoreFor(NormalizeTimeframe(body.value.timeframe)).Find(body.value.predictionId.value)).None?
      ensures AuthorizeResolve(apiKey, header).None? && body.Some? && MissingResolveFields(body.value) == [] ==>
        var row := old(StoreFor(NormalizeTimeframe(body.value.timeframe)).Find(body.value.predictionId.value));
        (row.None? ==> resp == Response(404, ErrorBody("Prediction not found")))
        && (row.Some? && row.value.currentPrice == 0.0 ==> resp == Response(500, ErrorBody("float division by zero")))
        && (row.Some? && row.value.currentPrice != 0.0 ==> resp.status == 200)
      ensures resp.status == 500 ==> unchanged(db5, db15, db60)
      ensures resp.status == 200 ==>
        AuthorizeResolve(apiKey, header).None? && body.Some? && MissingResolveFields(body.value) == []
        && var db := StoreFor(NormalizeTimeframe(body.value.timeframe));
           var id := body.value.predictionId.value;
           var row := old(db.Find(id));
           row.Some? && row.value.currentPrice != 0.0
           && var res := Resolve.ResolutionOf(row.value, body.value.actualPrice.value, now);
              resp.body == ResolvedBody(res.directionCorrect, res.targetErrorPct, res.calibrationScore)
              && |db.predictions| == |old(db.predictions)|
              && (forall j :: 0 <= j < |db.predictions| ==>
                    db.predictions[j] == if old(db.predictions)[j].id == id
                                         then old(db.predictions)[j].(resolution := Some(res))
                                         else old(db.predictions)[j])
              && (db != db5 ==> unchanged(db5)) && (db != db15 ==> unchanged(db15)) && (db != db60 ==> unchanged(db60))
      ensures resp.status in {200, 400, 403, 404, 500}
    {
      var auth := AuthorizeResolve(apiKey, header);
      if auth.Some? {
        return auth.value;
      }
      if body.None? {
        return Response(400, ErrorBody("Invalid JSON"));
      }
      var data := body.value;
      var missing := MissingResolveFields(data);
      if missing != [] {
        return Response(400, MissingFieldsBody(missing));
      }
      var db := StoreFor(NormalizeTimeframe(data.timeframe));
      var id := data.predictionId.value;
      var row := db.Find(id);
      if row.None? {
        return Response(404, ErrorBody("Prediction not found"));
      }
      var p := row.value;
      if p.currentPrice == 0.0 {
        return Response(500, ErrorBody("float division by zero"));
      }
      var res := Resolve.ResolutionOf(p, data.actualPrice.value, now);
      db.SetResolution(id, res);
      resp := Response(200, ResolvedBody(res.directionCorrect, res.targetErrorPct, res.calibrationScore));
    }
  }
}
