/** The request logic of the Flask backend (project/backend/app.py) with Flask,
    JWT and MongoDB taken away: the predictions collection is a sequence field
    of `PredictionService`, the users collection a map, and the class-1
    probability of the XGBoost model an input of `Predict`. */
module Backend {
  import opened Common
  import opened Domain
  import StableSort

  /** A JSON value of a request body; arrays and objects are not looked into. */
  datatype Json = JNull | JBool(b: bool) | JNum(n: real) | JStr(s: string) | JOther

  type Body = map<string, Json>

  // ---------------------------------------------------------------------------
  // format_response

  /** format_response: `data` is kept when it is not None, `message` and
      `error` only when they are truthy. */
  function FormatResponse<D>(success: bool, data: Option<D>, message: Option<string>, error: Option<string>): (r: ApiResponse<D>)
    ensures "success" in ResponseKeys(r) && r.success == success
    ensures "data" in ResponseKeys(r) <==> data.Some?
    ensures "message" in ResponseKeys(r) <==> Truthy(message)
    ensures "error" in ResponseKeys(r) <==> Truthy(error)
    ensures ResponseKeys(r) <= {"success", "data", "message", "error"}
    ensures r.data == data
    ensures Truthy(message) ==> r.message == message
    ensures Truthy(error) ==> r.error == error
  {
    ApiResponse(success, data,
                if Truthy(message) then message else None,
                if Truthy(error) then error else None)
  }

  /** The keys of the response dictionary. */
  function ResponseKeys<D>(r: ApiResponse<D>): set<string> {
    {"success"}
    + (if r.data.Some? then {"data"} else {})
    + (if r.message.Some? then {"message"} else {})
    + (if r.error.Some? then {"error"} else {})
  }

  function Failure<D>(error: string): ApiResponse<D> {
    FormatResponse(false, None, None, Some(error))
  }

  // ---------------------------------------------------------------------------
  // calculate_shap_values

  /** `body.get(key, default)` used in arithmetic: a number, or a boolean as 0
      or 1; anything else makes Python raise TypeError (None here). */
  function NumberOr(body: Body, key: string, default: real): Option<real> {
    if key !in body then Some(default)
    else match body[key]
      case JNum(n) => Some(n)
      case JBool(b) => Some(if b then 1.0 else 0.0)
      case _ => None
  }

  /** `body.get(key) == literal` */
  predicate IsText(body: Body, key: string, literal: string) {
    key in body && body[key] == JStr(literal)
  }

  /** The backend's six contributions in declaration order, for charges and
      tenure already read with their defaults. */
  function BackendFeatures(body: Body, charges: real, tenure: real): seq<ShapValue> {
    [ ShapValue("Monthly Charges", (charges - 50.0) * 0.01,
                if charges > 70.0 then Positive else Negative),
      ShapValue("Tenure", (50.0 - tenure) * 0.008,
                if tenure < 12.0 then Positive else Negative),
      ShapValue("Contract Type", if IsText(body, "contract", "Month-to-month") then 0.15 else -0.12,
                if IsText(body, "contract", "Month-to-month") then Positive else Negative),
      ShapValue("Internet Service", if IsText(body, "internetService", "Fiber optic") then 0.08 else -0.05,
                if IsText(body, "internetService", "Fiber optic") then Positive else Negative),
      ShapValue("Payment Method", if IsText(body, "paymentMethod", "Electronic check") then 0.12 else -0.08,
                if IsText(body, "paymentMethod", "Electronic check") then Positive else Negative),
      ShapValue("Online Security", if IsText(body, "onlineSecurity", "No") then 0.06 else -0.04,
                if IsText(body, "onlineSecurity", "No") then Positive else Negative) ]
  }

  /** `sorted(..., key=lambda x: abs(x["value"]), reverse=True)[:6]` */
  function TopSix(d: seq<ShapValue>): seq<ShapValue> {
    var ranked := StableSort.Sort(Magnitude, d);
    if |ranked| <= 6 then ranked else ranked[..6]
  }

  lemma TopSixOfSix(d: seq<ShapValue>)
    requires |d| == 6
    ensures TopSix(d) == StableSort.Sort(Magnitude, d)
    ensures multiset(TopSix(d)) == multiset(d)
    ensures StableSort.SortedDesc(Magnitude, TopSix(d))
    ensures forall k :: StableSort.WithKey(Magnitude, TopSix(d), k) == StableSort.WithKey(Magnitude, d, k)
  {
    StableSort.SortPermutation(Magnitude, d);
    StableSort.SortIsSorted(Magnitude, d);
    forall k ensures StableSort.WithKey(Magnitude, TopSix(d), k) == StableSort.WithKey(Magnitude, d, k) {
      StableSort.SortStable(Magnitude, d, k);
    }
  }

  /** calculate_shap_values; None when charges or tenure is not a number. */
  function CalculateShapValues(body: Body): Option<seq<ShapValue>> {
    match (NumberOr(body, "monthlyCharges", 50.0), NumberOr(body, "tenure", 12.0))
    case (Some(charges), Some(tenure)) =>
      Some(TopSix(BackendFeatures(body, charges, tenure)))
    case _ => None
  }

  /** All six features, ranked by non-increasing magnitude, equal magnitudes in
      declaration order. */
  lemma CalculateShapValuesRanked(body: Body, charges: real, tenure: real)
    requires NumberOr(body, "monthlyCharges", 50.0) == Some(charges)
    requires NumberOr(body, "tenure", 12.0) == Some(tenure)
    ensures CalculateShapValues(body).Some?
    ensures var r := CalculateShapValues(body).value;
      && |r| == 6
      && multiset(r) == multiset(BackendFeatures(body, charges, tenure))
      && StableSort.SortedDesc(Magnitude, r)
      && forall k :: StableSort.WithKey(Magnitude, r, k) == StableSort.WithKey(Magnitude, BackendFeatures(body, charges, tenure), k)
  {
    var d := BackendFeatures(body, charges, tenure);
    assert CalculateShapValues(body) == Some(TopSix(d));
    TopSixOfSix(d);
  }

  /** Missing charges count as 50 (contribution 0); missing tenure as 12
      (contribution 0.304, labelled negative). */
  lemma CalculateShapValuesDefaults(body: Body)
    requires "monthlyCharges" !in body && "tenure" !in body
    ensures CalculateShapValues(body).Some?
    ensures ShapValue("Monthly Charges", 0.0, Negative) in CalculateShapValues(body).value
    ensures ShapValue("Tenure", 0.304, Negative) in CalculateShapValues(body).value
  {
    CalculateShapValuesRanked(body, 50.0, 12.0);
    var d := BackendFeatures(body, 50.0, 12.0);
    assert d[0] in multiset(CalculateShapValues(body).value);
    assert d[1] in multiset(CalculateShapValues(body).value);
  }

  /** A present charges or tenure field that is not a number makes the scorer fail. */
  lemma CalculateShapValuesTypeError(body: Body)
    requires "monthlyCharges" in body && body["monthlyCharges"].JStr?
    ensures CalculateShapValues(body).None?
  {
  }

  // ---------------------------------------------------------------------------
  // predict: required fields, renaming, label

  const RequiredFields: seq<string> := ["contract", "monthlyCharges", "numReferrals", "dependents",
    "totalCharges", "tenure", "paymentMethod", "onlineBackup", "onlineSecurity", "techSupport"]

  const ColumnMapping: map<string, string> := map[
    "contract" := "Contract",
    "monthlyCharges" := "Monthly Charge",
    "numReferrals" := "Number of Referrals",
    "dependents" := "Dependents",
    "totalCharges" := "Avg Monthly GB Download",
    "tenure" := "Tenure in Months",
    "paymentMethod" := "Payment Method",
    "onlineBackup" := "Online Backup",
    "onlineSecurity" := "Online Security",
    "techSupport" := "Premium Tech Support"]

  /** The loop over `required_fields`: the first one absent from the body, if any. */
  method FirstMissingField(body: Body) returns (missing: Option<string>)
    ensures missing.None? <==> forall f :: f in RequiredFields ==> f in body
    ensures missing.Some? ==>
      exists i :: 0 <= i < |RequiredFields| && RequiredFields[i] == missing.value
        && missing.value !in body && forall j :: 0 <= j < i ==> RequiredFields[j] in body
  {
    var i := 0;
    while i < |RequiredFields|
      invariant 0 <= i <= |RequiredFields|
      invariant forall j :: 0 <= j < i ==> RequiredFields[j] in body
    {
      if RequiredFields[i] !in body {
        return Some(RequiredFields[i]);
      }
      i := i + 1;
    }
    return None;
  }

  /** `{column_mapping[k]: v for k, v in data.items() if k in column_mapping}`:
      every mapped field under its model column name, nothing else. */
  function RenameColumns(body: Body): (r: map<string, Json>)
    ensures forall k :: k in body && k in ColumnMapping ==> ColumnMapping[k] in r && r[ColumnMapping[k]] == body[k]
    ensures forall c :: c in r ==> exists k :: k in body && k in ColumnMapping && ColumnMapping[k] == c
  {
    map k | k in body && k in ColumnMapping :: ColumnMapping[k] := body[k]
  }

  /** The mapping sends distinct request fields to distinct columns, so no
      field's value is overwritten by another's. */
  lemma ColumnMappingInjective()
    ensures forall k1, k2 :: k1 in ColumnMapping && k2 in ColumnMapping && k1 != k2 ==> ColumnMapping[k1] != ColumnMapping[k2]
  {
  }

  /** `"Churn" if prediction_proba[1] > 0.5 else "No Churn"` */
  function PredictionLabel(p: real): (verdict: string)
    ensures verdict == ChurnLabel <==> p > 0.5
    ensures verdict == ChurnLabel || verdict == NoChurnLabel
  {
    if p > 0.5 then ChurnLabel else NoChurnLabel
  }

  // ---------------------------------------------------------------------------
  // The stored predictions and what the routes return

  /** A document of the predictions collection. `timestamp` is the instant of
      `datetime.utcnow()`, as a number. */
  datatype PredictionRecord = PredictionRecord(
    id: string,
    timestamp: int,
    customerData: Body,
    prediction: string,
    probability: real,
    shapValues: seq<ShapValue>,
    userId: string)

  /** A history entry as `get_history` formats it: the record without its owner. */
  datatype HistoryEntry = HistoryEntry(
    id: string,
    timestamp: int,
    customerData: Body,
    prediction: string,
    probability: real,
    shapValues: seq<ShapValue>)

  datatype HistoryPage = HistoryPage(predictions: seq<HistoryEntry>, total: nat)

  datatype UserDoc = UserDoc(email: string, name: string, role: Option<string>)

  /** A query-string argument read with `int(request.args.get(name, default))`. */
  datatype IntArg = Absent | Given(n: int) | NotAnInteger

  datatype HistoryParams = HistoryParams(
    page: IntArg,
    limit: IntArg,
    sortBy: Option<string>,
    sortOrder: Option<string>,
    prediction: Option<string>)

  function Format(r: PredictionRecord): HistoryEntry {
    HistoryEntry(r.id, r.timestamp, r.customerData, r.prediction, r.probability, r.shapValues)
  }

  /** The query `{"userId": user_id}` plus the prediction filter when one is
      given and is not 'All'. */
  predicate MatchesQuery(r: PredictionRecord, userId: string, filter: Option<string>) {
    r.userId == userId && (!Truthy(filter) || filter.value == "All" || r.prediction == filter.value)
  }

  function Matching(rs: seq<PredictionRecord>, userId: string, filter: Option<string>): (m: seq<PredictionRecord>)
    ensures |m| <= |rs|
    ensures forall r :: r in m <==> r in rs && MatchesQuery(r, userId, filter)
  {
    if rs == [] then []
    else (if MatchesQuery(rs[0], userId, filter) then [rs[0]] else []) + Matching(rs[1..], userId, filter)
  }

  /** An unknown or missing `sortBy` falls back to 'timestamp'. */
  function SortField(sortBy: Option<string>): (f: string)
    ensures f in {"timestamp", "probability", "prediction"}
    ensures sortBy.Some? && sortBy.value in {"timestamp", "probability", "prediction"} ==> f == sortBy.value
    ensures sortBy.None? || sortBy.value !in {"timestamp", "probability", "prediction"} ==> f == "timestamp"
  {
    if sortBy.Some? && sortBy.value in {"timestamp", "probability", "prediction"} then sortBy.value else "timestamp"
  }

  /** The value MongoDB orders a record by. Stored labels are "Churn" or
      "No Churn", which compare as 0 and 1. */
  function FieldValue(field: string, r: PredictionRecord): real {
    if field == "probability" then r.probability
    else if field == "prediction" then (if r.prediction == ChurnLabel then 0.0 else 1.0)
    else r.timestamp as real
  }

  predicate Descending(sortOrder: Option<string>) {
    sortOrder.None? || sortOrder.value == "desc"
  }

  function OrderKey(field: string, desc: bool): PredictionRecord -> real {
    if desc then (r: PredictionRecord) => FieldValue(field, r)
    else (r: PredictionRecord) => -FieldValue(field, r)
  }

  /** `.skip(skip).limit(limit)`: a limit of 0 means no limit, a negative one
      acts as its absolute value. */
  function PageOf<T>(s: seq<T>, skip: nat, limit: int): (p: seq<T>)
    ensures limit != 0 ==> |p| == Min(Abs(limit), if skip < |s| then |s| - skip else 0)
    ensures limit == 0 ==> |p| == if skip < |s| then |s| - skip else 0
    ensures skip >= |s| ==> p == []
    ensures skip < |s| ==> skip + |p| <= |s| && p == s[skip..skip + |p|]
  {
    var rest := if skip < |s| then s[skip..] else [];
    if limit == 0 || Abs(limit) >= |rest| then rest else rest[..Abs(limit)]
  }

  function Abs(n: int): nat { if n < 0 then -n else n }

  function Min(a: int, b: int): int { if a < b then a else b }

  /** The records `get_history` answers with, before formatting. */
  function HistoryRecords(rs: seq<PredictionRecord>, userId: string, params: HistoryParams, page: int, limit: int): seq<PredictionRecord>
    requires (page - 1) * limit >= 0
  {
    var ordered := StableSort.Sort(OrderKey(SortField(params.sortBy), Descending(params.sortOrder)),
                                   Matching(rs, userId, params.prediction));
    PageOf(ordered, (page - 1) * limit, limit)
  }

  function ArgValue(a: IntArg, default: int): int
    requires !a.NotAnInteger?
  {
    if a.Given? then a.n else default
  }

  function Count(rs: seq<PredictionRecord>, p: PredictionRecord -> bool): (n: nat)
    ensures n <= |rs|
  {
    if rs == [] then 0 else (if p(rs[0]) then 1 else 0) + Count(rs[1..], p)
  }

  function SumProbability(rs: seq<PredictionRecord>): real {
    if rs == [] then 0.0 else rs[0].probability + SumProbability(rs[1..])
  }

  lemma {:induction false} SumProbabilityBounds(rs: seq<PredictionRecord>)
    requires forall r :: r in rs ==> 0.0 <= r.probability <= 1.0
    ensures 0.0 <= SumProbability(rs) <= |rs| as real
  {
    if rs != [] {
      assert rs[0] in rs;
      SumProbabilityBounds(rs[1..]);
    }
  }

  /** The statistics `get_dashboard_stats` reports for the caller's records;
      rates are left unrounded. */
  function DashboardFor(rs: seq<PredictionRecord>): DashboardStats {
    if rs == [] then DashboardStats(0, 0.0, 0.0, 0, 84.0, 69.0, 72.0, 71.0, 90.0)
    else
      var total := |rs|;
      var churns := Count(rs, (r: PredictionRecord) => r.prediction == ChurnLabel);
      DashboardStats(
        total,
        (churns as real / total as real) * 100.0,
        SumProbability(rs) / total as real,
        Count(rs, (r: PredictionRecord) => r.probability > 0.7),
        84.0, 69.0, 72.2, 70.5, 90.0)
  }

  /** No records give zeros and the fixed metrics; otherwise the churn rate is a
      percentage, the high-risk count is at most the total, and the average
      probability lies in [0, 1]. */
  lemma DashboardBounds(rs: seq<PredictionRecord>)
    requires forall r :: r in rs ==> 0.0 <= r.probability <= 1.0
    ensures var s := DashboardFor(rs);
      && s.totalPredictions == |rs|
      && 0.0 <= s.churnRate <= 100.0
      && 0 <= s.highRiskCustomers <= s.totalPredictions
      && 0.0 <= s.avgProbability <= 1.0
      && (rs == [] ==> s == DashboardStats(0, 0.0, 0.0, 0, 84.0, 69.0, 72.0, 71.0, 90.0))
      && (rs != [] ==> s.predictionAccuracy == 84.0 && s.precision == 69.0 && s.recall == 72.2
                       && s.f1Score == 70.5 && s.auc == 90.0)
  {
    if rs != [] {
      SumProbabilityBounds(rs);
      var churns := Count(rs, (r: PredictionRecord) => r.prediction == ChurnLabel);
      FractionBounds(churns as real, |rs| as real);
      FractionBounds(SumProbability(rs), |rs| as real);
    }
  }

  lemma FractionBounds(part: real, whole: real)
    requires 0.0 <= part <= whole && whole > 0.0
    ensures 0.0 <= part / whole <= 1.0
  {
    assert part / whole * whole == part;
  }

  /** `bson.ObjectId(text)` accepts exactly 24 hexadecimal digits. */
  predicate IsObjectIdText(s: string) {
    |s| == 24 && forall k :: 0 <= k < |s| ==> ('0' <= s[k] <= '9' || 'a' <= s[k] <= 'f' || 'A' <= s[k] <= 'F')
  }

  predicate IsAdmin(users: map<string, UserDoc>, userId: string) {
    userId in users && users[userId].role == Some("admin")
  }

  class PredictionService {
    const dbConnected: bool
    const modelsLoaded: bool
    var predictions: seq<PredictionRecord>
    var users: map<string, UserDoc>

    /** Every stored record carries one of the two labels and a probability. */
    ghost predicate Valid()
      reads this
    {
      forall r :: r in predictions ==>
        (r.prediction == ChurnLabel || r.prediction == NoChurnLabel) && 0.0 <= r.probability <= 1.0
    }

    constructor (dbConnected: bool, modelsLoaded: bool, users: map<string, UserDoc>)
      ensures Valid()
      ensures this.dbConnected == dbConnected && this.modelsLoaded == modelsLoaded
      ensures this.users == users && predictions == []
    {
      this.dbConnected := dbConnected;
      this.modelsLoaded := modelsLoaded;
      this.users := users;
      predictions := [];
    }

    /** POST /api/predict. `classOneProbability` stands for
        `model.predict_proba(...)[0][1]` on the renamed, encoded body; `newId`
        and `now` for `ObjectId()` and `datetime.utcnow()`. */
    method Predict(userId: string, body: Body, classOneProbability: real, newId: string, now: int)
      returns (status: int, response: ApiResponse<PredictionRecord>)
      requires Valid()
      requires 0.0 <= classOneProbability <= 1.0
      modifies this`predictions
      ensures Valid()
      ensures !modelsLoaded ==>
        status == 500 && response == Failure("ML models not loaded") && predictions == old(predictions)
      ensures modelsLoaded && (exists f :: f in RequiredFields && f !in body) ==>
        status == 400 && predictions == old(predictions)
        && exists i :: 0 <= i < |RequiredFields| && RequiredFields[i] !in body
             && (forall j :: 0 <= j < i ==> RequiredFields[j] in body)
             && response == Failure("Missing required field: " + RequiredFields[i])
      ensures modelsLoaded && (forall f :: f in RequiredFields ==> f in body) && CalculateShapValues(body).None? ==>
        status == 500 && response == Failure("Prediction failed") && predictions == old(predictions)
      ensures modelsLoaded && (forall f :: f in RequiredFields ==> f in body) && CalculateShapValues(body).Some? ==>
        var record := PredictionRecord(newId, now, body, PredictionLabel(classOneProbability),
                                       classOneProbability, CalculateShapValues(body).value, userId);
        && status == 200
        && response == FormatResponse(true, Some(record), None, None)
        && predictions == old(predictions) + (if dbConnected then [record] else [])
    {
      if !modelsLoaded {
        return 500, Failure("ML models not loaded");
      }
      var missing := FirstMissingField(body);
      if missing.Some? {
        return 400, Failure("Missing required field: " + missing.value);
      }
      // The renamed columns feed the model, whose answer is `classOneProbability`.
      var shap := CalculateShapValues(body);
      if shap.None? {
        return 500, Failure("Prediction failed");
      }
      var record := PredictionRecord(newId, now, body, PredictionLabel(classOneProbability),
                                     classOneProbability, shap.value, userId);
      if dbConnected {
        predictions := predictions + [record];
      }
      return 200, FormatResponse(true, Some(record), None, None);
    }

    /** GET /api/history */
    method GetHistory(userId: string, params: HistoryParams) returns (status: int, response: ApiResponse<HistoryPage>)
      ensures !dbConnected ==> status == 500 && response == Failure("Database connection failed")
      ensures dbConnected && (params.page.NotAnInteger? || params.limit.NotAnInteger?) ==>
        status == 500 && response == Failure("Failed to retrieve history")
      ensures dbConnected && !params.page.NotAnInteger? && !params.limit.NotAnInteger? ==>
        var page := ArgValue(params.page, 1);
        var limit := ArgValue(params.limit, 10);
        if (page - 1) * limit < 0 then
          status == 500 && response == Failure("Failed to retrieve history")
        else
          var records := HistoryRecords(predictions, userId, params, page, limit);
          && status == 200 && response.success && response.data.Some?
          && response.data.value.total == |Matching(predictions, userId, params.prediction)|
          && |response.data.value.predictions| == |records|
          && forall k :: 0 <= k < |records| ==> response.data.value.predictions[k] == Format(records[k])
    {
      if !dbConnected {
        return 500, Failure("Database connection failed");
      }
      if params.page.NotAnInteger? || params.limit.NotAnInteger? {
        return 500, Failure("Failed to retrieve history");
      }
      var page := ArgValue(params.page, 1);
      var limit := ArgValue(params.limit, 10);
      if (page - 1) * limit < 0 {
        // pymongo refuses a negative skip
        return 500, Failure("Failed to retrieve history");
      }
      var total := |Matching(predictions, userId, params.prediction)|;
      var records := HistoryRecords(predictions, userId, params, page, limit);
      var formatted: seq<HistoryEntry> := [];
      var i := 0;
      while i < |records|
        invariant 0 <= i <= |records|
        invariant |formatted| == i
        invariant forall k :: 0 <= k < i ==> formatted[k] == Format(records[k])
      {
        formatted := formatted + [Format(records[i])];
        i := i + 1;
      }
      return 200, FormatResponse(true, Some(HistoryPage(formatted, total)), None, None);
    }

    /** GET /api/dashboard/stats */
    method GetDashboardStats(userId: string) returns (status: int, response: ApiResponse<DashboardStats>)
      ensures !dbConnected ==> status == 500 && response == Failure("Database connection failed")
      ensures dbConnected ==>
        status == 200 && response == FormatResponse(true, Some(DashboardFor(Matching(predictions, userId, None))), None, None)
    {
      if !dbConnected {
        return 500, Failure("Database connection failed");
      }
      var mine := Matching(predictions, userId, None);
      return 200, FormatResponse(true, Some(DashboardFor(mine)), None, None);
    }

    /** DELETE /api/history: only an admin may clear, and then every user's
        predictions go. */
    method ClearHistory(userId: string) returns (status: int, response: ApiResponse<nat>)
      requires Valid()
      modifies this`predictions
      ensures Valid()
      ensures !dbConnected ==>
        status == 500 && response == Failure("Database connection failed") && predictions == old(predictions)
      ensures dbConnected && !IsObjectIdText(userId) ==>
        status == 500 && response == Failure("Failed to clear history") && predictions == old(predictions)
      ensures dbConnected && IsObjectIdText(userId) && !IsAdmin(users, userId) ==>
        status == 403 && response == Failure("Admin access required") && predictions == old(predictions)
      ensures dbConnected && IsObjectIdText(userId) && IsAdmin(users, userId) ==>
        status == 200 && predictions == []
        && response == FormatResponse(true, Some(|old(predictions)|), Some("History cleared successfully"), None)
    {
      if !dbConnected {
        return 500, Failure("Database connection failed");
      }
      if !IsObjectIdText(userId) {
        return 500, Failure("Failed to clear history");
      }
      if !IsAdmin(users, userId) {
        return 403, Failure("Admin access required");
      }
      var deleted := |predictions|;
      predictions := [];
      return 200, FormatResponse(true, Some(deleted), Some("History cleared successfully"), None);
    }
  }

  // ---------------------------------------------------------------------------
  // What a history page is

  /** Every returned record is the caller's and passes the prediction filter. */
  lemma HistoryOwnerAndFilter(rs: seq<PredictionRecord>, userId: string, params: HistoryParams, page: int, limit: int, r: PredictionRecord)
    requires (page - 1) * limit >= 0
    requires r in HistoryRecords(rs, userId, params, page, limit)
    ensures r in rs && r.userId == userId
    ensures Truthy(params.prediction) && params.prediction.value != "All" ==> r.prediction == params.prediction.value
  {
    var m := Matching(rs, userId, params.prediction);
    var key := OrderKey(SortField(params.sortBy), Descending(params.sortOrder));
    var ordered := StableSort.Sort(key, m);
    StableSort.SortPermutation(key, m);
    assert r in ordered;
    assert r in multiset(m);
  }

  /** The page is ordered by the chosen field, descending iff sortOrder is 'desc'
      (the default). */
  lemma HistoryOrdered(rs: seq<PredictionRecord>, userId: string, params: HistoryParams, page: int, limit: int)
    requires (page - 1) * limit >= 0
    ensures var h := HistoryRecords(rs, userId, params, page, limit);
      var field := SortField(params.sortBy);
      forall i, j :: 0 <= i < j < |h| ==>
        if Descending(params.sortOrder) then FieldValue(field, h[i]) >= FieldValue(field, h[j])
        else FieldValue(field, h[i]) <= FieldValue(field, h[j])
  {
    var m := Matching(rs, userId, params.prediction);
    var field := SortField(params.sortBy);
    var key := OrderKey(field, Descending(params.sortOrder));
    var ordered := StableSort.Sort(key, m);
    StableSort.SortIsSorted(key, m);
    var h := HistoryRecords(rs, userId, params, page, limit);
    var skip := (page - 1) * limit;
    forall i, j | 0 <= i < j < |h|
      ensures if Descending(params.sortOrder) then FieldValue(field, h[i]) >= FieldValue(field, h[j])
              else FieldValue(field, h[i]) <= FieldValue(field, h[j])
    {
      assert h[i] == ordered[skip + i] && h[j] == ordered[skip + j];
      assert key(ordered[skip + i]) >= key(ordered[skip + j]);
    }
  }

  /** Paging skips `(page-1)*limit` matching records and returns at most `limit`
      of them; the total ignores paging. */
  lemma HistoryPaging(rs: seq<PredictionRecord>, userId: string, params: HistoryParams, page: int, limit: int)
    requires (page - 1) * limit >= 0
    requires limit > 0
    ensures var total := |Matching(rs, userId, params.prediction)|;
      var skip := (page - 1) * limit;
      var h := HistoryRecords(rs, userId, params, page, limit);
      && |h| <= limit
      && |h| == (if skip >= total then 0 else Min(limit, total - skip))
  {
  }

  /** Labels decided by `predict` are "Churn" exactly above 0.5. */
  lemma PredictionLabelBoundary()
    ensures PredictionLabel(0.5) == NoChurnLabel
    ensures forall p :: p > 0.5 ==> PredictionLabel(p) == ChurnLabel
  {
  }
}
