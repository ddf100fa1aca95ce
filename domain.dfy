/** The records exchanged between the dashboard and its backend, as declared
    in project/src/types/index.ts. Categorical customer fields stay strings:
    the code compares them with string literals, and values outside the
    declared unions do reach those comparisons. */
module Domain {
  import opened Common

  datatype User = User(id: string, email: string, role: string, name: string)

  datatype Impact = Positive | Negative

  /** One feature attribution; `value` is signed. */
  datatype ShapValue = ShapValue(feature: string, value: real, impact: Impact)

  /** `Math.abs(value)`, the ranking key of an attribution. */
  function Magnitude(v: ShapValue): real {
    if v.value >= 0.0 then v.value else -v.value
  }

  function Contribution(v: ShapValue): real {
    v.value
  }

  datatype CustomerData = CustomerData(
    tenure: int,
    monthlyCharges: real,
    totalCharges: real,
    contract: string,
    paymentMethod: string,
    internetService: string,
    onlineSecurity: string,
    techSupport: string,
    streamingTV: string,
    paperlessBilling: string,
    senior: string,
    partner: string,
    dependents: string)

  datatype ChurnPrediction = ChurnPrediction(
    id: string,
    timestamp: string,
    customerData: CustomerData,
    prediction: string,
    probability: real,
    shapValues: seq<ShapValue>,
    userId: Option<string>)

  datatype DashboardStats = DashboardStats(
    totalPredictions: int,
    churnRate: real,
    avgProbability: real,
    highRiskCustomers: int,
    predictionAccuracy: real,
    precision: real,
    recall: real,
    f1Score: real,
    auc: real)

  datatype HistoryFilters = HistoryFilters(
    startDate: Option<string>,
    endDate: Option<string>,
    prediction: Option<string>,
    minProbability: Option<real>,
    maxProbability: Option<real>,
    sortBy: string,
    sortOrder: string,
    page: int,
    limit: int)

  /** The JSON envelope every backend route answers with. */
  datatype ApiResponse<T> = ApiResponse(
    success: bool,
    data: Option<T>,
    message: Option<string>,
    error: Option<string>)

  const ChurnLabel := "Churn"
  const NoChurnLabel := "No Churn"
}
