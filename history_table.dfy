/** The prediction-history table (project/src/components/history/HistoryTable.tsx):
    filter changes, the search box, the pager and the CSV export. */
module HistoryTable {
  import opened Common
  import opened Domain
  import Backend

  // ---------------------------------------------------------------------------
  // Filter changes

  /** `handleFilterChange(key, value)`: one field of the filters and its new value. */
  datatype FilterUpdate =
    | SetStartDate(startDate: Option<string>)
    | SetEndDate(endDate: Option<string>)
    | SetPrediction(prediction: Option<string>)
    | SetMinProbability(minProbability: Option<real>)
    | SetMaxProbability(maxProbability: Option<real>)
    | SetSortBy(sortBy: string)
    | SetSortOrder(sortOrder: string)
    | SetPage(page: int)
    | SetLimit(limit: int)

  /** `{...filters, [key]: value}` */
  function Apply(f: HistoryFilters, u: FilterUpdate): HistoryFilters {
    match u
    case SetStartDate(v) => f.(startDate := v)
    case SetEndDate(v) => f.(endDate := v)
    case SetPrediction(v) => f.(prediction := v)
    case SetMinProbability(v) => f.(minProbability := v)
    case SetMaxProbability(v) => f.(maxProbability := v)
    case SetSortBy(v) => f.(sortBy := v)
    case SetSortOrder(v) => f.(sortOrder := v)
    case SetPage(v) => f.(page := v)
    case SetLimit(v) => f.(limit := v)
  }

  /** The change sets the named field, keeps every other field, and goes back
      to the first page (`page: 1` is written after `[key]: value`). */
  function HandleFilterChange(f: HistoryFilters, u: FilterUpdate): (r: HistoryFilters)
    ensures r.page == 1
    ensures r.startDate == (if u.SetStartDate? then u.startDate else f.startDate)
    ensures r.endDate == (if u.SetEndDate? then u.endDate else f.endDate)
    ensures r.prediction == (if u.SetPrediction? then u.prediction else f.prediction)
    ensures r.minProbability == (if u.SetMinProbability? then u.minProbability else f.minProbability)
    ensures r.maxProbability == (if u.SetMaxProbability? then u.maxProbability else f.maxProbability)
    ensures r.sortBy == (if u.SetSortBy? then u.sortBy else f.sortBy)
    ensures r.sortOrder == (if u.SetSortOrder? then u.sortOrder else f.sortOrder)
    ensures r.limit == (if u.SetLimit? then u.limit else f.limit)
  {
    Apply(f, u).(page := 1)
  }

  /** The Previous button as written: a page change routed through
      `HandleFilterChange`. */
  function PreviousAsWritten(f: HistoryFilters): HistoryFilters {
    HandleFilterChange(f, SetPage(if f.page - 1 > 1 then f.page - 1 else 1))
  }

  /** The Next button as written. */
  function NextAsWritten(f: HistoryFilters): HistoryFilters {
    HandleFilterChange(f, SetPage(f.page + 1))
  }

  /** As written, Next never advances: from any page it lands on page 1, and
      on page 3 it even goes back two pages. */
  lemma NextAsWrittenStuck(f: HistoryFilters)
    ensures NextAsWritten(f).page == 1
    ensures NextAsWritten(f).page != f.page + 1 || f.page == 0
    ensures f.page == 3 ==> NextAsWritten(f).page < f.page
  {
  }

  /** The intended handler: a page change keeps its page, every other change
      goes back to page 1 (`{...filters, page: 1, [key]: value}`). */
  function FilterChange(f: HistoryFilters, u: FilterUpdate): (r: HistoryFilters)
    ensures u.SetPage? ==> r == f.(page := u.page)
    ensures !u.SetPage? ==> r == HandleFilterChange(f, u)
  {
    if u.SetPage? then Apply(f, u) else Apply(f, u).(page := 1)
  }

  function Previous(f: HistoryFilters): HistoryFilters {
    FilterChange(f, SetPage(if f.page - 1 > 1 then f.page - 1 else 1))
  }

  function Next(f: HistoryFilters): HistoryFilters {
    FilterChange(f, SetPage(f.page + 1))
  }

  /** With the intended handler the buttons move one page and change nothing
      else; Previous stops at page 1, and Previous undoes Next. */
  lemma PagerButtonsMove(f: HistoryFilters)
    ensures Next(f) == f.(page := f.page + 1)
    ensures f.page > 1 ==> Previous(f) == f.(page := f.page - 1)
    ensures f.page <= 1 ==> Previous(f).page == 1
    ensures f.page >= 1 ==> Previous(Next(f)) == f
  {
  }

  /** `e.target.value === 'All' ? undefined : e.target.value` */
  function SelectedPrediction(value: string): (p: Option<string>)
    ensures p.None? <==> value == "All"
    ensures p.Some? ==> p.value == value
  {
    if value == "All" then None else Some(value)
  }

  /** `filters.prediction || 'All'`, what the select shows. */
  function ShownPrediction(p: Option<string>): string {
    if Truthy(p) then p.value else "All"
  }

  /** The select shows again what was chosen. */
  lemma PredictionSelectRoundTrip(value: string)
    requires value != ""
    ensures ShownPrediction(SelectedPrediction(value)) == value
  {
  }

  // ---------------------------------------------------------------------------
  // Search

  predicate Matches(p: ChurnPrediction, term: string) {
    || term == ""
    || Contains(Lower(p.prediction), Lower(term))
    || Contains(Lower(p.customerData.contract), Lower(term))
  }

  /** `predictions.filter(...)` on the search term. */
  function Search(predictions: seq<ChurnPrediction>, term: string): (r: seq<ChurnPrediction>)
    ensures |r| <= |predictions|
    ensures forall p :: p in r <==> p in predictions && Matches(p, term)
  {
    if predictions == [] then []
    else (if Matches(predictions[0], term) then [predictions[0]] else []) + Search(predictions[1..], term)
  }

  /** An empty term keeps every row, in order. */
  lemma {:induction false} SearchEmptyKeepsAll(predictions: seq<ChurnPrediction>)
    ensures Search(predictions, "") == predictions
  {
    if predictions != [] {
      SearchEmptyKeepsAll(predictions[1..]);
    }
  }

  lemma LowerIdempotent(s: string)
    ensures Lower(Lower(s)) == Lower(s)
  {
  }

  /** The case of the term does not matter. */
  lemma {:induction false} SearchIgnoresCase(predictions: seq<ChurnPrediction>, term: string)
    ensures Search(predictions, Lower(term)) == Search(predictions, term)
  {
    LowerIdempotent(term);
    if predictions != [] {
      SearchIgnoresCase(predictions[1..], term);
    }
  }

  // ---------------------------------------------------------------------------
  // Pager

  predicate PagerShown(total: int, limit: int) {
    total > limit
  }

  /** "Showing {first} to {last} of {total} results" */
  function RangeFirst(f: HistoryFilters): int {
    (f.page - 1) * f.limit + 1
  }

  function RangeLast(f: HistoryFilters, total: int): int {
    if f.page * f.limit < total then f.page * f.limit else total
  }

  predicate PreviousDisabled(f: HistoryFilters) {
    f.page <= 1
  }

  predicate NextDisabled(f: HistoryFilters, total: int) {
    f.page * f.limit >= total
  }

  /** The pager agrees with the page the backend returns: the range counts
      exactly the rows of the requested page, Next is enabled exactly when a
      further page has rows, and the pager shows exactly when there is a
      second page. */
  lemma PagerMatchesBackend<T>(s: seq<T>, f: HistoryFilters)
    requires f.page >= 1 && f.limit > 0
    requires RangeFirst(f) <= |s|
    ensures RangeLast(f, |s|) - RangeFirst(f) + 1 == |Backend.PageOf(s, (f.page - 1) * f.limit, f.limit)|
    ensures !NextDisabled(f, |s|) <==> |Backend.PageOf(s, f.page * f.limit, f.limit)| > 0
    ensures PreviousDisabled(f) <==> f.page == 1
    ensures PagerShown(|s|, f.limit) <==> |Backend.PageOf(s, f.limit, f.limit)| > 0
  {
    var skip := (f.page - 1) * f.limit;
    assert f.page * f.limit == skip + f.limit;
    assert 0 <= skip < |s|;
  }

  // ---------------------------------------------------------------------------
  // CSV export

  const Header: seq<string> := ["Timestamp", "Prediction", "Probability", "Tenure", "Monthly Charges", "Contract"]

  /** How a row prints its cells: `toLocaleDateString` of the timestamp,
      `toFixed(3)` of the probability and `String` of the charges. */
  datatype CellFormat = CellFormat(date: string -> string, fixed3: real -> string, number: real -> string)

  function Row(p: ChurnPrediction, fmt: CellFormat): (r: seq<string>)
    ensures |r| == |Header|
  {
    [fmt.date(p.timestamp), p.prediction, fmt.fixed3(p.probability),
     IntText(p.customerData.tenure), fmt.number(p.customerData.monthlyCharges), p.customerData.contract]
  }

  /** The header row followed by one row per prediction, in order. */
  function Table(predictions: seq<ChurnPrediction>, fmt: CellFormat): (t: seq<seq<string>>)
    ensures |t| == |predictions| + 1 && t[0] == Header
    ensures forall i :: 0 <= i < |predictions| ==> t[i + 1] == Row(predictions[i], fmt)
  {
    [Header] + seq(|predictions|, i requires 0 <= i < |predictions| => Row(predictions[i], fmt))
  }

  function Lines(t: seq<seq<string>>): (lines: seq<string>)
    ensures |lines| == |t|
    ensures forall i :: 0 <= i < |t| ==> lines[i] == Join(t[i], ',')
  {
    seq(|t|, i requires 0 <= i < |t| => Join(t[i], ','))
  }

  /** `csvContent.map(row => row.join(',')).join('\n')` */
  function Csv(predictions: seq<ChurnPrediction>, fmt: CellFormat): string {
    Join(Lines(Table(predictions, fmt)), '\n')
  }

  predicate PlainCell(cell: string) {
    ',' !in cell && '\n' !in cell
  }

  lemma {:induction false} JoinAvoids(xs: seq<string>, sep: char, c: char)
    requires c != sep
    requires forall k :: 0 <= k < |xs| ==> c !in xs[k]
    ensures c !in Join(xs, sep)
  {
    if |xs| > 1 {
      JoinAvoids(xs[1..], sep, c);
    }
  }

  /** Splitting the joined table on line breaks, then each line on commas,
      gives the table back when no cell holds either separator. */
  lemma TableRoundTrip(t: seq<seq<string>>)
    requires |t| >= 1
    requires forall i :: 0 <= i < |t| ==> |t[i]| >= 1 && forall j :: 0 <= j < |t[i]| ==> PlainCell(t[i][j])
    ensures var lines := Split(Join(Lines(t), '\n'), '\n');
      && |lines| == |t|
      && forall i :: 0 <= i < |t| ==> Split(lines[i], ',') == t[i]
  {
    var ls := Lines(t);
    forall i | 0 <= i < |ls| ensures '\n' !in ls[i] {
      JoinAvoids(t[i], ',', '\n');
    }
    SplitJoin(ls, '\n');
    forall i | 0 <= i < |t| ensures Split(ls[i], ',') == t[i] {
      SplitJoin(t[i], ',');
    }
  }

  /** Nothing is escaped: when no cell holds a comma or a line break, reading
      the file back line by line and cell by cell gives the header and then
      each prediction's row, in order. */
  lemma CsvRoundTrip(predictions: seq<ChurnPrediction>, fmt: CellFormat)
    requires forall p :: p in predictions ==> forall j :: 0 <= j < |Header| ==> PlainCell(Row(p, fmt)[j])
    ensures var lines := Split(Csv(predictions, fmt), '\n');
      && |lines| == |predictions| + 1
      && Split(lines[0], ',') == Header
      && forall i :: 0 <= i < |predictions| ==> Split(lines[i + 1], ',') == Row(predictions[i], fmt)
  {
    var t := Table(predictions, fmt);
    forall i | 0 <= i < |t| ensures |t[i]| >= 1 && forall j :: 0 <= j < |t[i]| ==> PlainCell(t[i][j]) {
      if i > 0 {
        assert predictions[i - 1] in predictions;
      } else {
        assert forall j :: 0 <= j < |Header| ==> PlainCell(Header[j]);
      }
    }
    TableRoundTrip(t);
  }
}
