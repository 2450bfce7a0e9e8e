/** The police dashboard's case logic: turning the report listing into cases,
    the search-and-status filter of the cases tab, the "recent" previews of
    the overview tab, and the status and priority style lookups. */
module Dashboard {
  import opened Common
  import opened Text

  /** The three states a case can be in. */
  datatype Status = Active | Found | Investigating

  datatype Priority = High | Medium | Low

  /** The only case type the dashboard knows. */
  datatype CaseType = Person

  /** The status dropdown of the cases tab: 'all' or one status. */
  datatype StatusFilter = All | Only(status: Status)

  datatype MissingCase = MissingCase(
    id: string,
    caseType: CaseType,
    name: string,
    reportedBy: string,
    location: string,
    time: string,
    status: Status,
    priority: Priority,
    description: string,
    photo: Option<string>)

  /** One element of the JSON array returned by the report listing, as far as the dashboard reads it. */
  datatype ReportJson = ReportJson(
    reportId: string,
    personName: string,
    reporterName: string,
    reporterRelation: string,
    lastSeenLocation: string,
    lastSeenTime: string,
    status: Status,
    description: string,
    photos: seq<string>)

  /** Where the backend serves uploaded files. */
  const UploadsUrl: string := "http://localhost:5050/uploads/"

  function StatusName(s: Status): string {
    match s
    case Active => "active"
    case Found => "found"
    case Investigating => "investigating"
  }

  function PriorityName(p: Priority): string {
    match p
    case High => "high"
    case Medium => "medium"
    case Low => "low"
  }

  // ---------------------------------------------------------------------------
  // Formatting the listing into cases

  /** The photo shown for a report: the first stored name under the uploads URL,
      or none when the list is empty or its first entry is the empty string (falsy). */
  function CasePhoto(photos: seq<string>): (p: Option<string>)
    ensures p.Some? <==> |photos| > 0 && photos[0] != ""
    ensures p.Some? ==> p.value == UploadsUrl + photos[0]
  {
    if |photos| > 0 && photos[0] != "" then Some(UploadsUrl + photos[0]) else None
  }

  /** "Name (Relation)", the reporter column of a case. */
  function ReportedBy(reporterName: string, reporterRelation: string): (r: string)
    ensures |r| == |reporterName| + |reporterRelation| + 3
    ensures reporterName <= r && r[|reporterName|..|reporterName| + 2] == " ("
    ensures r[|reporterName| + 2..|r| - 1] == reporterRelation && r[|r| - 1] == ')'
  {
    reporterName + " (" + reporterRelation + ")"
  }

  /** One report turned into a dashboard case; every case is high priority. */
  function FormatCase(r: ReportJson): (c: MissingCase)
    ensures c.id == r.reportId && c.name == r.personName && c.status == r.status
    ensures c.priority == High && c.caseType == Person
    ensures c.reportedBy == ReportedBy(r.reporterName, r.reporterRelation)
    ensures c.photo == CasePhoto(r.photos)
    ensures c.location == r.lastSeenLocation && c.time == r.lastSeenTime && c.description == r.description
  {
    MissingCase(
      r.reportId, Person, r.personName,
      ReportedBy(r.reporterName, r.reporterRelation),
      r.lastSeenLocation, r.lastSeenTime, r.status, High, r.description,
      CasePhoto(r.photos))
  }

  /** `data.map(...)`: one case per report, in listing order. */
  function FormatCases(data: seq<ReportJson>): (cases: seq<MissingCase>)
    ensures |cases| == |data|
    ensures forall i :: 0 <= i < |data| ==> cases[i] == FormatCase(data[i])
  {
    Map(data, FormatCase)
  }

  // ---------------------------------------------------------------------------
  // Search and status filter

  /** The search box: the lowered term occurs in the lowered name or the lowered id. */
  predicate MatchesSearch(c: MissingCase, term: string) {
    Contains(Lower(c.name), Lower(term)) || Contains(Lower(c.id), Lower(term))
  }

  predicate MatchesFilter(c: MissingCase, filter: StatusFilter) {
    filter.All? || c.status == filter.status
  }

  predicate Keep(c: MissingCase, term: string, filter: StatusFilter) {
    MatchesSearch(c, term) && MatchesFilter(c, filter)
  }

  /** The cases tab list. */
  function FilteredCases(cases: seq<MissingCase>, term: string, filter: StatusFilter): (r: seq<MissingCase>)
    ensures forall c :: c in r ==> c in cases && Keep(c, term, filter)
  {
    Filter(cases, c => Keep(c, term, filter))
  }

  /** A case is shown iff it is in the list and passes both tests; multiplicities are kept. */
  lemma FilteredCasesExactly(cases: seq<MissingCase>, term: string, filter: StatusFilter, c: MissingCase)
    ensures c in FilteredCases(cases, term, filter) <==> c in cases && Keep(c, term, filter)
    ensures multiset(FilteredCases(cases, term, filter))[c] ==
            if Keep(c, term, filter) then multiset(cases)[c] else 0
  {
    FilterMembership(cases, c => Keep(c, term, filter), c);
    FilterCount(cases, c => Keep(c, term, filter), c);
  }

  /** The shown cases keep the order they had in the list. */
  lemma FilteredCasesInOrder(cases: seq<MissingCase>, term: string, filter: StatusFilter)
    ensures IsSubsequence(FilteredCases(cases, term, filter), cases)
  {
    FilterIsSubsequence(cases, c => Keep(c, term, filter));
  }

  /** The initial state of the tab (empty search, 'all') shows every case. */
  lemma EmptySearchShowsAll(cases: seq<MissingCase>)
    ensures FilteredCases(cases, "", All) == cases
  {
    forall c | c in cases ensures Keep(c, "", All) {
      ContainsEmpty(Lower(c.name));
    }
    FilterAll(cases, c => Keep(c, "", All));
  }

  /** With a status selected, only cases of that status are shown. */
  lemma OnlyStatusShown(cases: seq<MissingCase>, term: string, s: Status)
    ensures forall c :: c in FilteredCases(cases, term, Only(s)) ==> c.status == s
  {
  }

  /** Applying the same search and filter to the result changes nothing. */
  lemma FilteredCasesIdempotent(cases: seq<MissingCase>, term: string, filter: StatusFilter)
    ensures FilteredCases(FilteredCases(cases, term, filter), term, filter) == FilteredCases(cases, term, filter)
  {
    FilterIdempotent(cases, c => Keep(c, term, filter));
  }

  /** The search ignores the case of the term. */
  lemma SearchIgnoresTermCase(cases: seq<MissingCase>, term: string, filter: StatusFilter)
    ensures FilteredCases(cases, Lower(term), filter) == FilteredCases(cases, term, filter)
  {
    LowerIdempotent(term);
    FilterCongruent(cases, c => Keep(c, Lower(term), filter), c => Keep(c, term, filter));
  }

  /** The search read on the report itself: person name or report id, and its status. */
  predicate KeepReport(r: ReportJson, term: string, filter: StatusFilter) {
    (Contains(Lower(r.personName), Lower(term)) || Contains(Lower(r.reportId), Lower(term)))
    && (filter.All? || r.status == filter.status)
  }

  lemma KeepFormatted(r: ReportJson, term: string, filter: StatusFilter)
    ensures Keep(FormatCase(r), term, filter) == KeepReport(r, term, filter)
  {
  }

  /** Searching the formatted listing is formatting the reports whose person name or id match. */
  lemma FilterFormattedListing(data: seq<ReportJson>, term: string, filter: StatusFilter)
    ensures FilteredCases(FormatCases(data), term, filter) ==
            FormatCases(Filter(data, r => KeepReport(r, term, filter)))
  {
    forall r ensures KeepReport(r, term, filter) == Keep(FormatCase(r), term, filter) {
      KeepFormatted(r, term, filter);
    }
    FilterMap(data, FormatCase, c => Keep(c, term, filter), r => KeepReport(r, term, filter));
  }

  // ---------------------------------------------------------------------------
  // Recent cases

  const RecentCount: nat := 3

  /** `xs.slice(0, 3)`: the first three entries, or all of them when there are fewer. */
  function Recent<T>(xs: seq<T>): (r: seq<T>)
    ensures |r| == Min(RecentCount, |xs|)
    ensures r <= xs
  {
    xs[..Min(RecentCount, |xs|)]
  }

  lemma RecentOfShort<T>(xs: seq<T>)
    requires |xs| <= RecentCount
    ensures Recent(xs) == xs
  {
  }

  // ---------------------------------------------------------------------------
  // Style lookups

  const ActiveStyle: string := "text-red-400 bg-red-500/20"
  const FoundStyle: string := "text-green-400 bg-green-500/20"
  const InvestigatingStyle: string := "text-yellow-400 bg-yellow-500/20"
  const DefaultStatusStyle: string := "text-gray-400 bg-gray-500/20"

  /** The badge style of a status string; anything but the three names gets the gray default. */
  function StatusColor(status: string): (style: string)
    ensures style == DefaultStatusStyle <==> status !in {"active", "found", "investigating"}
  {
    if status == "active" then ActiveStyle
    else if status == "found" then FoundStyle
    else if status == "investigating" then InvestigatingStyle
    else DefaultStatusStyle
  }

  /** The three statuses get three different styles, none of them the default. */
  lemma StatusColorsDistinct(a: Status, b: Status)
    ensures StatusColor(StatusName(a)) == StatusColor(StatusName(b)) <==> a == b
    ensures StatusColor(StatusName(a)) != DefaultStatusStyle
  {
  }

  const HighStyle: string := "text-red-400"
  const MediumStyle: string := "text-yellow-400"
  const LowStyle: string := "text-green-400"
  const DefaultPriorityStyle: string := "text-gray-400"

  function PriorityColor(priority: string): (style: string)
    ensures style == DefaultPriorityStyle <==> priority !in {"high", "medium", "low"}
  {
    if priority == "high" then HighStyle
    else if priority == "medium" then MediumStyle
    else if priority == "low" then LowStyle
    else DefaultPriorityStyle
  }

  lemma PriorityColorsDistinct(a: Priority, b: Priority)
    ensures PriorityColor(PriorityName(a)) == PriorityColor(PriorityName(b)) <==> a == b
    ensures PriorityColor(PriorityName(a)) != DefaultPriorityStyle
  {
  }
}
