/** The report list: four built-in reports followed by any passed in, a
    case-insensitive search over name and type, and a View button that
    either opens the sample image or asks the parent to show the report. */
module ReportsList {
  import opened Common
  import opened Text

  datatype ReportStatus = New | Viewed

  datatype PatientInfo = PatientInfo(name: string, gender: string, dob: string, record: string)

  datatype Report = Report(
    id: string, name: string, reportType: string, date: string,
    status: ReportStatus, patient: PatientInfo)

  /** The four built-in reports. */
  const MockReports: seq<Report> := [
    Report("1", "Blood Test Results", "Blood Test", "2024-01-15", New,
           PatientInfo("Sabrina Welder", "F", "April 8, 1993", "00-991-23")),
    Report("2", "Chest X-Ray", "X-Ray", "2024-01-10", Viewed,
           PatientInfo("John Doe", "M", "May 12, 1987", "01-234-56")),
    Report("3", "MRI Brain Scan", "MRI", "2024-01-05", Viewed,
           PatientInfo("Priya Singh", "F", "Nov 22, 1990", "02-345-67")),
    Report("4", "ECG Report", "ECG", "2024-01-01", Viewed,
           PatientInfo("Alex Kim", "M", "Feb 3, 1975", "03-456-78"))
  ]

  /** The list the screen works on: the built-in reports, then the
      `reports` argument, which is empty when the caller passes none. */
  function AllReports(reports: seq<Report>): (r: seq<Report>)
    ensures |r| == |MockReports| + |reports|
    ensures r[..|MockReports|] == MockReports && r[|MockReports|..] == reports
  {
    MockReports + reports
  }

  /** `filteredReports`: the name or the type includes the query, ignoring
      case. */
  predicate MatchesQuery(r: Report, query: string) {
    IncludesIgnoringCase(r.name, query) || IncludesIgnoringCase(r.reportType, query)
  }

  function FilteredReports(all: seq<Report>, query: string): (r: seq<Report>)
    ensures forall x :: x in r <==> x in all && MatchesQuery(x, query)
    ensures IsSubsequence(r, all)
    ensures forall x {:trigger multiset(r)[x]} :: multiset(r)[x] == if MatchesQuery(x, query) then multiset(all)[x] else 0
  {
    Filter(all, (x: Report) => MatchesQuery(x, query))
  }

  /** An empty search shows every report. */
  lemma EmptyQueryShowsAll(all: seq<Report>)
    ensures FilteredReports(all, "") == all
  {
    assert Lower("") == "";
    forall x | x in all
      ensures MatchesQuery(x, "")
    {
      ContainsEmpty(Lower(x.name));
    }
    FilterKeepsAll(all, (x: Report) => MatchesQuery(x, ""));
  }

  /** Search results keep the built-in reports ahead of the passed-in ones. */
  lemma BuiltInsFirst(reports: seq<Report>, query: string)
    ensures FilteredReports(AllReports(reports), query)
            == FilteredReports(MockReports, query) + FilteredReports(reports, query)
  {
    FilterAppend(MockReports, reports, (x: Report) => MatchesQuery(x, query));
  }

  /** What the View button does. */
  datatype ViewOutcome = OpenImageModal | ViewReport(reportId: string)

  /** Report "1" opens the sample image and never reaches the parent; any
      other report is handed to `onViewReport` by its id. */
  function ViewButton(r: Report): (o: ViewOutcome)
    ensures o == OpenImageModal <==> r.id == "1"
    ensures o.ViewReport? ==> o.reportId == r.id
  {
    if r.id == "1" then OpenImageModal else ViewReport(r.id)
  }

  /** The screen. */
  class ReportsList {
    const reports: seq<Report>
    var searchQuery: string
    var showImageModal: bool

    constructor (reports: seq<Report>)
      ensures this.reports == reports && searchQuery == "" && !showImageModal
      ensures Shown() == AllReports(reports)
    {
      this.reports := reports;
      searchQuery, showImageModal := "", false;
      EmptyQueryShowsAll(AllReports(reports));
    }

    /** The reports listed. */
    function Shown(): (r: seq<Report>)
      reads this
      ensures r == FilteredReports(AllReports(reports), searchQuery)
      ensures forall x :: x in r <==> x in AllReports(reports) && MatchesQuery(x, searchQuery)
    {
      FilteredReports(AllReports(reports), searchQuery)
    }

    /** The search box, typed or dictated. */
    method SetSearchQuery(query: string)
      modifies this
      ensures searchQuery == query && showImageModal == old(showImageModal)
    {
      searchQuery := query;
    }

    /** The View button of a listed report. */
    method View(r: Report) returns (o: ViewOutcome)
      requires r in Shown()
      modifies this
      ensures o == ViewButton(r)
      ensures showImageModal == (old(showImageModal) || r.id == "1")
      ensures searchQuery == old(searchQuery)
    {
      if r.id == "1" {
        showImageModal := true;
        o := OpenImageModal;
      } else {
        o := ViewReport(r.id);
      }
    }

    /** The modal's close button. */
    method CloseModal()
      modifies this
      ensures !showImageModal && searchQuery == old(searchQuery)
    {
      showImageModal := false;
    }
  }
}
