/**
 * The compliance-reporting dashboard
 * (app/dashboard/compliance-reporting/page.tsx): a table of reports narrowed
 * by three optional equality filters, with badge variants chosen from a
 * report's status or a mineral's supply risk and a coloured bar chosen by
 * banding the impact score.
 */
module ComplianceReporting {

  datatype Report = Report(id: string, name: string, agency: string, date: string, status: string,
                           mineral: string, impactScore: int, dualUse: bool)

  datatype Filters = Filters(agency: string, status: string, mineral: string)

  datatype FilterKey = AgencyKey | StatusKey | MineralKey

  /** The badge variants of the component library. */
  datatype Variant = Default | Secondary | Destructive | Outline

  /** The impact bar's colour class. */
  datatype Band = Green | Yellow | Red

  const Reports: seq<Report> := [
    Report("R001", "Q1 Critical Minerals Report", "ISED", "2024-03-15", "Submitted", "Lithium", 85, false),
    Report("R002", "Annual Environmental Impact", "Environment Canada", "2024-01-30", "Approved", "Carbon (Sequestration)", 92, false),
    Report("R003", "Q1 NRC Innovation Update", "NRC", "2024-04-01", "Draft", "Graphene", 78, false),
    Report("R004", "Export Control Assessment (CNT)", "Global Affairs", "2024-02-20", "Flagged", "Carbon Nanotubes", 60, true)
  ]

  const NoFilters := Filters("", "", "")

  /** The value every "All …" option of the three menus stores. */
  const AllOption := "all"

  // -----------------------------------------------------------------------
  // Filtering

  /** Each non-empty filter must equal the report's field. */
  predicate Selected(r: Report, f: Filters)
  {
    && (f.agency != "" ==> r.agency == f.agency)
    && (f.status != "" ==> r.status == f.status)
    && (f.mineral != "" ==> r.mineral == f.mineral)
  }

  /** `filteredReports`. */
  function FilteredReports(rs: seq<Report>, f: Filters): (r: seq<Report>)
    ensures |r| <= |rs|
  {
    if rs == [] then []
    else if Selected(rs[0], f) then [rs[0]] + FilteredReports(rs[1..], f)
    else FilteredReports(rs[1..], f)
  }

  function SetFilter(f: Filters, key: FilterKey, value: string): Filters
  {
    match key
    case AgencyKey => f.(agency := value)
    case StatusKey => f.(status := value)
    case MineralKey => f.(mineral := value)
  }

  function Field(f: Filters, key: FilterKey): string
  {
    match key
    case AgencyKey => f.agency
    case StatusKey => f.status
    case MineralKey => f.mineral
  }

  // -----------------------------------------------------------------------
  // Badges and bands

  function StatusVariant(status: string): Variant
  {
    if status == "Approved" then Default
    else if status == "Submitted" then Secondary
    else if status == "Flagged" then Destructive
    else Outline
  }

  function RiskVariant(risk: string): Variant
  {
    if risk == "High" then Destructive
    else if risk == "Medium" then Secondary
    else Default
  }

  function ImpactBand(score: int): Band
  {
    if score > 80 then Green
    else if score > 60 then Yellow
    else Red
  }

  /** Bands ordered from worst to best. */
  function BandRank(b: Band): nat
  {
    match b
    case Red => 0
    case Yellow => 1
    case Green => 2
  }

  // -----------------------------------------------------------------------
  // Page state

  class CompliancePage {
    var filters: Filters
    var activeTab: string

    constructor()
      ensures filters == NoFilters && activeTab == "reports"
    {
      filters := NoFilters;
      activeTab := "reports";
    }

    /** The rows on screen. */
    function Shown(): seq<Report>
      reads this
    {
      FilteredReports(Reports, filters)
    }

    /** `handleFilterChange(key, value)`: the named filter takes the value; the other two keep theirs. */
    method HandleFilterChange(key: FilterKey, value: string)
      modifies this
      ensures filters == SetFilter(old(filters), key, value)
      ensures Field(filters, key) == value
      ensures forall k :: k != key ==> Field(filters, k) == Field(old(filters), k)
      ensures activeTab == old(activeTab)
    {
      filters := SetFilter(filters, key, value);
    }

    /** The Clear button: every filter empty again, so every report is shown. */
    method Clear()
      modifies this
      ensures filters == NoFilters
      ensures Shown() == Reports
      ensures activeTab == old(activeTab)
    {
      filters := NoFilters;
      NoFiltersShowAll(Reports);
    }

    method SetActiveTab(tab: string)
      modifies this
      ensures activeTab == tab && filters == old(filters)
    {
      activeTab := tab;
    }
  }

  // -----------------------------------------------------------------------
  // Lemmas

  /** A report is shown exactly when it is in the list and every non-empty filter equals its field. */
  lemma {:induction false} FilteredIff(rs: seq<Report>, f: Filters, r: Report)
    ensures r in FilteredReports(rs, f) <==> r in rs && Selected(r, f)
  {
    if rs != [] {
      FilteredIff(rs[1..], f, r);
      assert rs == [rs[0]] + rs[1..];
    }
  }

  /** `a` can be obtained from `b` by deleting entries. */
  predicate IsSubsequence(a: seq<Report>, b: seq<Report>)
    decreases |b|
  {
    if b == [] then a == []
    else (a != [] && a[0] == b[0] && IsSubsequence(a[1..], b[1..])) || IsSubsequence(a, b[1..])
  }

  /** The shown rows keep the list's order. */
  lemma {:induction false} FilteredKeepsOrder(rs: seq<Report>, f: Filters)
    ensures IsSubsequence(FilteredReports(rs, f), rs)
  {
    if rs != [] {
      FilteredKeepsOrder(rs[1..], f);
      var rest := FilteredReports(rs[1..], f);
      if Selected(rs[0], f) {
        assert ([rs[0]] + rest)[1..] == rest;
      }
    }
  }

  /** With every filter empty, initially or after Clear, the whole list is shown. */
  lemma {:induction false} NoFiltersShowAll(rs: seq<Report>)
    ensures FilteredReports(rs, NoFilters) == rs
  {
    if rs != [] {
      NoFiltersShowAll(rs[1..]);
      assert rs == [rs[0]] + rs[1..];
    }
  }

  lemma {:induction false} NoneSelected(rs: seq<Report>, f: Filters)
    requires forall r | r in rs :: !Selected(r, f)
    ensures FilteredReports(rs, f) == []
  {
    if rs != [] {
      assert rs[0] in rs;
      NoneSelected(rs[1..], f);
    }
  }

  /**
   * An "All …" option stores "all", which is no report's agency, status or
   * mineral: choosing one empties the table, whatever the other filters say.
   */
  lemma AllOptionEmptiesTable(f: Filters, key: FilterKey)
    requires Field(f, key) == AllOption
    ensures FilteredReports(Reports, f) == []
  {
    forall r | r in Reports
      ensures !Selected(r, f)
    {
      assert r.agency != AllOption by { assert |r.agency| != 3 || r.agency[0] == 'N'; }
      assert |r.status| != 3 && |r.mineral| != 3;
    }
    NoneSelected(Reports, f);
  }

  /** Filtering on "Flagged" shows exactly the dual-use export assessment. */
  lemma FlaggedShowsDualUse()
    ensures FilteredReports(Reports, NoFilters.(status := "Flagged")) == [Reports[3]]
    ensures Reports[3].dualUse
  {
    var rs := Reports;
    assert rs[1..][1..][1..][1..] == [];
  }

  /** Each status badge variant belongs to exactly one status, except the catch-all outline. */
  lemma StatusVariantIff(status: string)
    ensures StatusVariant(status) == Default <==> status == "Approved"
    ensures StatusVariant(status) == Secondary <==> status == "Submitted"
    ensures StatusVariant(status) == Destructive <==> status == "Flagged"
    ensures StatusVariant(status) == Outline <==> status !in {"Approved", "Submitted", "Flagged"}
  {
  }

  /** High risk is destructive, medium secondary, and anything else default. */
  lemma RiskVariantIff(risk: string)
    ensures RiskVariant(risk) == Destructive <==> risk == "High"
    ensures RiskVariant(risk) == Secondary <==> risk == "Medium"
    ensures RiskVariant(risk) == Default <==> risk != "High" && risk != "Medium"
    ensures RiskVariant(risk) != Outline
  {
  }

  /** The bands: above 80 green, 61 to 80 yellow, 60 and below red; so 80 is yellow and 60 is red. */
  lemma ImpactBandIff(score: int)
    ensures ImpactBand(score) == Green <==> score > 80
    ensures ImpactBand(score) == Yellow <==> 60 < score <= 80
    ensures ImpactBand(score) == Red <==> score <= 60
    ensures ImpactBand(80) == Yellow && ImpactBand(60) == Red && ImpactBand(81) == Green && ImpactBand(61) == Yellow
  {
  }

  /** A higher score never gets a worse band. */
  lemma ImpactBandMonotone(a: int, b: int)
    requires a <= b
    ensures BandRank(ImpactBand(a)) <= BandRank(ImpactBand(b))
  {
  }
}
