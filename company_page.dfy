/** The company page's state: the collapsible balance-sheet sections, the report chosen by
    period, and what loading the page's data sets. */
module CompanyPage {
  import opened Common
  import Search

  /** `expandedSections`: section name to whether it is open. */
  type Sections = map<string, bool>

  /** One balance-sheet report: field name to amount. */
  type Report = map<string, real>

  /** `expandedSections[s]` read as a condition: an absent key is undefined, hence closed. */
  predicate Expanded(m: Sections, s: string)
  {
    s in m && m[s]
  }

  /** The sections as the page opens: all three open. */
  function InitialSections(): (m: Sections)
    ensures m.Keys == {"assets", "liabilities", "equity"}
    ensures forall s :: s in m ==> m[s]
  {
    map["assets" := true, "liabilities" := true, "equity" := true]
  }

  /** `{...prev, [section]: !prev[section]}`. */
  function Toggle(m: Sections, section: string): (r: Sections)
    ensures r.Keys == m.Keys + {section}
  {
    m[section := !Expanded(m, section)]
  }

  /** Toggling flips the one section, to open when it was absent, and keeps every other key. */
  lemma ToggleSpec(m: Sections, section: string)
    ensures Toggle(m, section).Keys == m.Keys + {section}
    ensures Expanded(Toggle(m, section), section) == !Expanded(m, section)
    ensures forall k :: k in m && k != section ==> Toggle(m, section)[k] == m[k]
  {
  }

  /** Toggling a present section twice gives back the map. */
  lemma ToggleTwice(m: Sections, section: string)
    requires section in m
    ensures Toggle(Toggle(m, section), section) == m
  {
    var t := Toggle(Toggle(m, section), section);
    assert t.Keys == m.Keys;
    forall k | k in m ensures t[k] == m[k] {
    }
  }

  /** Toggling any section twice gives back which sections are open, though an absent
      section is left behind as a closed key. */
  lemma ToggleTwiceKeepsOpenSections(m: Sections, section: string)
    ensures forall k :: Expanded(Toggle(Toggle(m, section), section), k) == Expanded(m, k)
    ensures section !in m ==> Toggle(Toggle(m, section), section) == m[section := false]
  {
  }

  /** `balanceSheetData[selectedPeriod] || {}`. */
  function CurrentReport(reports: seq<Report>, selectedPeriod: int): (r: Report)
    ensures 0 <= selectedPeriod < |reports| ==> r == reports[selectedPeriod]
    ensures !(0 <= selectedPeriod < |reports|) ==> r == map[]
  {
    if 0 <= selectedPeriod < |reports| then reports[selectedPeriod] else map[]
  }

  /** The page's state fields. */
  class CompanyView {
    var loading: bool
    var companyData: Option<Search.SearchResult>
    var balanceSheetData: seq<Report>
    var selectedPeriod: int
    var expandedSections: Sections

    constructor ()
      ensures loading && companyData == None && balanceSheetData == [] && selectedPeriod == 0
      ensures expandedSections == InitialSections()
    {
      loading := true;
      companyData := None;
      balanceSheetData := [];
      selectedPeriod := 0;
      expandedSections := InitialSections();
    }

    /** `fetchData`: the company handed over by navigation, if any, is taken first; the
        reports replace the old ones only when the request succeeds (`response` is `None`
        when it throws); loading ends either way. */
    method FetchData(navState: Option<Search.SearchResult>, response: Option<seq<Report>>)
      modifies this
      ensures companyData == if navState.Some? then navState else old(companyData)
      ensures balanceSheetData == if response.Some? then response.value else old(balanceSheetData)
      ensures !loading
      ensures selectedPeriod == old(selectedPeriod) && expandedSections == old(expandedSections)
    {
      if navState.Some? {
        companyData := navState;
      }
      if response.Some? {
        balanceSheetData := response.value;
      }
      loading := false;
    }

    method ToggleSection(section: string)
      modifies this
      ensures expandedSections == Toggle(old(expandedSections), section)
      ensures loading == old(loading) && companyData == old(companyData)
      ensures balanceSheetData == old(balanceSheetData) && selectedPeriod == old(selectedPeriod)
    {
      expandedSections := Toggle(expandedSections, section);
    }

    /** The period selector's `onChange`. */
    method SelectPeriod(index: int)
      modifies this
      ensures selectedPeriod == index
      ensures loading == old(loading) && companyData == old(companyData)
      ensures balanceSheetData == old(balanceSheetData) && expandedSections == old(expandedSections)
    {
      selectedPeriod := index;
    }

    /** `currentReport`, as rendered once loading has ended. */
    function Current(): (r: Report)
      reads this
      ensures 0 <= selectedPeriod < |balanceSheetData| ==> r == balanceSheetData[selectedPeriod]
      ensures !(0 <= selectedPeriod < |balanceSheetData|) ==> r == map[]
    {
      CurrentReport(balanceSheetData, selectedPeriod)
    }
  }

  /** A freshly opened page shows the first report the request returned, or the empty
      report when it returned none or failed; the company comes from the navigation. */
  method OpenPage(navState: Option<Search.SearchResult>, response: Option<seq<Report>>)
    returns (company: Option<Search.SearchResult>, shown: Report, loading: bool)
    ensures company == navState
    ensures shown == if response.Some? && response.value != [] then response.value[0] else map[]
    ensures !loading
  {
    var page := new CompanyView();
    page.FetchData(navState, response);
    company, shown, loading := page.companyData, page.Current(), page.loading;
  }

  /** The effect runs again when the symbol changes without remounting the page; a request
      that fails then leaves the previous company's reports on show, and the selected period
      is not reset. */
  method RefetchAfterFailure(first: seq<Report>, company: Search.SearchResult, period: int)
    returns (shown: Report)
    ensures shown == CurrentReport(first, period)
  {
    var page := new CompanyView();
    page.FetchData(None, Some(first));
    page.SelectPeriod(period);
    page.FetchData(Some(company), None);
    shown := page.Current();
  }
}
