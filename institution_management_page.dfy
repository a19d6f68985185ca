/**
 * The administrator's institution list: a name search over the fetched
 * institutions, page and page-size selection, the window of the filtered list the
 * table receives, and the create-or-edit modal.
 */
module InstitutionManagementPage {
  import opened JsText
  import opened Table

  /** An institution row; only the fields the page's logic reads. */
  datatype Institution = Institution(id: string, name: string)

  /** The request the save handler makes before refetching the list. */
  datatype SaveCall = UpdateInstitution(id: string) | CreateInstitution

  function NameMatches(query: string): Institution -> bool {
    (x: Institution) => Matches(x.name, query)
  }

  /** The institutions a search keeps: exactly those whose name contains the query, ignoring case, in order. */
  function SearchByName(all: seq<Institution>, query: string): (r: seq<Institution>)
    ensures forall x :: x in r <==> x in all && Matches(x.name, query)
    ensures IsSubsequence(r, all)
  {
    FilterMeaning(all, NameMatches(query));
    Filter(all, NameMatches(query))
  }

  /** The empty query shows every institution. */
  lemma SearchEmptyShowsAll(all: seq<Institution>)
    ensures SearchByName(all, "") == all
  {
    forall i | 0 <= i < |all|
      ensures NameMatches("")(all[i])
    {
      MatchesEmpty(all[i].name);
    }
    FilterKeepsAll(all, NameMatches(""));
  }

  /** The search ignores the case of the query. */
  lemma SearchIgnoresCase(all: seq<Institution>, query: string)
    ensures SearchByName(all, Lower(query)) == SearchByName(all, query)
  {
    forall i | 0 <= i < |all|
      ensures NameMatches(Lower(query))(all[i]) == NameMatches(query)(all[i])
    {
      MatchesIgnoresCase(all[i].name, query);
    }
    FilterSameTest(all, NameMatches(Lower(query)), NameMatches(query));
  }

  class Page {
    var institutions: seq<Institution>
    var filteredInstitutions: seq<Institution>
    var loading: bool
    var searchText: string
    var page: int
    var pageSize: int
    var isModalVisible: bool
    var selectedInstitution: Option<Institution>

    constructor ()
      ensures institutions == [] && filteredInstitutions == [] && !loading
      ensures searchText == "" && page == 1 && pageSize == 10
      ensures !isModalVisible && selectedInstitution == None
    {
      institutions, filteredInstitutions := [], [];
      loading := false;
      searchText := "";
      page, pageSize := 1, 10;
      isModalVisible := false;
      selectedInstitution := None;
    }

    /**
     * The initial fetch. `result` is the fetched list, or `None` when the request
     * failed; a failure leaves both lists as they were.
     */
    method FetchData(result: Option<seq<Institution>>)
      modifies this
      ensures result.Some? ==> institutions == result.value && filteredInstitutions == result.value
      ensures result.None? ==> institutions == old(institutions) && filteredInstitutions == old(filteredInstitutions)
      ensures !loading
      ensures searchText == old(searchText) && page == old(page) && pageSize == old(pageSize)
      ensures isModalVisible == old(isModalVisible) && selectedInstitution == old(selectedInstitution)
    {
      loading := true;
      if result.Some? {
        institutions := result.value;
        filteredInstitutions := result.value;
      }
      loading := false;
    }

    /** Search always starts from the full list, records the text and goes back to page 1. */
    method HandleSearch(value: string)
      modifies this
      ensures searchText == value && page == 1
      ensures filteredInstitutions == SearchByName(institutions, value)
      ensures institutions == old(institutions) && pageSize == old(pageSize) && loading == old(loading)
      ensures isModalVisible == old(isModalVisible) && selectedInstitution == old(selectedInstitution)
    {
      searchText := value;
      filteredInstitutions := SearchByName(institutions, value);
      page := 1;
    }

    method HandlePageChange(newPage: int, newPageSize: int)
      modifies this
      ensures page == newPage && pageSize == newPageSize
      ensures institutions == old(institutions) && filteredInstitutions == old(filteredInstitutions)
      ensures searchText == old(searchText) && loading == old(loading)
      ensures isModalVisible == old(isModalVisible) && selectedInstitution == old(selectedInstitution)
    {
      page := newPage;
      pageSize := newPageSize;
    }

    /** "Add Institution" opens the modal with nothing selected. */
    method OpenAdd()
      modifies this
      ensures isModalVisible && selectedInstitution == None
      ensures institutions == old(institutions) && filteredInstitutions == old(filteredInstitutions)
      ensures searchText == old(searchText) && page == old(page) && pageSize == old(pageSize) && loading == old(loading)
    {
      selectedInstitution := None;
      isModalVisible := true;
    }

    /** "Edit" opens the modal with the clicked row selected. */
    method OpenEdit(record: Institution)
      modifies this
      ensures isModalVisible && selectedInstitution == Some(record)
      ensures institutions == old(institutions) && filteredInstitutions == old(filteredInstitutions)
      ensures searchText == old(searchText) && page == old(page) && pageSize == old(pageSize) && loading == old(loading)
    {
      selectedInstitution := Some(record);
      isModalVisible := true;
    }

    /**
     * Save from the modal: update the selected institution, or create one when none
     * is selected, then refetch. `refetched` is the refetched list, or `None` when
     * the save or the refetch failed. On every path the modal closes and the
     * selection is cleared.
     */
    method HandleCreateOrEdit(refetched: Option<seq<Institution>>) returns (call: SaveCall)
      modifies this
      ensures old(selectedInstitution).Some? ==> call == UpdateInstitution(old(selectedInstitution).value.id)
      ensures old(selectedInstitution).None? ==> call == CreateInstitution
      ensures refetched.Some? ==> institutions == refetched.value && filteredInstitutions == refetched.value
      ensures refetched.None? ==> institutions == old(institutions) && filteredInstitutions == old(filteredInstitutions)
      ensures !isModalVisible && selectedInstitution == None && !loading
      ensures searchText == old(searchText) && page == old(page) && pageSize == old(pageSize)
    {
      loading := true;
      if selectedInstitution.Some? {
        call := UpdateInstitution(selectedInstitution.value.id);
      } else {
        call := CreateInstitution;
      }
      if refetched.Some? {
        institutions := refetched.value;
        filteredInstitutions := refetched.value;
      }
      loading := false;
      isModalVisible := false;
      selectedInstitution := None;
    }

    /** What the table receives: the current page's window of the filtered list. */
    function PaginatedData(): (r: seq<Institution>)
      reads this
      ensures page >= 1 && pageSize >= 1 ==> |r| <= pageSize
      ensures page >= 1 && pageSize >= 1 ==> forall i :: 0 <= i < |r| ==>
        0 <= SerialNumber(page, pageSize, i) - 1 < |filteredInstitutions| &&
        r[i] == filteredInstitutions[SerialNumber(page, pageSize, i) - 1]
    {
      WindowRows(filteredInstitutions, page, pageSize);
      Window(filteredInstitutions, page, pageSize)
    }

    /** The table's rows with their S/N. */
    function Rows(): (r: seq<Numbered<Institution>>)
      reads this
      ensures page >= 1 && pageSize >= 1 ==> |r| <= pageSize && NumberedByPosition(r, filteredInstitutions)
      ensures |r| == |PaginatedData()|
      ensures forall i :: 0 <= i < |r| ==> r[i].row == PaginatedData()[i]
    {
      PagedTableNumbering(filteredInstitutions, page, pageSize);
      PagedTable(filteredInstitutions, page, pageSize)
    }
  }

  /**
   * On a valid page the table shows at most `pageSize` institutions, each numbered
   * with its 1-based position in the filtered list, and the window is the contiguous
   * block of the filtered list that starts at `(page - 1) * pageSize`.
   */
  lemma ShownRows(p: Page)
    requires p.page >= 1 && p.pageSize >= 1
    ensures |p.PaginatedData()| <= p.pageSize
    ensures NumberedByPosition(p.Rows(), p.filteredInstitutions)
    ensures forall i :: 0 <= i < |p.Rows()| ==> p.Rows()[i].row == p.PaginatedData()[i]
    ensures p.PaginatedData() == p.filteredInstitutions[RelativeIndex((p.page - 1) * p.pageSize, |p.filteredInstitutions|)..][..|p.PaginatedData()|]
  {
    PagedTableNumbering(p.filteredInstitutions, p.page, p.pageSize);
    WindowRows(p.filteredInstitutions, p.page, p.pageSize);
  }
}
