/**
 * The asset list: an institution picker that defaults to the first institution,
 * the assets of the picked institution, a caption search, page selection and the
 * S/N column.
 */
module ListAssetsPage {
  import opened JsText
  import opened Table

  datatype InstitutionName = InstitutionName(id: string, name: string)

  datatype Asset = Asset(id: string, caption: string)

  /** What an asset fetch gave: it threw, or it returned a list or nothing (`undefined`). */
  datatype AssetFetch = FetchThrew | Returned(assets: Option<seq<Asset>>)

  function CaptionMatches(query: string): Asset -> bool {
    (a: Asset) => Matches(a.caption, query)
  }

  /** The assets a search keeps: exactly those whose caption contains the query, ignoring case, in order. */
  function SearchByCaption(assets: seq<Asset>, query: string): (r: seq<Asset>)
    ensures forall a :: a in r <==> a in assets && Matches(a.caption, query)
    ensures IsSubsequence(r, assets)
  {
    FilterMeaning(assets, CaptionMatches(query));
    Filter(assets, CaptionMatches(query))
  }

  /** `result || []` for a returned asset list. */
  function ListOrEmpty(result: Option<seq<Asset>>): (r: seq<Asset>)
    ensures result.Some? ==> r == result.value
    ensures result.None? ==> r == []
  {
    if result.Some? then result.value else []
  }

  class Page {
    var institutions: seq<InstitutionName>
    var selectedInstitutionId: Option<string>
    var assets: seq<Asset>
    var filteredAssets: seq<Asset>
    var loading: bool
    var searchText: string
    var page: int
    var pageSize: int

    constructor ()
      ensures institutions == [] && selectedInstitutionId == None
      ensures assets == [] && filteredAssets == [] && !loading
      ensures searchText == "" && page == 1 && pageSize == 10
    {
      institutions := [];
      selectedInstitutionId := None;
      assets, filteredAssets := [], [];
      loading := false;
      searchText := "";
      page, pageSize := 1, 10;
    }

    /**
     * The institution-name fetch. A non-empty list selects its first institution;
     * an empty list, or a failed request (`None`), leaves the selection as it was.
     */
    method FetchInstitutions(result: Option<seq<InstitutionName>>)
      modifies this
      ensures result.Some? ==> institutions == result.value
      ensures result.None? ==> institutions == old(institutions)
      ensures result.Some? && result.value != [] ==> selectedInstitutionId == Some(result.value[0].id)
      ensures !(result.Some? && result.value != []) ==> selectedInstitutionId == old(selectedInstitutionId)
      ensures assets == old(assets) && filteredAssets == old(filteredAssets) && loading == old(loading)
      ensures searchText == old(searchText) && page == old(page) && pageSize == old(pageSize)
    {
      if result.Some? {
        institutions := result.value;
        if |result.value| > 0 {
          selectedInstitutionId := Some(result.value[0].id);
        }
      }
    }

    /**
     * The asset fetch for the selected institution. Nothing is requested while the
     * selection is missing or empty; a returned result replaces both lists, with a
     * missing one read as the empty list; a thrown request leaves them.
     */
    method FetchAssets(result: AssetFetch) returns (requested: bool)
      modifies this
      ensures requested <==> Truthy(old(selectedInstitutionId))
      ensures requested && result.Returned? ==> assets == ListOrEmpty(result.assets) && filteredAssets == ListOrEmpty(result.assets)
      ensures !(requested && result.Returned?) ==> assets == old(assets) && filteredAssets == old(filteredAssets)
      ensures loading == (old(loading) && !requested)
      ensures institutions == old(institutions) && selectedInstitutionId == old(selectedInstitutionId)
      ensures searchText == old(searchText) && page == old(page) && pageSize == old(pageSize)
    {
      if !Truthy(selectedInstitutionId) {
        return false;
      }
      loading := true;
      if result.Returned? {
        assets := ListOrEmpty(result.assets);
        filteredAssets := ListOrEmpty(result.assets);
      }
      loading := false;
      return true;
    }

    /** Search always starts from the full list, records the text and goes back to page 1. */
    method HandleSearch(value: string)
      modifies this
      ensures searchText == value && page == 1
      ensures filteredAssets == SearchByCaption(assets, value)
      ensures assets == old(assets) && pageSize == old(pageSize) && loading == old(loading)
      ensures institutions == old(institutions) && selectedInstitutionId == old(selectedInstitutionId)
    {
      searchText := value;
      filteredAssets := SearchByCaption(assets, value);
      page := 1;
    }

    /** Picking an institution selects it and clears the search text; the lists wait for the next fetch. */
    method HandleInstitutionChange(value: string)
      modifies this
      ensures selectedInstitutionId == Some(value) && searchText == ""
      ensures institutions == old(institutions) && assets == old(assets) && filteredAssets == old(filteredAssets)
      ensures loading == old(loading) && page == old(page) && pageSize == old(pageSize)
    {
      selectedInstitutionId := Some(value);
      searchText := "";
    }

    method HandlePageChange(newPage: int, newPageSize: int)
      modifies this
      ensures page == newPage && pageSize == newPageSize
      ensures assets == old(assets) && filteredAssets == old(filteredAssets) && loading == old(loading)
      ensures institutions == old(institutions) && selectedInstitutionId == old(selectedInstitutionId)
      ensures searchText == old(searchText)
    {
      page := newPage;
      pageSize := newPageSize;
    }

    /**
     * The table as the page renders it: the whole filtered list with the table's
     * own paging off, numbered with the page-adjusted S/N.
     */
    function RowsAsWritten(): (r: seq<Numbered<Asset>>)
      reads this
      ensures |r| == |filteredAssets|
      ensures forall i :: 0 <= i < |r| ==> r[i] == Numbered(SerialNumber(page, pageSize, i), filteredAssets[i])
      ensures filteredAssets != [] && page >= 2 && pageSize >= 1 && |filteredAssets| <= pageSize ==> !NumberedByPosition(r, filteredAssets)
    {
      UnpagedTableMisnumbers(filteredAssets, page, pageSize);
      UnpagedTable(filteredAssets, page, pageSize)
    }

    /** The table as the S/N formula means it: the current page's window, numbered by position. */
    function Rows(): (r: seq<Numbered<Asset>>)
      reads this
      ensures page >= 1 && pageSize >= 1 ==> |r| <= pageSize && NumberedByPosition(r, filteredAssets)
      ensures |r| == |Window(filteredAssets, page, pageSize)|
      ensures forall i :: 0 <= i < |r| ==> r[i].row == Window(filteredAssets, page, pageSize)[i]
    {
      PagedTableNumbering(filteredAssets, page, pageSize);
      PagedTable(filteredAssets, page, pageSize)
    }
  }

  /**
   * On mount the two effects run in order: a non-empty institution list makes the
   * asset fetch go out for its first institution exactly when that id is non-empty;
   * with no institutions, nothing is fetched.
   */
  method Mount(names: Option<seq<InstitutionName>>, fetched: AssetFetch) returns (p: Page, requested: bool)
    ensures requested <==> names.Some? && names.value != [] && names.value[0].id != ""
    ensures requested ==> p.selectedInstitutionId == Some(names.value[0].id)
    ensures !requested ==> p.assets == [] && p.filteredAssets == []
    ensures !p.loading && p.page == 1 && p.searchText == ""
  {
    p := new Page();
    p.FetchInstitutions(names);
    requested := p.FetchAssets(fetched);
  }
}
