/**
 * One institution's equipment list: the equipment count, a search over every field
 * of each item, page selection and the S/N column.
 */
module ListEquipments {
  import opened JsText
  import opened Table

  /**
   * An equipment row: its id, the text of each field value as `String(field)`
   * renders it, and whether its `availability` value is truthy.
   */
  datatype Equipment = Equipment(id: string, fields: seq<string>, available: bool)

  function AnyFieldMatches(query: string): Equipment -> bool {
    (x: Equipment) => AnyMatches(x.fields, query)
  }

  /** The items a search keeps: exactly those with some field containing the query, ignoring case, in order. */
  function SearchEquipment(equipment: seq<Equipment>, query: string): (r: seq<Equipment>)
    ensures forall x :: x in r <==> x in equipment && exists i :: 0 <= i < |x.fields| && Matches(x.fields[i], query)
    ensures IsSubsequence(r, equipment)
  {
    FilterMeaning(equipment, AnyFieldMatches(query));
    Filter(equipment, AnyFieldMatches(query))
  }

  /** The availability column. */
  function AvailabilityLabel(available: bool): (r: string)
    ensures available <==> r == "Available"
    ensures !available <==> r == "Not Available"
  {
    if available then "Available" else "Not Available"
  }

  class Page {
    var equipment: seq<Equipment>
    var filteredEquipment: seq<Equipment>
    var page: int
    var pageSize: int
    var loading: bool
    var searchText: string

    constructor ()
      ensures equipment == [] && filteredEquipment == []
      ensures page == 1 && pageSize == 10 && !loading && searchText == ""
    {
      equipment, filteredEquipment := [], [];
      page, pageSize := 1, 10;
      loading := false;
      searchText := "";
    }

    /**
     * The equipment fetch. Nothing is requested unless both the session token and
     * the institution id from the route are present and non-empty; `result` is the
     * fetched list, or `None` when the request failed.
     */
    method FetchEquipmentData(token: Option<string>, id: Option<string>, result: Option<seq<Equipment>>) returns (requested: bool)
      modifies this
      ensures requested <==> Truthy(token) && Truthy(id)
      ensures requested && result.Some? ==> equipment == result.value && filteredEquipment == result.value
      ensures !(requested && result.Some?) ==> equipment == old(equipment) && filteredEquipment == old(filteredEquipment)
      ensures loading == (old(loading) && !requested)
      ensures page == old(page) && pageSize == old(pageSize) && searchText == old(searchText)
    {
      if !Truthy(token) || !Truthy(id) {
        return false;
      }
      loading := true;
      if result.Some? {
        equipment := result.value;
        filteredEquipment := result.value;
      }
      loading := false;
      return true;
    }

    /** Search always starts from the full list, records the text and goes back to page 1. */
    method HandleSearch(value: string)
      modifies this
      ensures searchText == value && page == 1
      ensures filteredEquipment == SearchEquipment(equipment, value)
      ensures equipment == old(equipment) && pageSize == old(pageSize) && loading == old(loading)
      ensures Count() == old(Count()) && |filteredEquipment| <= |equipment|
    {
      searchText := value;
      filteredEquipment := SearchEquipment(equipment, value);
      page := 1;
    }

    method HandlePageChange(newPage: int, newPageSize: int)
      modifies this
      ensures page == newPage && pageSize == newPageSize
      ensures equipment == old(equipment) && filteredEquipment == old(filteredEquipment)
      ensures searchText == old(searchText) && loading == old(loading)
    {
      page := newPage;
      pageSize := newPageSize;
    }

    /** The statistics card: the size of the whole list, not of the filtered one. */
    function Count(): (r: string)
      reads this
      ensures |r| >= 1 && forall i :: 0 <= i < |r| ==> '0' <= r[i] <= '9'
      ensures r == NatText(|equipment|)
    {
      NatText(|equipment|)
    }

    /**
     * The table as the page renders it: the whole filtered list with the table's
     * own paging off, numbered with the page-adjusted S/N.
     */
    function RowsAsWritten(): (r: seq<Numbered<Equipment>>)
      reads this
      ensures |r| == |filteredEquipment|
      ensures forall i :: 0 <= i < |r| ==> r[i] == Numbered(SerialNumber(page, pageSize, i), filteredEquipment[i])
      ensures filteredEquipment != [] && page >= 2 && pageSize >= 1 && |filteredEquipment| <= pageSize ==> !NumberedByPosition(r, filteredEquipment)
    {
      UnpagedTableMisnumbers(filteredEquipment, page, pageSize);
      UnpagedTable(filteredEquipment, page, pageSize)
    }

    /** The table as the S/N formula means it: the current page's window, numbered by position. */
    function Rows(): (r: seq<Numbered<Equipment>>)
      reads this
      ensures page >= 1 && pageSize >= 1 ==> |r| <= pageSize && NumberedByPosition(r, filteredEquipment)
      ensures |r| == |Window(filteredEquipment, page, pageSize)|
      ensures forall i :: 0 <= i < |r| ==> r[i].row == Window(filteredEquipment, page, pageSize)[i]
    {
      PagedTableNumbering(filteredEquipment, page, pageSize);
      PagedTable(filteredEquipment, page, pageSize)
    }
  }
}
