/**
 * The administrator's list of all equipment: a name search, page selection, the
 * S/N column and the availability tag.
 */
module ListEquipmentPage {
  import opened JsText
  import opened Table

  /** An equipment row: its id, its name and whether its `availability` value is truthy. */
  datatype Equipment = Equipment(id: string, name: string, available: bool)

  function NameMatches(query: string): Equipment -> bool {
    (x: Equipment) => Matches(x.name, query)
  }

  /** The items a search keeps: exactly those whose name contains the query, ignoring case, in order. */
  function SearchByName(equipment: seq<Equipment>, query: string): (r: seq<Equipment>)
    ensures forall x :: x in r <==> x in equipment && Matches(x.name, query)
    ensures IsSubsequence(r, equipment)
  {
    FilterMeaning(equipment, NameMatches(query));
    Filter(equipment, NameMatches(query))
  }

  /** The availability tag. */
  function AvailabilityLabel(available: bool): (r: string)
    ensures available <==> r == "Available"
    ensures !available <==> r == "Unavailable"
  {
    if available then "Available" else "Unavailable"
  }

  class Page {
    var equipment: seq<Equipment>
    var filteredEquipment: seq<Equipment>
    var loading: bool
    var searchText: string
    var page: int
    var pageSize: int

    constructor ()
      ensures equipment == [] && filteredEquipment == [] && !loading
      ensures searchText == "" && page == 1 && pageSize == 10
    {
      equipment, filteredEquipment := [], [];
      loading := false;
      searchText := "";
      page, pageSize := 1, 10;
    }

    /** The fetch on mount; `None` is a failed request, which leaves both lists as they were. */
    method FetchData(result: Option<seq<Equipment>>)
      modifies this
      ensures result.Some? ==> equipment == result.value && filteredEquipment == result.value
      ensures result.None? ==> equipment == old(equipment) && filteredEquipment == old(filteredEquipment)
      ensures !loading
      ensures searchText == old(searchText) && page == old(page) && pageSize == old(pageSize)
    {
      loading := true;
      if result.Some? {
        equipment := result.value;
        filteredEquipment := result.value;
      }
      loading := false;
    }

    /** Search always starts from the full list, records the text and goes back to page 1. */
    method HandleSearch(value: string)
      modifies this
      ensures searchText == value && page == 1
      ensures filteredEquipment == SearchByName(equipment, value)
      ensures equipment == old(equipment) && pageSize == old(pageSize) && loading == old(loading)
    {
      searchText := value;
      filteredEquipment := SearchByName(equipment, value);
      page := 1;
    }

    method HandlePageChange(newPage: int, newPageSize: int)
      modifies this
      ensures page == newPage && pageSize == newPageSize
      ensures equipment == old(equipment) && filteredEquipment == old(filteredEquipment)
      ensures searchText == old(searchText) && loading == old(loading)
    {
      page := newPage;
      pageSize := newPageSize;
    }

    /**
     * The table as the page renders it: the whole filtered list with the table's
     * own paging off, numbered with the page-adjusted S/N.
     */
    function RowsAsWritten(): (r: seq<Numbered<Equipment>>)
      reads this
      ensures |r| == |filteredEquipment|
      ensures forall i :: 0 <= i < |r| ==> r[i] == Numbered(SerialNumber(page, pageSize, i), filteredEquipment[i])
      ensures filteredEquipment != [] && page >= 2 && pageSize >= 1 && |filteredEquipment| <= pageSize ==> !NumberedByPosition(r, filteredEquipment)
    {
      UnpagedTableMisnumbers(filteredEquipment, page, pageSize);
      UnpagedTable(filteredEquipment, page, pageSize)
    }

    /** The table as the S/N formula means it: the current page's window, numbered by position. */
    function Rows(): (r: seq<Numbered<Equipment>>)
      reads this
      ensures page >= 1 && pageSize >= 1 ==> |r| <= pageSize && NumberedByPosition(r, filteredEquipment)
      ensures |r| == |Window(filteredEquipment, page, pageSize)|
      ensures forall i :: 0 <= i < |r| ==> r[i].row == Window(filteredEquipment, page, pageSize)[i]
    {
      PagedTableNumbering(filteredEquipment, page, pageSize);
      PagedTable(filteredEquipment, page, pageSize)
    }
  }
}
