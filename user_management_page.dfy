/**
 * The administrator's user list: a search over every field of each user, the
 * table with its S/N column, and the invite-or-edit modal.
 */
module UserManagementPage {
  import opened JsText
  import opened Table

  /**
   * A user row: its id and the text of each of its field values, as `String(field)`
   * renders them, in the object's own order.
   */
  datatype User = User(id: string, fields: seq<string>)

  /** The request the save handler makes before refetching the list. */
  datatype SaveCall = UpdateUser(id: string) | CreateUser

  function AnyFieldMatches(query: string): User -> bool {
    (u: User) => AnyMatches(u.fields, query)
  }

  /** The users a search keeps: exactly those with some field containing the query, ignoring case, in order. */
  function SearchUsers(users: seq<User>, query: string): (r: seq<User>)
    ensures forall u :: u in r <==> u in users && exists i :: 0 <= i < |u.fields| && Matches(u.fields[i], query)
    ensures IsSubsequence(r, users)
  {
    FilterMeaning(users, AnyFieldMatches(query));
    Filter(users, AnyFieldMatches(query))
  }

  /** The empty query keeps exactly the users that have at least one field. */
  lemma SearchEmptyKeepsUsersWithFields(users: seq<User>)
    ensures forall u :: u in SearchUsers(users, "") <==> u in users && u.fields != []
  {
    forall u | u in users
      ensures AnyMatches(u.fields, "") <==> u.fields != []
    {
      AnyMatchesEmpty(u.fields);
    }
  }

  /**
   * The S/N column of this table: the row's index plus one, whatever the page.
   * The table is handed the whole filtered list, so this is each user's position
   * in that list.
   */
  function UserRows(shown: seq<User>): (r: seq<Numbered<User>>)
    ensures |r| == |shown|
    ensures forall i :: 0 <= i < |r| ==> r[i] == Numbered(i + 1, shown[i])
    ensures NumberedByPosition(r, shown)
  {
    NumberRows(shown, 1, 0)
  }

  class Page {
    var users: seq<User>
    var filteredUsers: seq<User>
    var loading: bool
    var searchText: string
    var page: int
    var pageSize: int
    var isModalVisible: bool
    var selectedUser: Option<User>

    constructor ()
      ensures users == [] && filteredUsers == [] && !loading
      ensures searchText == "" && page == 1 && pageSize == 10
      ensures !isModalVisible && selectedUser == None
    {
      users, filteredUsers := [], [];
      loading := false;
      searchText := "";
      page, pageSize := 1, 10;
      isModalVisible := false;
      selectedUser := None;
    }

    /** The initial fetch; `None` is a failed request, which leaves both lists as they were. */
    method FetchData(result: Option<seq<User>>)
      modifies this
      ensures result.Some? ==> users == result.value && filteredUsers == result.value
      ensures result.None? ==> users == old(users) && filteredUsers == old(filteredUsers)
      ensures !loading
      ensures searchText == old(searchText) && page == old(page) && pageSize == old(pageSize)
      ensures isModalVisible == old(isModalVisible) && selectedUser == old(selectedUser)
    {
      loading := true;
      if result.Some? {
        users := result.value;
        filteredUsers := result.value;
      }
      loading := false;
    }

    method HandlePageChange(newPage: int, newPageSize: int)
      modifies this
      ensures page == newPage && pageSize == newPageSize
      ensures users == old(users) && filteredUsers == old(filteredUsers)
      ensures searchText == old(searchText) && loading == old(loading)
      ensures isModalVisible == old(isModalVisible) && selectedUser == old(selectedUser)
    {
      page := newPage;
      pageSize := newPageSize;
    }

    /** Search always starts from the full list, records the text and goes back to page 1. */
    method HandleSearch(value: string)
      modifies this
      ensures searchText == value && page == 1
      ensures filteredUsers == SearchUsers(users, value)
      ensures users == old(users) && pageSize == old(pageSize) && loading == old(loading)
      ensures isModalVisible == old(isModalVisible) && selectedUser == old(selectedUser)
    {
      searchText := value;
      filteredUsers := SearchUsers(users, value);
      page := 1;
    }

    /** "Invite User" opens the modal with nothing selected. */
    method OpenInvite()
      modifies this
      ensures isModalVisible && selectedUser == None
      ensures users == old(users) && filteredUsers == old(filteredUsers)
      ensures searchText == old(searchText) && page == old(page) && pageSize == old(pageSize) && loading == old(loading)
    {
      selectedUser := None;
      isModalVisible := true;
    }

    /** A row's "Edit" opens the modal on that user. */
    method OpenEdit(record: User)
      modifies this
      ensures isModalVisible && selectedUser == Some(record)
      ensures users == old(users) && filteredUsers == old(filteredUsers)
      ensures searchText == old(searchText) && page == old(page) && pageSize == old(pageSize) && loading == old(loading)
    {
      selectedUser := Some(record);
      isModalVisible := true;
    }

    /**
     * Save from the modal: update the selected user, or create one when none is
     * selected, then refetch. `refetched` is `None` when the save or the refetch
     * failed. On every path the modal closes and the selection is cleared.
     */
    method HandleCreateOrEditUser(refetched: Option<seq<User>>) returns (call: SaveCall)
      modifies this
      ensures old(selectedUser).Some? ==> call == UpdateUser(old(selectedUser).value.id)
      ensures old(selectedUser).None? ==> call == CreateUser
      ensures refetched.Some? ==> users == refetched.value && filteredUsers == refetched.value
      ensures refetched.None? ==> users == old(users) && filteredUsers == old(filteredUsers)
      ensures !isModalVisible && selectedUser == None && !loading
      ensures searchText == old(searchText) && page == old(page) && pageSize == old(pageSize)
    {
      loading := true;
      if selectedUser.Some? {
        call := UpdateUser(selectedUser.value.id);
      } else {
        call := CreateUser;
      }
      if refetched.Some? {
        users := refetched.value;
        filteredUsers := refetched.value;
      }
      loading := false;
      isModalVisible := false;
      selectedUser := None;
    }

    /** The table's rows: the whole filtered list, each row numbered by its position in it. */
    function Rows(): (r: seq<Numbered<User>>)
      reads this
      ensures |r| == |filteredUsers|
      ensures NumberedByPosition(r, filteredUsers)
    {
      UserRows(filteredUsers)
    }
  }
}
