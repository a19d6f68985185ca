/**
 * One institution's contact persons: the list, deletion, the add / view / edit
 * modal, and saving from the modal through the contact helpers, which refuse an
 * update whose id, data or token is missing.
 */
module ContactPage {
  import opened JsText
  import opened Collections
  import Actions

  /** An argument of a contact helper call, as a JavaScript value. */
  datatype Arg = Undefined | Str(s: string) | Obj(fields: Record)

  /** JavaScript truthiness of an argument: an object, or a non-empty text. */
  predicate ArgTruthy(a: Arg) {
    a.Obj? || (a.Str? && a.s != "")
  }

  function OptionArg(v: Option<string>): Arg {
    if v.Some? then Str(v.value) else Undefined
  }

  /** A call to one of the two save helpers. */
  datatype SaveCall =
    | UpdateContact(id: Arg, data: Arg, token: Arg)
    | CreateContact(data: Arg, token: Arg)

  const MissingArguments := "Missing required arguments for updateContact"
  const UpdateFailed := "Failed to update contact"
  const CreateFailed := "Failed to create contact"

  /**
   * How a save call ends: `None` when it went through, otherwise the error it throws.
   * The update helper throws before any request when an argument is falsy; `serverOk`
   * is whether the server accepted the request.
   */
  function SaveResult(call: SaveCall, serverOk: bool): (r: Option<string>)
    ensures call.UpdateContact? && !(ArgTruthy(call.id) && ArgTruthy(call.data) && ArgTruthy(call.token)) ==> r == Some(MissingArguments)
    ensures call.UpdateContact? && ArgTruthy(call.id) && ArgTruthy(call.data) && ArgTruthy(call.token) ==> (r.None? <==> serverOk)
    ensures call.CreateContact? ==> (r.None? <==> serverOk)
  {
    match call
    case UpdateContact(id, data, token) =>
      if !ArgTruthy(id) || !ArgTruthy(data) || !ArgTruthy(token) then Some(MissingArguments)
      else if serverOk then None
      else Some(UpdateFailed)
    case CreateContact(_, _) =>
      if serverOk then None else Some(CreateFailed)
  }

  /**
   * The save as the modal's handler makes it: the chosen helper gets the form data as
   * its only argument. An edit hands the data over as the id and no data or token,
   * so it throws before any request whatever the server would say; a new contact is
   * sent without the session token.
   */
  function SaveCallAsWritten(selected: Option<Record>, contactData: Record, token: Option<string>): (r: SaveCall)
    ensures r.UpdateContact? <==> selected.Some?
    ensures selected.Some? ==> forall serverOk :: SaveResult(r, serverOk) == Some(MissingArguments)
    ensures selected.None? ==> r.data == Obj(contactData) && r.token == Undefined
  {
    if selected.Some? then UpdateContact(Obj(contactData), Undefined, Undefined)
    else CreateContact(Obj(contactData), Undefined)
  }

  /**
   * The save with each helper's arguments in place: the selected contact's id, the
   * form data, the token. An edit of a contact that has an id, under a session
   * token, addresses that contact and goes through exactly when the server accepts it.
   */
  function SaveCallFor(selected: Option<Record>, contactData: Record, token: Option<string>): (r: SaveCall)
    ensures r.UpdateContact? <==> selected.Some?
    ensures r.data == Obj(contactData) && r.token == OptionArg(token)
    ensures selected.Some? ==> r.id == OptionArg(IdOf(selected.value))
    ensures selected.Some? && Truthy(IdOf(selected.value)) && Truthy(token) ==>
              forall serverOk :: SaveResult(r, serverOk).None? <==> serverOk
  {
    if selected.Some? then UpdateContact(OptionArg(IdOf(selected.value)), Obj(contactData), OptionArg(token))
    else CreateContact(Obj(contactData), OptionArg(token))
  }

  class Page {
    var contacts: seq<Record>
    var filteredContacts: seq<Record>
    var loading: bool
    var modalVisible: bool
    var selectedContact: Option<Record>

    constructor ()
      ensures contacts == [] && filteredContacts == [] && !loading
      ensures !modalVisible && selectedContact == None
    {
      contacts, filteredContacts := [], [];
      loading := false;
      modalVisible := false;
      selectedContact := None;
    }

    /** The fetch: nothing happens without a token; `None` is a failed request. */
    method FetchData(token: Option<string>, result: Option<seq<Record>>) returns (requested: bool)
      modifies this
      ensures requested <==> Truthy(token)
      ensures requested && result.Some? ==> contacts == result.value && filteredContacts == result.value
      ensures !(requested && result.Some?) ==> contacts == old(contacts) && filteredContacts == old(filteredContacts)
      ensures loading == (old(loading) && !requested)
      ensures modalVisible == old(modalVisible) && selectedContact == old(selectedContact)
    {
      if !Truthy(token) {
        return false;
      }
      loading := true;
      if result.Some? {
        contacts := result.value;
        filteredContacts := result.value;
      }
      loading := false;
      return true;
    }

    /** "Add contact" opens the modal with nothing selected. */
    method HandleAddContact()
      modifies this
      ensures modalVisible && selectedContact == None
      ensures contacts == old(contacts) && filteredContacts == old(filteredContacts) && loading == old(loading)
    {
      selectedContact := None;
      modalVisible := true;
    }

    /** "View" and "Edit" both open the modal with the clicked contact selected. */
    method HandleView(contact: Record)
      modifies this
      ensures modalVisible && selectedContact == Some(contact)
      ensures contacts == old(contacts) && filteredContacts == old(filteredContacts) && loading == old(loading)
    {
      selectedContact := Some(contact);
      modalVisible := true;
    }

    method HandleEdit(contact: Record)
      modifies this
      ensures modalVisible && selectedContact == Some(contact)
      ensures contacts == old(contacts) && filteredContacts == old(filteredContacts) && loading == old(loading)
    {
      selectedContact := Some(contact);
      modalVisible := true;
    }

    /**
     * Delete: the page calls the delete helper with the contact's id alone, leaving
     * the session token out. When the server delete went through, the contacts with
     * that id leave both lists.
     */
    method HandleDelete(contactId: Option<string>, token: Option<string>, ok: bool) returns (call: Actions.DeleteCall)
      modifies this
      ensures call == Actions.DeleteAsWritten(contactId, token)
      ensures ok ==> contacts == RemoveById(old(contacts), contactId) && filteredContacts == RemoveById(old(filteredContacts), contactId)
      ensures !ok ==> contacts == old(contacts) && filteredContacts == old(filteredContacts)
      ensures !loading
      ensures modalVisible == old(modalVisible) && selectedContact == old(selectedContact)
    {
      loading := true;
      call := Actions.DeleteAsWritten(contactId, token);
      if ok {
        contacts := RemoveById(contacts, contactId);
        filteredContacts := RemoveById(filteredContacts, contactId);
      }
      loading := false;
    }

    /** Closing the modal hides it, clears the selection and fetches the list again. */
    method HandleModalClose(token: Option<string>, refetched: Option<seq<Record>>) returns (requested: bool)
      modifies this
      ensures !modalVisible && selectedContact == None
      ensures requested <==> Truthy(token)
      ensures requested && refetched.Some? ==> contacts == refetched.value && filteredContacts == refetched.value
      ensures !(requested && refetched.Some?) ==> contacts == old(contacts) && filteredContacts == old(filteredContacts)
      ensures loading == (old(loading) && !requested)
    {
      modalVisible := false;
      selectedContact := None;
      requested := FetchData(token, refetched);
    }

    /**
     * Save from the modal through the call `build` makes of the selection, the form
     * data and the token. A save that goes through closes the modal as closing it by
     * hand does; a failed one leaves the page as it was.
     */
    method SaveWith(build: (Option<Record>, Record, Option<string>) -> SaveCall,
                    contactData: Record, token: Option<string>, serverOk: bool, refetched: Option<seq<Record>>)
      returns (call: SaveCall, failure: Option<string>)
      modifies this
      ensures call == build(old(selectedContact), contactData, token)
      ensures failure == SaveResult(call, serverOk)
      ensures failure.None? ==> !modalVisible && selectedContact == None
      ensures failure.None? && Truthy(token) && refetched.Some? ==> contacts == refetched.value && filteredContacts == refetched.value
      ensures failure.Some? ==> contacts == old(contacts) && filteredContacts == old(filteredContacts)
      ensures failure.Some? ==> modalVisible == old(modalVisible) && selectedContact == old(selectedContact) && loading == old(loading)
    {
      call := build(selectedContact, contactData, token);
      failure := SaveResult(call, serverOk);
      if failure.None? {
        var _ := HandleModalClose(token, refetched);
      }
    }

    /**
     * Save from the modal as the page does it. Editing a contact always fails with the
     * update helper's missing-arguments error and changes nothing: the modal stays
     * open on the same contact. Adding one goes through exactly when the server
     * accepts the request, and then closes the modal and refetches.
     */
    method OnSave(contactData: Record, token: Option<string>, serverOk: bool, refetched: Option<seq<Record>>)
      returns (call: SaveCall, failure: Option<string>)
      modifies this
      ensures call == SaveCallAsWritten(old(selectedContact), contactData, token)
      ensures old(selectedContact).Some? ==> failure == Some(MissingArguments)
      ensures old(selectedContact).None? ==> (failure.None? <==> serverOk)
      ensures failure.None? ==> !modalVisible && selectedContact == None
      ensures failure.None? && Truthy(token) && refetched.Some? ==> contacts == refetched.value && filteredContacts == refetched.value
      ensures failure.Some? ==> contacts == old(contacts) && filteredContacts == old(filteredContacts)
      ensures failure.Some? ==> modalVisible == old(modalVisible) && selectedContact == old(selectedContact) && loading == old(loading)
    {
      call, failure := SaveWith(SaveCallAsWritten, contactData, token, serverOk, refetched);
    }

    /**
     * Save from the modal with each helper's arguments in place: an edit of a contact
     * that has an id, under a session token, goes through exactly when the server
     * accepts it.
     */
    method OnSaveAddressed(contactData: Record, token: Option<string>, serverOk: bool, refetched: Option<seq<Record>>)
      returns (call: SaveCall, failure: Option<string>)
      modifies this
      ensures call == SaveCallFor(old(selectedContact), contactData, token)
      ensures failure == SaveResult(call, serverOk)
      ensures old(selectedContact).Some? && Truthy(IdOf(old(selectedContact).value)) && Truthy(token) ==> (failure.None? <==> serverOk)
      ensures failure.None? ==> !modalVisible && selectedContact == None
      ensures failure.None? && Truthy(token) && refetched.Some? ==> contacts == refetched.value && filteredContacts == refetched.value
      ensures failure.Some? ==> contacts == old(contacts) && filteredContacts == old(filteredContacts)
      ensures failure.Some? ==> modalVisible == old(modalVisible) && selectedContact == old(selectedContact) && loading == old(loading)
    {
      call, failure := SaveWith(SaveCallFor, contactData, token, serverOk, refetched);
    }
  }
}
