# Equipment registration dashboard — a verified model of its core

The equipment-registration dashboard is a React front end. Institutions,
assessors and data-entry staff use it to register laboratory equipment, upload
it in bulk from spreadsheets, manage assets, contacts and team members, and
administer users and institutions. This project models the logic of that front
end that is more than wiring. It covers:

- the **bulk upload**: the streamed progress of an equipment import is cut into
  lines, parsed and folded into a summary (`UploadStream`, `Actions`). The page
  shows each progress event and the final summary (`BulkUploadPage`);
- the **list pages**:
  - case-insensitive search over one field or all fields;
  - the page window;
  - serial numbering;
  - the search, page-change, fetch and save handlers.

  See `Table`, `InstitutionManagementPage`, `UserManagementPage`,
  `ListEquipments`, `ListEquipmentPage`, `ListAssetsPage` and
  `TaggedInstitutions`;
- **in-memory collection edits**:
  - delete by id;
  - merge-update by id;
  - append;
  - edit one field of row *i*;
  - remove row *i*.

  See `Collections`, `UseEquipment`, `AssetsPage`, `ContactPage`,
  `AddEquipmentForm` and `TeamMembers`;
- **validation and dispatch rules**:
  - image checks (`FormUpload`, `AddAssets`, `EditAssetModal`,
    `AddEquipmentForm`);
  - password and token checks (`SignupPage`, `ResetPassword`);
  - role routing (`LoginPage`);
  - the admin guard (`AdminRoute`);
  - onboarding steps (`UseOnboarding`, `OnboardingStepContent`);
  - initials (`UserAvatar`);
  - caption options (`CustomSelect`);
  - the member payload and group options (`UserModal`).

How the model treats the program:

- **Handlers**: a component whose handlers update state is a `class`. Its
  fields are the component's state, and each handler is a `method` that states
  its whole new state.
- **Expressions**: pure expressions (filters, windows, labels, payloads) are
  functions. Lemmas relate each one to an independent description.
- **I/O**: the network, storage and user confirmations are inputs to the
  handlers. This covers a response, whether a request was ok, what a refetch
  returned, and whether the user confirmed. `JSON.parse` and `JSON.stringify`
  are function parameters.
- **Callbacks**: callbacks such as `setStatus`, `onChange` and `onSubmit` become
  returned traces of the calls they receive.
- **Server records**: records read from the server are maps from field name to
  text (`Collections.Record`).

`JsText` holds the JavaScript string behaviour the pages rely on:

- truthiness and `||` defaults;
- ASCII `toLowerCase` and `includes`;
- `split` and `join` on one character;
- `trim` and `slice`;
- number printing;
- the 40-character truncation.

## Model

| member | source | states |
|---|---|---|
| UploadStream.AggregateMeaning | src/hooks/useAction.js:280-316 | The fold of the events concatenates every array of skipped rows in arrival order. It keeps the truthy messages in order. Each total equals the last value any event gave for it, or 0 if none did; totals are never summed. |
| UploadStream.Aggregate | src/hooks/useAction.js:280-316 | The fold keeps at most one message per event, and each total is 0 or the value some event carried. |
| UploadStream.StreamEvents | src/hooks/useAction.js:287-298 | No reads give no events, and a single read gives the events of its own parts. |
| UploadStream.PartsEventsAppend | src/hooks/useAction.js:295-326 | The parts of a chunk contribute independently: the events of `a + b` are the events of `a` followed by those of `b`. |
| UploadStream.StreamEventsAppend | src/hooks/useAction.js:287-293 | Each read is split on its own: the events of two runs of reads are the events of each, in order. |
| UploadStream.MalformedPartSkipped | src/hooks/useAction.js:297-324 | A part that fails to parse contributes nothing, and every part before and after it contributes exactly what it would without it. |
| UploadStream.LineAcrossReads | src/hooks/useAction.js:288-296 | Two reads without a newline are parsed as two separate fragments, so a JSON text cut by a read boundary reaches the parser in two pieces. |
| UploadStream.StreamEventsFromParts | src/hooks/useAction.js:292-298 | Every event is the parse of a non-blank part of one of the chunks. |
| Actions.Collect | src/hooks/useAction.js:300-316 | Collecting one event into the running result equals the reference fold step `Record`. |
| Actions.ReadParts | src/hooks/useAction.js:295-326 | The inner loop over a chunk's parts leaves the result equal to the fold of all events so far. When there is a callback, it has reported exactly those events in order; otherwise it has reported nothing. |
| Actions.ReadStream | src/hooks/useAction.js:287-328 | The read loop ends with the fold of every event of the stream, and the callback has seen exactly the stream's events once each. |
| Actions.SendBulkEquipment | src/hooks/useAction.js:258-342 | The upload resolves to `BulkOutcome` and reports `BulkReports`. A non-ok response gives its status and message. A throw gives its message or the default. A completed read gives status 200 and the summary. |
| Actions.PartRead | src/hooks/useAction.js:296-324 | A blank part or one that does not parse adds no event. Any other part adds exactly its parsed event. |
| Actions.ChunkRead | src/hooks/useAction.js:290-293 | An empty chunk adds nothing. Any other chunk adds the events of its `"\n"`-separated parts. |
| Actions.NotOkReadsNothing | src/hooks/useAction.js:268-274 | A non-ok response returns its status and the body's message or "Unknown error occurred". Its status code is not 200 and it reports nothing. |
| Actions.EmptyStream | src/hooks/useAction.js:280-285 | A stream of empty reads completes with message "", totals 0 and no skipped rows. |
| Actions.CompletedMeaning | src/hooks/useAction.js:331-337 | A completed upload joins the truthy messages with ", ", reports the last total of each kind (0 if none) and the concatenated rows. The callback receives exactly the parsed events. |
| Actions.SummaryMeaning | src/hooks/useAction.js:331-337 | The summary of any run of events in terms of the reference descriptions of the fold. |
| Actions.ThreeEventRun | src/hooks/useAction.js:306-316 | A start, a progress and a final event give their three messages joined by ", ", plus the final totals and rows. |
| Actions.ArrayOrEmpty | src/hooks/useAction.js:94 | A list fetch yields the payload when it is an array, and [] otherwise. |
| Actions.FetchInstitutionsByIds | src/hooks/useAction.js:141-175 | A request is sent if and only if `ids` is a non-empty array; otherwise the result is the invalid-ids error. Ok, not-ok and thrown responses each map to items or to their own non-empty message. |
| Actions.BearerHeader | src/hooks/useAction.js:350-352 | The header is "Bearer " and the token, or "Bearer undefined" when no token is passed. |
| Actions.DeleteAsWritten | src/pages/Assets/index.jsx:51 | The pages' delete addresses the record's id and always sends "Bearer undefined". |
| Actions.DeleteWithToken | src/hooks/useAction.js:347-355 | With the token passed on, the delete addresses the id and carries "Bearer " and the session token. |
| Actions.DeleteIgnoresSession | src/pages/Contact/index.jsx:69 | As written, two different sessions send the same header; with the token passed on they send different ones. |
| BulkUploadPage.OnStatus | src/pages/BulkUploadPage.jsx:43-58 | 201 sets the start line and 202 the accepted line. 200 sets the success line and replaces the skipped rows. 501 sets the error line. Any other status changes nothing. |
| BulkUploadPage.Replay | src/pages/BulkUploadPage.jsx:42-59 | Events whose status the page does not handle leave every line as it was. |
| BulkUploadPage.SuccessText | src/pages/BulkUploadPage.jsx:62-67 | The success text opens with the saved count and closes with the skipped count followed by " duplicate record(s) skipped". |
| BulkUploadPage.Finish | src/pages/BulkUploadPage.jsx:61-74 | A completed upload sets the success text and the skipped rows and keeps the error line. A failure sets a non-empty error line, its own message or the page's default for that kind of failure, and keeps the success line and rows. The start and accepted lines are always kept. |
| BulkUploadPage.ReplayMeaning | src/pages/BulkUploadPage.jsx:42-59 | After the events, each line shows the message of the last event with its status, and the rows are those of the last 200 event. |
| BulkUploadPage.Page.constructor | src/pages/BulkUploadPage.jsx:11-19 | No file, not uploading, every line empty and no skipped rows. |
| BulkUploadPage.Page.HandleUploadFileChange | src/pages/BulkUploadPage.jsx:79-82 | The file is replaced only when one was picked. Nothing else changes. |
| BulkUploadPage.Page.HandleDeleteFile | src/pages/BulkUploadPage.jsx:84 | The file becomes null. Nothing else changes. |
| BulkUploadPage.Page.ApplyStatus | src/pages/BulkUploadPage.jsx:43-58 | The shown messages become `OnStatus` of the old ones. |
| BulkUploadPage.Page.ApplyAll | src/pages/BulkUploadPage.jsx:42-59 | The shown messages become the replay of every reported event in order. |
| BulkUploadPage.Page.ApplyOutcome | src/pages/BulkUploadPage.jsx:61-74 | The final result sets the success text and rows (200), or the error line, with the page's defaults. |
| BulkUploadPage.Page.Upload | src/pages/BulkUploadPage.jsx:34-76 | The lines are cleared, every reported event is replayed in order, then the final result is applied. The file is kept and uploading ends false. |
| BulkUploadPage.Page.HandleBulkUploadSubmit | src/pages/BulkUploadPage.jsx:21-77 | With no file, only the error changes, to the required-file text, and nothing is sent. Otherwise the lines are cleared, every event is replayed and the outcome applied, and uploading ends false. |
| BulkUploadPage.CompletedUpload | src/pages/BulkUploadPage.jsx:61-68 | A completed upload shows the success text built from the totals and the aggregated rows. The other lines keep what the events left. |
| BulkUploadPage.FailedUpload | src/pages/BulkUploadPage.jsx:69-71 | A non-ok response leaves every line empty except the error, which shows the server's message or the default. |
| BulkUploadPage.ThrownMessageKept | src/pages/BulkUploadPage.jsx:72-74 | A thrown upload's message is never empty, so the error line shows it and the page's own fallback is never used. |
| Table.Filter | src/pages/Admin/List/InstitutionManagementPage.jsx:46-48 | The kept items are items of the input that pass the test, and there are no more of them than inputs. |
| Table.FilterMeaning | src/pages/Admin/List/InstitutionManagementPage.jsx:46-48 | An item is kept if and only if it is in the input and passes the test. The result is an order-preserving subsequence. |
| Table.FilterKeepsAll | src/pages/Users/UserManagementPage.jsx:103-105 | When every item passes, the filter returns the list unchanged. |
| Table.FilterIdempotent | src/pages/Admin/List/InstitutionManagementPage.jsx:46 | Filtering a filtered list again changes nothing, so repeated searches do not compound. |
| Table.FilterSameTest | src/pages/Admin/List/InstitutionManagementPage.jsx:46-48 | Two tests that agree on every item give the same result. |
| Table.MatchesEmpty | src/pages/Admin/List/InstitutionManagementPage.jsx:47 | The empty query matches every field. |
| Table.MatchesIgnoresCase | src/pages/Admin/List/InstitutionManagementPage.jsx:47 | Lowercasing the query or the field does not change whether it matches. |
| Table.AnyMatchesEmpty | src/pages/Users/UserManagementPage.jsx:103-105 | The empty query matches a record if and only if it has at least one field. |
| Table.WindowRows | src/pages/Admin/List/InstitutionManagementPage.jsx:176-179 | The window of a page holds at most `pageSize` rows, and its row `i` is the list's row `(page-1)*pageSize + i`. |
| Table.FullWindow | src/pages/Admin/List/InstitutionManagementPage.jsx:176-179 | A page that lies inside the list holds exactly `pageSize` rows. |
| Table.WindowsCover | src/pages/Admin/List/InstitutionManagementPage.jsx:176-179 | The first `n` windows laid end to end are the prefix of the list of length `n*pageSize`, capped at the list's length: nothing is skipped or repeated. |
| Table.NumberRows | src/pages/Admin/List/InstitutionManagementPage.jsx:104 | Row `i` of a page is numbered `(page-1)*pageSize + i + 1`. |
| Table.PagedTableNumbering | src/pages/Admin/List/InstitutionManagementPage.jsx:104 | When the table is given the page's window, each row's number is its 1-based position in the whole list. |
| Table.UnpagedTableMisnumbers | src/pages/Equipment/ListEquipments.jsx:105 | When the whole list is given to the table on page 2 or later, the first row is numbered above 1 and the numbering no longer matches positions. |
| InstitutionManagementPage.SearchByName | src/pages/Admin/List/InstitutionManagementPage.jsx:46-48 | An institution is kept if and only if its name contains the query, ignoring case, in original order. |
| InstitutionManagementPage.SearchEmptyShowsAll | src/pages/Admin/List/InstitutionManagementPage.jsx:46-48 | The empty search shows every institution. |
| InstitutionManagementPage.SearchIgnoresCase | src/pages/Admin/List/InstitutionManagementPage.jsx:47 | Searching for the lowercased query gives the same list. |
| InstitutionManagementPage.Page.constructor | src/pages/Admin/List/InstitutionManagementPage.jsx:17-24 | Empty lists, page 1 of size 10, no modal and no selection. |
| InstitutionManagementPage.Page.FetchData | src/pages/Admin/List/InstitutionManagementPage.jsx:26-42 | A fetched list replaces both lists. Loading ends. Nothing else changes. |
| InstitutionManagementPage.Page.HandleSearch | src/pages/Admin/List/InstitutionManagementPage.jsx:44-51 | The text is recorded, the page resets to 1, and the filtered list is the search of the full list. |
| InstitutionManagementPage.Page.HandlePageChange | src/pages/Admin/List/InstitutionManagementPage.jsx:53-56 | Page and page size become the given values. Nothing else changes. |
| InstitutionManagementPage.Page.OpenAdd | src/pages/Admin/List/InstitutionManagementPage.jsx:190-193 | The modal opens with no selection. |
| InstitutionManagementPage.Page.OpenEdit | src/pages/Admin/List/InstitutionManagementPage.jsx:154-157 | The modal opens with the clicked institution selected. |
| InstitutionManagementPage.Page.HandleCreateOrEdit | src/pages/Admin/List/InstitutionManagementPage.jsx:58-80 | The save goes to update (selected id) or create. A refetch replaces both lists. Whether or not the save succeeds, the modal is hidden, the selection cleared and loading false. |
| InstitutionManagementPage.Page.PaginatedData | src/pages/Admin/List/InstitutionManagementPage.jsx:176-179 | On a valid page the table receives at most `pageSize` institutions, its row `i` being the filtered list's row `(page-1)*pageSize + i`. |
| InstitutionManagementPage.Page.Rows | src/pages/Admin/List/InstitutionManagementPage.jsx:100-105 | The rows are the paginated data in order, and on a valid page each is numbered with its position in the filtered list. |
| InstitutionManagementPage.ShownRows | src/pages/Admin/List/InstitutionManagementPage.jsx:104 | The shown rows are the contiguous page window, at most `pageSize` of them, each numbered by its position in the filtered list. |
| UserManagementPage.SearchUsers | src/pages/Users/UserManagementPage.jsx:100-106 | A user is kept if and only if some field contains the query, ignoring case, as an order-preserving subsequence. |
| UserManagementPage.SearchEmptyKeepsUsersWithFields | src/pages/Users/UserManagementPage.jsx:103-105 | The empty query keeps exactly the users that have at least one field. |
| UserManagementPage.UserRows | src/pages/Users/UserManagementPage.jsx:116 | Rows are numbered `index + 1`, whatever the page, which is their position in the list handed to the table. |
| UserManagementPage.Page.constructor | src/pages/Users/UserManagementPage.jsx:18-25 | Empty lists, page 1 of size 10, no modal and no selection. |
| UserManagementPage.Page.FetchData | src/pages/Users/UserManagementPage.jsx:31-46 | A fetched list replaces both lists. Loading ends. Nothing else changes. |
| UserManagementPage.Page.HandlePageChange | src/pages/Users/UserManagementPage.jsx:48-51 | Page and page size become the given values. |
| UserManagementPage.Page.HandleSearch | src/pages/Users/UserManagementPage.jsx:98-110 | The text is recorded, the page resets to 1, and the filtered list is the all-field search of the full list. |
| UserManagementPage.Page.OpenInvite | src/pages/Users/UserManagementPage.jsx:181-184 | The modal opens with no selection. |
| UserManagementPage.Page.OpenEdit | src/pages/Users/UserManagementPage.jsx:148-149 | The modal opens with the clicked user selected. |
| UserManagementPage.Page.HandleCreateOrEditUser | src/pages/Users/UserManagementPage.jsx:53-78 | The save goes to update (selected id) or create. A refetch replaces both lists. The modal is hidden, the selection cleared and loading false on every path. |
| UserManagementPage.Page.Rows | src/pages/Users/UserManagementPage.jsx:113-117 | The table shows every filtered user, each numbered with its position in the filtered list. |
| ListEquipments.SearchEquipment | src/pages/Equipment/ListEquipments.jsx:79-85 | An item is kept if and only if some field contains the query, ignoring case, in original order. |
| ListEquipments.AvailabilityLabel | src/pages/Equipment/ListEquipments.jsx:122 | "Available" exactly for available items and "Not Available" exactly for the others. |
| ListEquipments.Page.constructor | src/pages/Equipment/ListEquipments.jsx:19-25 | Empty lists, page 1 of size 10, not loading and no search text. |
| ListEquipments.Page.FetchEquipmentData | src/pages/Equipment/ListEquipments.jsx:44-66 | A request is sent if and only if both the token and the id are present. A result replaces both lists. Loading ends when a request was sent. |
| ListEquipments.Page.HandleSearch | src/pages/Equipment/ListEquipments.jsx:77-89 | The text is recorded, the page resets to 1, and the filtered list is the all-field search. The count shown stays that of the full list. |
| ListEquipments.Page.HandlePageChange | src/pages/Equipment/ListEquipments.jsx:95-98 | Page and page size become the given values. |
| ListEquipments.Page.Count | src/pages/Equipment/ListEquipments.jsx:155-158 | The statistics card shows the decimal digits of the size of the whole list; the search does not change it. |
| ListEquipments.Page.RowsAsWritten | src/pages/Equipment/ListEquipments.jsx:101-106 | The table shows every filtered item, in order, row `i` numbered `(page-1)*pageSize + i + 1`; on page 2 or later a list no longer than a page is numbered away from the rows' positions. |
| ListEquipments.Page.Rows | src/pages/Equipment/ListEquipments.jsx:105 | Given the page's window instead, a valid page shows at most `pageSize` rows, each numbered with its position in the filtered list. |
| ListEquipmentPage.SearchByName | src/pages/Admin/List/ListEquipmentPage.jsx:41-43 | An item is kept if and only if its name contains the query, ignoring case, in order. |
| ListEquipmentPage.AvailabilityLabel | src/pages/Admin/List/ListEquipmentPage.jsx:92-95 | "Available" exactly for truthy availability and "Unavailable" exactly otherwise. |
| ListEquipmentPage.Page.constructor | src/pages/Admin/List/ListEquipmentPage.jsx:12-17 | Empty lists, page 1 of size 10, not loading. |
| ListEquipmentPage.Page.FetchData | src/pages/Admin/List/ListEquipmentPage.jsx:22-36 | A fetched list replaces both lists. Loading ends. |
| ListEquipmentPage.Page.HandleSearch | src/pages/Admin/List/ListEquipmentPage.jsx:38-46 | The text is recorded, the page resets to 1, and the filtered list is the name search. |
| ListEquipmentPage.Page.HandlePageChange | src/pages/Admin/List/ListEquipmentPage.jsx:48-52 | Page and page size become the given values. |
| ListEquipmentPage.Page.RowsAsWritten | src/pages/Admin/List/ListEquipmentPage.jsx:56-61 | The table shows every filtered item, in order, row `i` numbered `(page-1)*pageSize + i + 1`; on page 2 or later a list no longer than a page is numbered away from the rows' positions. |
| ListEquipmentPage.Page.Rows | src/pages/Admin/List/ListEquipmentPage.jsx:60 | Given the page's window instead, a valid page shows at most `pageSize` rows, each numbered with its position in the filtered list. |
| ListAssetsPage.SearchByCaption | src/pages/Assets/ListAssetsPage.jsx:72-75 | An asset is kept if and only if its caption contains the query, ignoring case, in order. |
| ListAssetsPage.ListOrEmpty | src/pages/Assets/ListAssetsPage.jsx:57-58 | The fetched assets, or [] when there are none. |
| ListAssetsPage.Page.constructor | src/pages/Assets/ListAssetsPage.jsx:18-25 | No institutions, no selection, empty lists, page 1 of size 10. |
| ListAssetsPage.Page.FetchInstitutions | src/pages/Assets/ListAssetsPage.jsx:30-44 | A non-empty list selects its first institution's id. An empty one leaves the selection as it was. |
| ListAssetsPage.Page.FetchAssets | src/pages/Assets/ListAssetsPage.jsx:47-66 | A request is sent if and only if an institution is selected. Its result, or [], replaces both lists. |
| ListAssetsPage.Page.HandleSearch | src/pages/Assets/ListAssetsPage.jsx:70-77 | The text is recorded, the page resets to 1, and the filtered list is the caption search. |
| ListAssetsPage.Page.HandleInstitutionChange | src/pages/Assets/ListAssetsPage.jsx:80-83 | The selection becomes the chosen id and the search text is cleared. |
| ListAssetsPage.Page.HandlePageChange | src/pages/Assets/ListAssetsPage.jsx:86-89 | Page and page size become the given values. |
| ListAssetsPage.Page.RowsAsWritten | src/pages/Assets/ListAssetsPage.jsx:93-98 | The table shows every filtered asset, in order, row `i` numbered `(page-1)*pageSize + i + 1`; on page 2 or later a list no longer than a page is numbered away from the rows' positions. |
| ListAssetsPage.Page.Rows | src/pages/Assets/ListAssetsPage.jsx:97 | Given the page's window instead, a valid page shows at most `pageSize` rows, each numbered with its position in the filtered list. |
| ListAssetsPage.Mount | src/pages/Assets/ListAssetsPage.jsx:30-66 | On mount, assets are fetched if and only if the first institution has a non-empty id, and that id is selected. Otherwise no assets are shown. |
| Collections.RemoveById | src/pages/Assets/index.jsx:54-59 | A record is kept if and only if its id differs from the given one, as an order-preserving subsequence. |
| Collections.RemoveAbsentId | src/pages/Contact/index.jsx:71-74 | Removing an id no record has changes nothing. |
| Collections.MapWhere | src/hooks/useEquipment.js:16-18 | Same length. Each matching item is transformed and every other item is unchanged. |
| Collections.Merge | src/pages/Assets/index.jsx:227-231 | The spread merge has the union of the keys. The second record's values win, and the first record's other values are kept. |
| Collections.DropIndex | src/pages/Equipment/addEquipmentForm.jsx:68-71 | Removes exactly row `index` and keeps the others in order. An out-of-range index changes nothing. |
| Collections.UpdateAt | src/components/onboarding/forms/TeamMembers.jsx:71-77 | Same length. Only the record at `index` is transformed. |
| UseEquipment.RegisterEquipment | src/hooks/useEquipment.js:6-12 | An ok reply appends exactly that item at the end. A non-ok reply leaves the list unchanged. |
| UseEquipment.EditEquipment | src/hooks/useEquipment.js:14-20 | Same length. Each item with the id becomes the returned item and the others stay. A non-ok reply changes nothing. |
| UseEquipment.DeleteEquipment | src/hooks/useEquipment.js:22-27 | An ok reply removes every item with the id and keeps the rest in order. A non-ok reply changes nothing. |
| UseEquipment.DeleteUndoesRegister | src/hooks/useEquipment.js:6-27 | Deleting the id of a freshly registered item that no other item shares gives back the list before registration. |
| UseEquipment.EditIdempotent | src/hooks/useEquipment.js:14-20 | Applying the same edit twice is the same as applying it once. |
| UseEquipment.EditKeepsIds | src/hooks/useEquipment.js:14-20 | An edit whose reply carries the same id keeps every item's id. |
| FormUpload.CheckImage | src/pages/Assets/AddAssets.jsx:62-74 | A value that is not a File is refused as not a file. A File of a type outside jpeg/png/gif is refused as a bad format. Exactly the remaining values pass. |
| CustomSelect.Select.constructor | src/components/custom/CustomSelect.jsx:9 | The options start as the captions. |
| CustomSelect.Select.HandleSearch | src/components/custom/CustomSelect.jsx:11-17 | Empty input restores the captions. A new input is appended after the captions. A caption leaves the options unchanged. There is never more than one extra option. |
| CustomSelect.Select.HandleChange | src/components/custom/CustomSelect.jsx:19-24 | The value is always forwarded and is always an option afterwards. It is added only when it is not a caption. |
| AddAssets.SubmitFailure | src/pages/Assets/AddAssets.jsx:56-103 | The File check comes before the type check, and each has its own message. A valid image fails only when the request fails, with "Failed to submit asset" or the thrown message. |
| AddAssets.Form.constructor | src/pages/Assets/AddAssets.jsx:14-25 | The form starts at the initial row with no error. |
| AddAssets.Form.SetImage | src/pages/Assets/AddAssets.jsx:166-170 | Only the image changes. |
| AddAssets.Form.SetCaption | src/pages/Assets/AddAssets.jsx:183 | Only the caption changes. |
| AddAssets.Form.SetDescription | src/pages/Assets/AddAssets.jsx:212 | Only the description changes. |
| AddAssets.Form.HandleSubmit | src/pages/Assets/AddAssets.jsx:56-103 | A request is sent if and only if the image passes. Success resets the row and clears the error. Failure keeps the row and shows the message. Loading ends on every path. |
| EditAssetModal.RowFor | src/pages/Contact/EditAssetModal.jsx:11-15 | The row is prefilled from the asset's image, caption and description, or from "" without an asset. |
| EditAssetModal.PrefilledImageRefused | src/pages/Contact/EditAssetModal.jsx:47-51 | A prefilled row always fails the File check, so an update needs a new upload. |
| EditAssetModal.RequestAsWritten | src/pages/Contact/EditAssetModal.jsx:67 | The request as written goes to "/assets/[object FormData]" under "Bearer undefined", with the token as its data: it never addresses the asset. |
| EditAssetModal.Request | src/hooks/useAction.js:371-381 | In argument order the request goes to "/assets/" plus the asset's id, carries the row and sends "Bearer " and the token. |
| EditAssetModal.Modal.constructor | src/pages/Contact/EditAssetModal.jsx:11-21 | The row starts prefilled from the asset. |
| EditAssetModal.Modal.SyncAsset | src/pages/Contact/EditAssetModal.jsx:29-37 | A new asset re-prefills the row. A missing one keeps it. |
| EditAssetModal.Modal.SetImage | src/pages/Contact/EditAssetModal.jsx:126-130 | Only the image changes. |
| EditAssetModal.Modal.SubmitWith | src/pages/Contact/EditAssetModal.jsx:42-80 | Not a File or a bad type gives its error and sends nothing. A missing asset throws before the request and loading stays on. Otherwise the built request is sent. Success refreshes and closes; failure shows "Failed to update asset" or the thrown message. |
| EditAssetModal.Modal.HandleSubmit | src/pages/Contact/EditAssetModal.jsx:42-80 | As written: after the image checks, the request sent is the misaddressed one, to "/assets/[object FormData]" under "Bearer undefined". Success refreshes and closes; failure shows its error. |
| EditAssetModal.Modal.HandleSubmitAddressed | src/pages/Contact/EditAssetModal.jsx:42-80 | With the arguments in order: the request goes to the edited asset's path under the session token. Success refreshes and closes; failure shows its error. |
| AddEquipmentForm.FreshRow | src/pages/Equipment/addEquipmentForm.jsx:60-66 | A new row has the initial row's fields, all blank, except the given serial number. |
| AddEquipmentForm.RowFailure | src/pages/Equipment/addEquipmentForm.jsx:85-121 | A row fails on a non-File image, then on its type, then on a failed request, each with its own message. |
| AddEquipmentForm.StopFrom | src/pages/Equipment/addEquipmentForm.jsx:85-121 | The stop index lies within the rows, and the row it names fails. |
| AddEquipmentForm.StopFromMeaning | src/pages/Equipment/addEquipmentForm.jsx:85-121 | Every row before the stop went through, so it was sent. |
| AddEquipmentForm.SentRows | src/pages/Equipment/addEquipmentForm.jsx:85-121 | The sent rows are a prefix of the sheet: every row before the stop, plus the stopping row exactly when its image passed, and the whole sheet when nothing failed. |
| AddEquipmentForm.SentBeforeFailure | src/pages/Equipment/addEquipmentForm.jsx:85-121 | Rows before the first failing row have already been sent when validation stops. |
| AddEquipmentForm.SendRows | src/pages/Equipment/addEquipmentForm.jsx:85-121 | The loop sends exactly the rows up to the first failure (that row too when only its request failed). It fails if and only if some row fails, and then reports that first row's own message. |
| AddEquipmentForm.Sheet.constructor | src/pages/Equipment/addEquipmentForm.jsx:14-30 | The sheet starts with the one initial row. |
| AddEquipmentForm.Sheet.HandleAddRow | src/pages/Equipment/addEquipmentForm.jsx:60-66 | One fresh row is appended and the existing rows are untouched. |
| AddEquipmentForm.Sheet.HandleDeleteRow | src/pages/Equipment/addEquipmentForm.jsx:68-71 | Exactly row `index` is removed and the others keep their order. An out-of-range index changes nothing. |
| AddEquipmentForm.Sheet.HandleInputChange | src/pages/Equipment/addEquipmentForm.jsx:73-77 | Only `field` of row `index` changes. |
| AddEquipmentForm.Sheet.HandleSubmit | src/pages/Equipment/addEquipmentForm.jsx:79-131 | The rows are visited in order, and the rows before the first failure are sent. Full success resets to a single fresh row. Otherwise the rows stay and the error is that row's failure. Loading ends. |
| AddEquipmentForm.Sheet.ResetForInstitution | src/pages/Equipment/addEquipmentForm.jsx:133-135 | Opening the form for an institution leaves exactly one fresh row, with the given serial number; the error and loading flag are kept. |
| TeamMembers.InitialRecords | src/components/onboarding/forms/TeamMembers.jsx:42-56 | An empty fetched list becomes one blank record. A non-empty list is used as it is. |
| TeamMembers.Form.constructor | src/components/onboarding/forms/TeamMembers.jsx:16-19 | No records, not fetched, loading. |
| TeamMembers.Form.FetchTeamData | src/components/onboarding/forms/TeamMembers.jsx:22-69 | Data is fetched only once. The records are the initial records and are passed to `onChange`. |
| TeamMembers.Form.HandleTeamChange | src/components/onboarding/forms/TeamMembers.jsx:71-77 | Only `field` of the record at `index` changes, and the new list is passed to `onChange`. |
| TeamMembers.Form.AddTeamRecord | src/components/onboarding/forms/TeamMembers.jsx:79-90 | One blank five-field record is appended, and `onChange` is not called. |
| TeamMembers.Form.RemoveTeamRecord | src/components/onboarding/forms/TeamMembers.jsx:92-130 | Offered only while two or more records exist, so one always remains. Without confirmation nothing changes. With it, the record is removed even when the server delete fails or the record has no id. A server delete is requested only for a saved record. |
| AssetsPage.ApplyUpdate | src/pages/Assets/index.jsx:226-239 | Only assets whose id equals the selected id receive the merged fields. All others are unchanged. |
| AssetsPage.DescriptionCell | src/pages/Assets/index.jsx:128-131 | A record without a description makes the cell throw. A description over 40 characters shows its first 40 plus "...". A shorter one shows unchanged. |
| AssetsPage.EmptyReplyChangesNothing | src/pages/Assets/index.jsx:226-239 | Merging an empty reply leaves every asset unchanged. |
| AssetsPage.DeleteAfterUpdate | src/pages/Assets/index.jsx:54-59 | Deleting an id after updating it gives the same list as deleting it directly. |
| AssetsPage.Page.constructor | src/pages/Assets/index.jsx:21-27 | Empty lists, no modals, no selection. |
| AssetsPage.Page.FetchData | src/pages/Assets/index.jsx:81-102 | A request is sent if and only if there is a token, and its result replaces both lists. |
| AssetsPage.Page.HandleView | src/pages/Assets/index.jsx:36-39 | The image modal opens on the clicked asset. |
| AssetsPage.Page.HandleEdit | src/pages/Assets/index.jsx:42-45 | The edit modal opens with the asset selected. |
| AssetsPage.Page.HandleDelete | src/pages/Assets/index.jsx:48-66 | The delete is called with the id and no token. An ok delete removes the id from both lists; a failed one changes nothing. |
| AssetsPage.Page.HandleModalClose | src/pages/Assets/index.jsx:69-72 | Closing the edit modal clears the selection. |
| AssetsPage.Page.HandleImageModalClose | src/pages/Assets/index.jsx:75-78 | Closing the image modal clears the viewed image. |
| AssetsPage.Page.OnSubmit | src/pages/Assets/index.jsx:216-253 | Update merges into the selected asset and create appends to both lists. The modal hides only after a successful save. |
| ContactPage.SaveResult | src/hooks/useAction.js:432-467 | Update with a missing id, data or token throws "Missing required arguments for updateContact". Otherwise the save fails exactly when the server refuses it. |
| ContactPage.SaveCallAsWritten | src/pages/Contact/index.jsx:200-202 | The page's save updates exactly when a contact is selected. An update then throws the missing-arguments error whatever the server says; a create is sent without the token. |
| ContactPage.SaveCallFor | src/pages/Contact/index.jsx:200-202 | With the arguments in place, the save carries the data and the token, an update addresses the selected id, and an edit with an id and a token goes through exactly when the server accepts it. |
| ContactPage.Page.constructor | src/pages/Contact/index.jsx:21-25 | Empty lists, no modal, no selection. |
| ContactPage.Page.FetchData | src/pages/Contact/index.jsx:28-45 | A fetch without a token does nothing. Otherwise the result replaces both lists. |
| ContactPage.Page.HandleAddContact | src/pages/Contact/index.jsx:48-51 | The modal opens with no selection. |
| ContactPage.Page.HandleView | src/pages/Contact/index.jsx:54-57 | The modal opens with the contact selected. |
| ContactPage.Page.HandleEdit | src/pages/Contact/index.jsx:60-63 | The modal opens with the contact selected. |
| ContactPage.Page.HandleDelete | src/pages/Contact/index.jsx:66-81 | The delete is called with the id and no token. An ok delete removes the id from both lists; a failed one changes nothing. |
| ContactPage.Page.HandleModalClose | src/pages/Contact/index.jsx:84-90 | The modal hides, the selection clears, and a refetch is triggered. |
| ContactPage.Page.SaveWith | src/pages/Contact/index.jsx:200-215 | The call is the one the given builder makes. Success closes the modal and refetches; a failure changes nothing. |
| ContactPage.Page.OnSave | src/pages/Contact/index.jsx:200-215 | As written: editing a contact always fails with the missing-arguments error and changes nothing, the modal staying open. Adding one succeeds exactly when the server accepts it, and then closes the modal and refetches. |
| ContactPage.Page.OnSaveAddressed | src/pages/Contact/index.jsx:200-215 | With the arguments in place: an edit of a contact with an id, under a token, succeeds exactly when the server accepts it. Success closes and refetches; failure changes nothing. |
| AdminRoute.Decide | src/routes/AdminRoute.js:9-14 | The children are rendered if and only if a session exists whose top-level role is "admin". Otherwise the user is sent to /login. |
| AdminRoute.UserRoleNotConsulted | src/routes/AdminRoute.js:9 | A session whose user is an admin but which has no top-level role is still redirected. |
| UserAvatar.Initials | src/components/UserAvatar.jsx:13-16 | For every name, the initials are the first character of the text before the first space followed by the first character of the text after the last space; an empty part contributes nothing, so there are at most two characters. |
| UserAvatar.ManyWordInitials | src/components/UserAvatar.jsx:13-16 | A name of three or more words gives the first characters of its first and last words; the middle words are ignored. |
| UserAvatar.LeadingSpaceInitials | src/components/UserAvatar.jsx:13-16 | A name with a leading space has an empty first part, so only the last word's first character is shown. |
| UserAvatar.OneWordInitials | src/components/UserAvatar.jsx:14-16 | A one-word name gives its first character twice. |
| UserAvatar.TwoWordInitials | src/components/UserAvatar.jsx:13-16 | "First Last" gives the first characters of both words. |
| UserAvatar.Render | src/components/UserAvatar.jsx:8-16 | Nothing is rendered without a session or a user. Otherwise the badge shows the user's initials. |
| TaggedInstitutions.TagsOf | src/pages/Assessor/index.jsx:14 | The session user's tags, or [] when there are none. |
| TaggedInstitutions.NameCell | src/pages/Institution/index.jsx:62 | A name over 40 characters shows its first 40 plus "...". A shorter one shows unchanged. |
| TaggedInstitutions.ContactCell | src/pages/Assessor/index.jsx:71 | The contact column is the email, ", " and the phone, in that order. |
| TaggedInstitutions.Page.FetchData | src/pages/Assessor/index.jsx:26-45 | A fetch happens if and only if there is a token and at least one tag. The ok result replaces both lists. |
| LoginPage.RouteFor | src/pages/LoginPage.jsx:39-47 | admin goes to /admin, institution to /institution, and assessor and data-entry to /assessor. Every other role goes to /dashboard. |
| LoginPage.Page.ShowStoredMessage | src/pages/LoginPage.jsx:18-25 | A stored non-empty message is shown and removed, so it is shown once. |
| LoginPage.Page.HandleLogin | src/pages/LoginPage.jsx:27-52 | Success with a user navigates to that user's role page. Success whose reply has no user throws on reading the role and navigates nowhere. Failure shows the message and does not navigate. Processing ends false in every case. |
| SignupPage.InstitutionOption | src/pages/SignupPage.jsx:20-23 | The value is the id, and the label is " (initial- city - state)". |
| SignupPage.InstitutionOptions | src/pages/SignupPage.jsx:20-23 | One option per institution, in order. |
| SignupPage.Payload | src/pages/SignupPage.jsx:43-52 | The registration always has role "data-entry" and createdBy "user", and the form's other fields. |
| SignupPage.Page.HandleFinish | src/pages/SignupPage.jsx:33-64 | Mismatched passwords give "Passwords do not match" and send nothing. Status 200 goes to /login. Any answer's message is shown, and a thrown error is shown with its prefix. Loading ends. |
| SignupPage.FinishAsWritten | src/pages/SignupPage.jsx:3 | `registerUser` is not exported by the auth hook module, so a submission never reaches /login: matching passwords show the "not a function" error. |
| SignupPage.FinishRegistered | src/pages/SignupPage.jsx:53-56 | With the helper bound, matching passwords that the server accepts go to /login and show its message. |
| ResetPassword.Page.CheckToken | src/pages/auth/reset-password.jsx:20-27 | A present token is valid. A missing one is invalid and shows "No token found.". |
| ResetPassword.Page.HandleSubmit | src/pages/auth/reset-password.jsx:29-62 | The token is checked before the passwords, and either failure sends nothing. 200 shows the success message. Other codes and throws show their errors. Loading ends. |
| ResetPassword.NoTokenNeverSends | src/pages/auth/reset-password.jsx:20-37 | A page opened without a token refuses every submission. |
| ResetPassword.SubmitAsWritten | src/pages/auth/reset-password.jsx:3 | `resetPassword` is not exported by the auth hook module, so the success message never appears; a submission past both checks shows the TypeError text with the page's suffix. |
| ResetPassword.SubmitReset | src/pages/auth/reset-password.jsx:45-52 | With the helper bound, a link token and matching passwords that the server accepts show the success message. |
| UserModal.RoleOrAdmin | src/components/modals/UserModal.jsx:61 | The form's role when present and non-empty, otherwise "admin". |
| UserModal.Payload | src/components/modals/UserModal.jsx:57-62 | The payload has every form value and the tags copied in order, with createdBy forced to "admin" and the role defaulted. |
| UserModal.PayloadIdempotent | src/components/modals/UserModal.jsx:57-62 | Building the payload from a payload gives it back unchanged. |
| UserModal.GroupOptions | src/components/modals/UserModal.jsx:68-71 | Exactly 11 options, "Group 1" to "Group 11", each with value equal to label. |
| UserModal.GroupOptionsDistinct | src/components/modals/UserModal.jsx:68-71 | No two group options share a value. |
| UserModal.InstitutionOption | src/components/modals/UserModal.jsx:33-36 | The value is the id, and the label is "name (initial)". |
| UserModal.ModeFor | src/components/modals/UserModal.jsx:15 | Edit mode if and only if a member is given. The title follows the mode, and the password field appears only when creating. |
| UseOnboarding.ActionFor | src/hooks/useOnboarding.js:33-45 | Step 0 maps to the profile entry, 1 to teams and 2 to rooms. Every other step maps to null. |
| UseOnboarding.Endpoint | src/hooks/useOnboarding.js:4-30 | The paths are /auth/users/profile/{id}, /teams/ and /rooms/. |
| UseOnboarding.Method | src/hooks/useOnboarding.js:4-30 | Only the profile step uses PUT. |
| UseOnboarding.Headers | src/hooks/useOnboarding.js:8-10 | The team and rooms headers carry "Bearer " + token. The profile header has the content type only. |
| UseOnboarding.Body | src/hooks/useOnboarding.js:19 | The team and rooms bodies are the data serialised as JSON. The profile entry defines none. |
| UseOnboarding.StepsDistinct | src/hooks/useOnboarding.js:4-30 | The three steps submit to three different endpoints. |
| OnboardingStepContent.Render | src/pages/Onboarding/OnboardingStepContent.jsx:11-28 | Missing steps or an out-of-range step give "Error: Invalid step". A "User Profile" step shows the form wired to the change handler. Every other step is not found. |
| JsText.OrElse | src/pages/BulkUploadPage.jsx:70 | `value \|\| fallback` on text: the value when it is present and non-empty, otherwise the fallback. |
| JsText.Lower | src/pages/Admin/List/InstitutionManagementPage.jsx:47 | Same length, and each character lowercased. |
| JsText.LowerIdempotent | src/pages/Admin/List/InstitutionManagementPage.jsx:47 | Lowercasing twice is lowercasing once. |
| JsText.IncludesAt | src/pages/Admin/List/InstitutionManagementPage.jsx:47 | `includes` holds if and only if the query occurs at some position. |
| JsText.Split | src/hooks/useAction.js:293 | At least one part, and no part contains the separator. |
| JsText.JoinSplit | src/hooks/useAction.js:293 | Joining the parts with the separator gives back the text: splitting loses nothing. |
| JsText.SplitLast | src/components/UserAvatar.jsx:13-15 | The last part of `split(c)` is the text after the last `c`, or the whole text when there is none. |
| JsText.TrimEmptyIffBlank | src/hooks/useAction.js:296 | A part is skipped as blank if and only if all its characters are white space. |
| JsText.NatText | src/components/modals/UserModal.jsx:69 | A number prints as at least one character, and every character is a decimal digit. |
| JsText.RelativeIndex | src/pages/Admin/List/InstitutionManagementPage.jsx:176-179 | A `slice` bound in `0..n` is kept, one above `n` becomes `n`, and a negative one counts back from `n`, stopping at 0. |
| JsText.Slice | src/pages/Admin/List/InstitutionManagementPage.jsx:176-179 | A slice is never longer than its list. With in-range bounds it is exactly `xs[start..end]`, and in general element `i` is the list's element at the resolved start plus `i`. |
| Actions.NoEventsFromEmptyChunks | src/hooks/useAction.js:290-292 | Reads that deliver only empty chunks produce no events. |
| LoginPage.Page.constructor | src/pages/LoginPage.jsx:10-14 | No message, not processing. |
| SignupPage.Page.constructor | src/pages/SignupPage.jsx:13-14 | No error, not loading. |
| ResetPassword.Page.constructor | src/pages/auth/reset-password.jsx:14-17 | The page keeps the token from the address, with no error, no success message, not loading, and the token not yet checked. |
| TaggedInstitutions.Page.constructor | src/pages/Assessor/index.jsx:19-21 | Empty lists, not loading. |
| JsText.NatTextInjective | src/components/modals/UserModal.jsx:69 | Different numbers print differently. |
| JsText.Truncate40 | src/pages/Assets/index.jsx:129-131 | Text of up to 40 characters is unchanged. Longer text becomes its first 40 characters plus "...". |

## Left out

- Network, storage and timers: every `fetch` is replaced by its answer, given as
  an input. `localStorage` is a parameter of the login page's stored message.
  The session hooks are not part of this model.
- `TextDecoder`: chunks are taken as already-decoded text, so a multi-byte
  character split across reads is not modelled.
- `JSON.parse`: a function parameter returning an optional event. A parsed value
  that is not an object is folded into "does not parse".
- `skippedRows`: a value that is not an array is treated as absent. A `null`
  total is treated like a defined one only when the parse function yields it.
- The `setStatus` callback: it is modelled as the trace of events it receives. An
  exception thrown inside it is not modelled.
- Asynchrony: handlers are single sequential steps. Overlapping uploads,
  re-render scheduling and the intermediate `isUploading`/`isProcessing` state
  seen by other components are not modelled.
- Text handling: lowercasing is an ASCII fold. Lengths and slices count UTF-16
  code units as characters.
- Stringifying record fields: `Object.values(...).map(String)` in the all-field
  searches is abstracted as a sequence of field texts.
- Availability: it is modelled by its truthiness.
- `localeCompare` sorters and `toLocaleDateString` columns are not modelled.
- Institution and user deletion and their refetches in the admin list pages are
  not modelled. They only call the server and reload.
- `Math.random` serial numbers: the new row's serial number is a parameter of
  `HandleAddRow` and `HandleSubmit`.
- Server behaviour: `createAsset` and `updateAsset` do not check `response.ok`.
  What they resolve to is an input (`Delivery`), as is the server's acceptance of
  a delete or a contact save.
- EditAssetModal.Modal.HandleSubmit: `updateAsset` resolves to the parsed body,
  and the modal reads `.ok` from that body; `Delivered` stands for a body whose
  `ok` is truthy. The body is `JSON.stringify` of the data argument: the token as
  written, and "{}" for a `FormData` even with the arguments in order, so the image
  never reaches the server. Bodies are not modelled.
- AddEquipmentForm.Sheet.HandleInputChange: requires an index within the rows,
  because the source throws a TypeError on any other index.
- AddEquipmentForm.Sheet.HandleDeleteRow: requires more than one row, because the
  remove control is only rendered then (src/pages/Equipment/addEquipmentForm.jsx:160).
- TeamMembers.Form.RemoveTeamRecord: requires an index within the records,
  because the source reads the record's id first and throws otherwise, and at
  least two records, because the remove control is only rendered then
  (src/components/onboarding/forms/TeamMembers.jsx:148).
- Presentation-only components are not modelled: the modals other than the user
  modal, the layout, the navigation bars and the dashboards. Success notices
  (`message.success`, the "Asset added successfully!" alert) and `console` logging
  are not modelled either; error notices are modelled where a handler sets them.
- Also not modelled:
  - react-router route matching;
  - the superseded upload page;
  - the camera capture page;
  - the onboarding validator, whose body is commented out and always accepts.

## Findings

| source | as written | input that shows it | evidently intended | confidence | as-written member | corrected member |
|---|---|---|---|---|---|---|
| src/pages/Equipment/ListEquipments.jsx:105 | The S/N is `(page-1)*pageSize + index + 1`, but the table receives the whole filtered list with its own paging off (line 176), while a separate Pagination control changes `page`. The same holds in src/pages/Admin/List/ListEquipmentPage.jsx:60 and src/pages/Assets/ListAssetsPage.jsx:97. | page 2, pageSize 10, three items: they are shown numbered 11, 12 and 13, and all three are shown. | Give the table the window of the current page, so each row's number is its position in the list. | not executed | Table.UnpagedTableMisnumbers | Table.PagedTableNumbering |
| src/pages/Contact/index.jsx:202 | `saveContact(contactData)` passes only the data. For an edit, `updateContact(id, data, token)` then sees `id` = the data, and `data` and `token` undefined. | any selected contact: the save throws "Missing required arguments for updateContact". | Call `updateContact(selected.id, contactData, token)` and `createContact(contactData, token)`. | not executed | ContactPage.Page.OnSave | ContactPage.Page.OnSaveAddressed |
| src/pages/Contact/EditAssetModal.jsx:67 | `updateAsset(formData, token)` calls `updateAsset(id, data, token)`, so the form becomes the id, the token becomes the data, and no token is sent. | any asset whose image passes validation: the request goes to "/assets/[object FormData]" under "Bearer undefined". | Call `updateAsset(asset.id, formData, token)`. | not executed | EditAssetModal.Modal.HandleSubmit | EditAssetModal.Modal.HandleSubmitAddressed |
| src/pages/Assets/index.jsx:51 | `deleteAssetById(assetId)` passes no token to `deleteAssetById(id, token)` (src/hooks/useAction.js:347), which sends `Bearer ${token}`. The same holds for `deleteContactById(contactId)` at src/pages/Contact/index.jsx:69 (src/hooks/useAction.js:421). | any signed-in session: the delete is sent with "Bearer undefined". | Pass the page's session token as the second argument. | not executed | Actions.DeleteAsWritten | Actions.DeleteWithToken |
| src/pages/SignupPage.jsx:3 | The page imports `registerUser` from the auth hook module, whose only export is `useAuth` (src/hooks/useAuth.js:3). Under native ES modules the page fails to load; otherwise the name is undefined and the call throws. | matching passwords: no registration is made and /login is never reached. | Import an exported registration helper. | not executed | SignupPage.FinishAsWritten | SignupPage.FinishRegistered |
| src/pages/auth/reset-password.jsx:3 | The page imports `resetPassword` from the same module, which does not export it. | a valid link token and matching passwords: the success message never appears. | Import an exported reset helper. | not executed | ResetPassword.SubmitAsWritten | ResetPassword.SubmitReset |
