/**
 * The edit-photo modal: a row prefilled from the asset being edited and re-synced
 * when that asset changes, the same image check as the add form, and an update
 * request whose outcome either refreshes and closes, or shows an error.
 */
module EditAssetModal {
  import opened JsText
  import opened FormUpload

  /** The asset being edited; `image` is its stored image URL. */
  datatype Asset = Asset(id: string, image: string, caption: string, description: string)

  datatype AssetRow = AssetRow(image: Value, caption: string, description: string)

  const InvalidFile := "Please select a valid image file."
  const UpdateFailed := "Failed to update asset"

  /** The row shown for an asset: its fields, or empty fields when there is none. */
  function RowFor(asset: Option<Asset>): (r: AssetRow)
    ensures asset.Some? ==> r.image == Text(asset.value.image) && r.caption == asset.value.caption && r.description == asset.value.description
    ensures asset.None? ==> r == AssetRow(Text(""), "", "")
  {
    if asset.Some? then AssetRow(Text(asset.value.image), asset.value.caption, asset.value.description)
    else AssetRow(Text(""), "", "")
  }

  /** A prefilled row holds the stored image as text, which the image check refuses: an update needs a new upload. */
  lemma PrefilledImageRefused(asset: Option<Asset>)
    ensures CheckImage(RowFor(asset).image) == NotAFile
  {
  }

  /** An argument of the update call, as JavaScript values. */
  datatype Arg = Undefined | Str(s: string) | Form(row: AssetRow, assetId: string)

  function TokenArg(token: Option<string>): Arg {
    if token.Some? then Str(token.value) else Undefined
  }

  /** The update helper's arguments: the asset's id, the data, the session token. */
  datatype UpdateRequest = UpdateRequest(id: Arg, data: Arg, token: Arg)

  /** How an argument prints inside a template string. */
  function ArgText(a: Arg): string {
    match a
    case Undefined => "undefined"
    case Str(t) => t
    case Form(_, _) => "[object FormData]"
  }

  /** The path the update helper requests: `/assets/${id}`. */
  function PathOf(r: UpdateRequest): string {
    "/assets/" + ArgText(r.id)
  }

  /** The `Authorization` header the update helper sends: `Bearer ${token}`. */
  function HeaderOf(r: UpdateRequest): string {
    "Bearer " + ArgText(r.token)
  }

  /**
   * The call as the modal makes it: the form data in the id's place and the token in
   * the data's. The request never addresses the asset and never carries the session
   * token; the token travels as the body instead.
   */
  function RequestAsWritten(row: AssetRow, asset: Asset, token: Option<string>): (r: UpdateRequest)
    ensures PathOf(r) == "/assets/[object FormData]" && r.id != Str(asset.id)
    ensures HeaderOf(r) == "Bearer undefined"
    ensures r.data == TokenArg(token)
  {
    UpdateRequest(Form(row, asset.id), TokenArg(token), Undefined)
  }

  /** The call in the order the update helper takes its arguments: it addresses the edited asset, carries the row and the token. */
  function Request(row: AssetRow, asset: Asset, token: Option<string>): (r: UpdateRequest)
    ensures PathOf(r) == "/assets/" + asset.id && r.id == Str(asset.id)
    ensures token.Some? ==> HeaderOf(r) == "Bearer " + token.value
    ensures r.data == Form(row, asset.id)
  {
    UpdateRequest(Str(asset.id), Form(row, asset.id), TokenArg(token))
  }

  class Modal {
    /** The `asset` the modal was given. */
    var asset: Option<Asset>
    var row: AssetRow
    var isLoading: bool
    var error: string

    constructor (asset0: Option<Asset>)
      ensures asset == asset0 && row == RowFor(asset0)
      ensures !isLoading && error == ""
    {
      asset := asset0;
      row := RowFor(asset0);
      isLoading := false;
      error := "";
    }

    /** A new asset refills the row; a null one leaves the row as it was. */
    method SyncAsset(next: Option<Asset>)
      modifies this
      ensures asset == next
      ensures next.Some? ==> row == RowFor(next)
      ensures next.None? ==> row == old(row)
      ensures isLoading == old(isLoading) && error == old(error)
    {
      asset := next;
      if next.Some? {
        row := RowFor(next);
      }
    }

    method SetImage(v: Value)
      modifies this
      ensures row == old(row).(image := v)
      ensures asset == old(asset) && isLoading == old(isLoading) && error == old(error)
    {
      row := row.(image := v);
    }

    /**
     * Submit through the call `build` makes of the row, the asset and the token. The
     * image must be a file of an allowed type before anything is sent. With no asset,
     * building the form data fails outside the error handling and the modal is left
     * loading. Otherwise the update is sent; `delivery` is how it ended: success
     * refreshes the list and closes the modal, failure shows an error.
     */
    method SubmitWith(build: (AssetRow, Asset, Option<string>) -> UpdateRequest, token: Option<string>, delivery: Delivery)
      returns (request: Option<UpdateRequest>, refreshed: bool, closed: bool)
      modifies this
      ensures CheckImage(old(row).image) == NotAFile ==> error == InvalidFile && request.None? && !isLoading
      ensures CheckImage(old(row).image) == BadFormat ==> error == InvalidFormat && request.None? && !isLoading
      ensures CheckImage(old(row).image) == ImageOk && old(asset).None? ==> request.None? && isLoading && error == ""
      ensures CheckImage(old(row).image) == ImageOk && old(asset).Some? ==>
        && request == Some(build(old(row), old(asset).value, token))
        && !isLoading
        && (refreshed <==> delivery.Delivered?)
        && (delivery.NotOk? ==> error == UpdateFailed)
        && (delivery.Threw? ==> error == delivery.message)
        && (delivery.Delivered? ==> error == "")
      ensures request.None? ==> !refreshed
      ensures closed == refreshed
      ensures row == old(row) && asset == old(asset)
    {
      isLoading := true;
      error := "";
      refreshed, closed := false, false;
      request := None;
      if !row.image.FileValue? {
        error := InvalidFile;
        isLoading := false;
        return;
      }
      if row.image.file.mimeType !in AllowedTypes {
        error := InvalidFormat;
        isLoading := false;
        return;
      }
      if asset.None? {
        return;
      }
      request := Some(build(row, asset.value, token));
      match delivery {
        case Delivered =>
          refreshed, closed := true, true;
        case NotOk =>
          error := UpdateFailed;
        case Threw(m) =>
          error := m;
      }
      isLoading := false;
    }

    /**
     * Submit as the modal does it: once the image passes the check, the update goes
     * to "/assets/[object FormData]" under "Bearer undefined", with the token as its
     * body, whatever asset is being edited.
     */
    method HandleSubmit(token: Option<string>, delivery: Delivery) returns (request: Option<UpdateRequest>, refreshed: bool, closed: bool)
      modifies this
      ensures CheckImage(old(row).image) == NotAFile ==> error == InvalidFile && request.None? && !isLoading
      ensures CheckImage(old(row).image) == BadFormat ==> error == InvalidFormat && request.None? && !isLoading
      ensures CheckImage(old(row).image) == ImageOk && old(asset).None? ==> request.None? && isLoading && error == ""
      ensures CheckImage(old(row).image) == ImageOk && old(asset).Some? ==>
        && request == Some(RequestAsWritten(old(row), old(asset).value, token))
        && PathOf(request.value) == "/assets/[object FormData]"
        && HeaderOf(request.value) == "Bearer undefined"
        && !isLoading
        && (refreshed <==> delivery.Delivered?)
        && (delivery.NotOk? ==> error == UpdateFailed)
        && (delivery.Threw? ==> error == delivery.message)
        && (delivery.Delivered? ==> error == "")
      ensures closed == refreshed
      ensures row == old(row) && asset == old(asset)
    {
      request, refreshed, closed := SubmitWith(RequestAsWritten, token, delivery);
    }

    /** Submit with the update helper's arguments in order: the request addresses the edited asset under the session token. */
    method HandleSubmitAddressed(token: Option<string>, delivery: Delivery) returns (request: Option<UpdateRequest>, refreshed: bool, closed: bool)
      modifies this
      ensures CheckImage(old(row).image) == NotAFile ==> error == InvalidFile && request.None? && !isLoading
      ensures CheckImage(old(row).image) == BadFormat ==> error == InvalidFormat && request.None? && !isLoading
      ensures CheckImage(old(row).image) == ImageOk && old(asset).None? ==> request.None? && isLoading && error == ""
      ensures CheckImage(old(row).image) == ImageOk && old(asset).Some? ==>
        && request == Some(Request(old(row), old(asset).value, token))
        && PathOf(request.value) == "/assets/" + old(asset).value.id
        && (token.Some? ==> HeaderOf(request.value) == "Bearer " + token.value)
        && !isLoading
        && (refreshed <==> delivery.Delivered?)
        && (delivery.NotOk? ==> error == UpdateFailed)
        && (delivery.Threw? ==> error == delivery.message)
        && (delivery.Delivered? ==> error == "")
      ensures closed == refreshed
      ensures row == old(row) && asset == old(asset)
    {
      request, refreshed, closed := SubmitWith(Request, token, delivery);
    }
  }
}
