/**
 * The add-photo form: one row (image, caption, description), checked and then sent
 * as a multipart request; a successful submission clears the form.
 */
module AddAssets {
  import opened JsText
  import opened FormUpload

  datatype AssetRow = AssetRow(image: Value, caption: string, description: string)

  const InitialRow := AssetRow(Text(""), "", "")

  const InvalidFile := "Please select a valid image file."
  const SubmitFailed := "Failed to submit asset"

  /** How a submission of `row` ends: `None` when it went through, otherwise the error to show. */
  function SubmitFailure(row: AssetRow, delivery: Delivery): (r: Option<string>)
    ensures CheckImage(row.image) == NotAFile ==> r == Some(InvalidFile)
    ensures CheckImage(row.image) == BadFormat ==> r == Some(InvalidFormat)
    ensures CheckImage(row.image) == ImageOk ==> (r.None? <==> delivery.Delivered?)
    ensures CheckImage(row.image) == ImageOk && delivery.NotOk? ==> r == Some(SubmitFailed)
    ensures CheckImage(row.image) == ImageOk && delivery.Threw? ==> r == Some(delivery.message)
  {
    match CheckImage(row.image)
    case NotAFile => Some(InvalidFile)
    case BadFormat => Some(InvalidFormat)
    case ImageOk =>
      match delivery
      case Delivered => None
      case NotOk => Some(SubmitFailed)
      case Threw(m) => Some(m)
  }

  class Form {
    var row: AssetRow
    var isLoading: bool
    var error: string

    constructor ()
      ensures row == InitialRow && !isLoading && error == ""
    {
      row := InitialRow;
      isLoading := false;
      error := "";
    }

    /** Editing one field of the row. */
    method SetImage(v: Value)
      modifies this
      ensures row == old(row).(image := v) && isLoading == old(isLoading) && error == old(error)
    {
      row := row.(image := v);
    }

    method SetCaption(caption: string)
      modifies this
      ensures row == old(row).(caption := caption) && isLoading == old(isLoading) && error == old(error)
    {
      row := row.(caption := caption);
    }

    method SetDescription(description: string)
      modifies this
      ensures row == old(row).(description := description) && isLoading == old(isLoading) && error == old(error)
    {
      row := row.(description := description);
    }

    /**
     * Submit. The image must be a file, and then of an allowed type, before anything
     * is sent; `delivery` is how the request ended if one was sent. Success clears
     * the form; failure keeps the row and shows the message.
     */
    method HandleSubmit(delivery: Delivery) returns (sent: bool)
      modifies this
      ensures sent <==> CheckImage(old(row).image) == ImageOk
      ensures SubmitFailure(old(row), delivery).None? ==> row == InitialRow && error == ""
      ensures SubmitFailure(old(row), delivery).Some? ==> row == old(row) && error == SubmitFailure(old(row), delivery).value
      ensures !isLoading
    {
      isLoading := true;
      error := "";
      if !row.image.FileValue? {
        error := InvalidFile;
        isLoading := false;
        return false;
      }
      if row.image.file.mimeType !in AllowedTypes {
        error := InvalidFormat;
        isLoading := false;
        return false;
      }
      sent := true;
      match delivery {
        case Delivered =>
          row := InitialRow;
        case NotOk =>
          error := SubmitFailed;
        case Threw(m) =>
          error := m;
      }
      isLoading := false;
    }
  }
}
