/**
 * What the upload forms share: a form field that holds either text or a picked
 * file, the image check the forms run before sending (a real file, of one of
 * three image types), and the ways a form submission can end.
 */
module FormUpload {

  /** A picked file; `mimeType` is its `type`. */
  datatype File = File(name: string, mimeType: string)

  /** A form value: text (an empty field, or an existing image's URL) or a picked file. */
  datatype Value = Text(text: string) | FileValue(file: File)

  const AllowedTypes: seq<string> := ["image/jpeg", "image/png", "image/gif"]

  const InvalidFormat := "Invalid image format. Only JPEG, PNG, and GIF are allowed."

  datatype ImageVerdict = ImageOk | NotAFile | BadFormat

  /** The image check: first that the value is a file, then that its type is allowed. */
  function CheckImage(v: Value): (r: ImageVerdict)
    ensures r == NotAFile <==> !v.FileValue?
    ensures r == BadFormat <==> v.FileValue? && v.file.mimeType !in AllowedTypes
    ensures r == ImageOk <==> v.FileValue? && v.file.mimeType in {"image/jpeg", "image/png", "image/gif"}
  {
    if !v.FileValue? then NotAFile
    else if v.file.mimeType !in AllowedTypes then BadFormat
    else ImageOk
  }

  /**
   * How one request ended: an ok response, a response that was not ok, or a
   * request that threw with a message.
   */
  datatype Delivery = Delivered | NotOk | Threw(message: string)
}
