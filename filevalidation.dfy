/**
 The file validator: a pure decision over a file's declared media type and
 its size in bytes. The type is checked first, so a file that fails both
 checks is reported with the type message.
 */
module FileValidation {
  import opened Types

  /** The exact media types accepted (`ALLOWED_FILE_TYPES`). */
  const AllowedFileTypes: seq<string> := ["application/pdf", "image/jpeg", "image/jpg"]

  /** `MAX_FILE_SIZE`: 5 MiB, inclusive. */
  const MaxFileSize: nat := 5 * 1024 * 1024

  const TypeNotAllowed: string := "Only PDF and JPG files are allowed."
  const TooLarge: string := "The file exceeds the maximum size of 5MB."

  /** `{ valid, error? }`. */
  datatype Validation = Validation(valid: bool, error: Option<string>)

  /** `fileValidate`: valid exactly when the type is on the allow-list and
      the size is at most 5 MiB; an invalid result always explains itself,
      with the type message whenever the type is refused. */
  function FileValidate(file: File): (r: Validation)
    ensures r.valid <==> file.mediaType in AllowedFileTypes && file.size <= 5242880
    ensures r.valid <==> r.error == None
    ensures !r.valid ==> r.error.Some? && r.error.value != []
    ensures file.mediaType !in AllowedFileTypes ==> r.error == Some(TypeNotAllowed)
    ensures file.mediaType in AllowedFileTypes && file.size > MaxFileSize ==> r.error == Some(TooLarge)
  {
    if file.mediaType !in AllowedFileTypes then
      Validation(false, Some(TypeNotAllowed))
    else if file.size > MaxFileSize then
      Validation(false, Some(TooLarge))
    else
      Validation(true, None)
  }

  /** The size limit is inclusive: exactly 5 MiB passes with an allowed
      type, one byte more fails with the size message. */
  lemma SizeBoundary(name: string, mediaType: string)
    requires mediaType in AllowedFileTypes
    ensures FileValidate(File(name, mediaType, 5 * 1024 * 1024)).valid
    ensures FileValidate(File(name, mediaType, 5 * 1024 * 1024 + 1)) == Validation(false, Some(TooLarge))
  {
  }

  /** Membership is exact string equality: no case folding, no other image
      types. */
  lemma ExactTypeMatch(name: string, size: nat)
    ensures !FileValidate(File(name, "image/png", size)).valid
    ensures !FileValidate(File(name, "IMAGE/JPEG", size)).valid
    ensures !FileValidate(File(name, "application/pdf ", size)).valid
  {
  }
}
