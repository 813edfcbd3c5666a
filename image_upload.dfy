/**
 * The client-side upload gate of client/src/components/ImageUpload.tsx:
 * `validateFile` and the early return of `handleFileUpload`.
 */
module ImageUpload {
  import opened JsString

  /** The two properties of a browser `File` that the checks read. */
  datatype File = File(mimeType: string, size: nat)

  const AllowedTypes := ["image/jpeg", "image/png", "image/webp"]

  /** 5 MB, written `5 * 1024 * 1024`. */
  const MaxSize: nat := 5 * 1024 * 1024

  const TypeMessage := "Please upload a JPG, PNG, or WEBP image file."
  const SizeMessage := "File size must be less than 5MB."

  /** `validateFile(file)`: the first failing check's message, or `null`. */
  function ValidateFile(file: File): (r: Option<string>)
    ensures r.None? <==> file.mimeType in AllowedTypes && file.size <= MaxSize
  {
    if file.mimeType !in AllowedTypes then Some(TypeMessage)
    else if file.size > MaxSize then Some(SizeMessage)
    else None
  }

  /** What `handleFileUpload` does with a file before any network activity. */
  datatype UploadStep = Rejected(description: string) | StartUpload(file: File)

  /**
   * `handleFileUpload`'s guard: a validation error is shown and the handler
   * returns; uploading starts exactly for a valid file, and for that file.
   */
  function HandleFileUpload(file: File): (r: UploadStep)
    ensures r.StartUpload? <==> ValidateFile(file).None?
    ensures r.StartUpload? ==> r.file == file
    ensures r.Rejected? ==> Some(r.description) == ValidateFile(file)
  {
    var validationError := ValidateFile(file);
    if validationError.Some? then Rejected(validationError.value) else StartUpload(file)
  }

  /**
   * The checks in full: only the three image types pass the type check, the
   * type check wins over the size check, and a file of an allowed type is
   * refused exactly when it is larger than 5,242,880 bytes.
   */
  lemma ValidateFileRules(file: File)
    ensures MaxSize == 5242880
    ensures ValidateFile(file) == Some(TypeMessage) <==> file.mimeType !in AllowedTypes
    ensures ValidateFile(file) == Some(SizeMessage) <==> file.mimeType in AllowedTypes && file.size > MaxSize
    ensures file.mimeType in AllowedTypes <==>
      file.mimeType == "image/jpeg" || file.mimeType == "image/png" || file.mimeType == "image/webp"
  {
    assert |TypeMessage| == 45 && |SizeMessage| == 32;
  }

  /** Exactly 5 MB is accepted and one byte more is refused, for every allowed type. */
  lemma SizeBoundary(mimeType: string)
    requires mimeType in AllowedTypes
    ensures ValidateFile(File(mimeType, 5242880)).None?
    ensures ValidateFile(File(mimeType, 5242881)) == Some(SizeMessage)
  {
  }
}
