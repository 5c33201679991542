/**
 * The multipart upload stage (multer with in-memory storage): the per-file
 * filter and limits, and the data-URI encoding of accepted files.
 * Decoding of the multipart body and base64 encoding are not modelled: a
 * file arrives as its mimetype, its size in bytes and its base64 payload.
 */
module Upload {
  import opened Wrappers
  import opened Text

  datatype UploadedFile = UploadedFile(mimetype: string, size: nat, payload: string)

  datatype UploadError =
    | UnexpectedFile  // more files than the field's maxCount
    | NotAnImage      // rejected by the file filter
    | FileTooLarge    // over the fileSize limit

  /** limits.fileSize: 5 MB per file. */
  const MaxFileSize: nat := 5 * 1024 * 1024

  /** maxCount of the older create route's `.array("images", 10)`. */
  const ImagesPerRequest: nat := 10

  /** The file filter: only `image/...` mimetypes pass. */
  predicate IsImage(f: UploadedFile) {
    StartsWith(f.mimetype, "image/")
  }

  predicate Acceptable(f: UploadedFile) {
    IsImage(f) && f.size <= MaxFileSize
  }

  /** Files are handled in arrival order; the first failure aborts the upload. */
  function FirstUploadError(files: seq<UploadedFile>, maxCount: Option<nat>, i: nat): Option<UploadError>
    requires i <= |files|
    decreases |files| - i
  {
    if i == |files| then None
    else if maxCount.Some? && i >= maxCount.value then Some(UnexpectedFile)
    else if !IsImage(files[i]) then Some(NotAnImage)
    else if files[i].size > MaxFileSize then Some(FileTooLarge)
    else FirstUploadError(files, maxCount, i + 1)
  }

  lemma {:induction false} FirstUploadErrorNone(files: seq<UploadedFile>, maxCount: Option<nat>, i: nat)
    requires i <= |files|
    requires maxCount.Some? ==> i <= maxCount.value
    ensures FirstUploadError(files, maxCount, i).None? <==>
              (maxCount.Some? ==> |files| <= maxCount.value) &&
              forall j :: i <= j < |files| ==> Acceptable(files[j])
    decreases |files| - i
  {
    if i < |files| && !(maxCount.Some? && i >= maxCount.value) && Acceptable(files[i]) {
      FirstUploadErrorNone(files, maxCount, i + 1);
    }
  }

  /**
   * Runs the upload middleware over the files of one request; None means
   * every file was accepted.
   */
  function ReceiveFiles(files: seq<UploadedFile>, maxCount: Option<nat>): (err: Option<UploadError>)
    ensures err.None? <==>
              (maxCount.Some? ==> |files| <= maxCount.value) &&
              forall j :: 0 <= j < |files| ==> Acceptable(files[j])
  {
    FirstUploadErrorNone(files, maxCount, 0);
    FirstUploadError(files, maxCount, 0)
  }

  /**
   * The upload stage on a request that may not be multipart: without a
   * multipart body multer leaves `req.files` undefined (None) and lets the
   * request through.
   */
  function RequestUploadError(files: Option<seq<UploadedFile>>, maxCount: Option<nat>): Option<UploadError> {
    if files.Some? then ReceiveFiles(files.value, maxCount) else None
  }

  /** How many files a request carries; an undefined `req.files` carries none. */
  function FileCount(files: Option<seq<UploadedFile>>): nat {
    if files.Some? then |files.value| else 0
  }

  /** The data URIs a request contributes; an undefined `req.files` contributes none. */
  function NewImages(files: Option<seq<UploadedFile>>): (images: seq<string>)
    ensures |images| == FileCount(files)
  {
    if files.Some? then DataUris(files.value) else []
  }

  /** `data:<mimetype>;base64,<payload>`, the stored form of one image. */
  function DataUri(f: UploadedFile): string {
    "data:" + f.mimetype + ";base64," + f.payload
  }

  /** `files.map(...)`: one data URI per file, in upload order. */
  function DataUris(files: seq<UploadedFile>): (images: seq<string>)
    ensures |images| == |files|
    ensures forall i :: 0 <= i < |files| ==> images[i] == DataUri(files[i])
  {
    seq(|files|, i requires 0 <= i < |files| => DataUri(files[i]))
  }

  /**
   * With maxCount 10 in force, an accepted upload never carries more than
   * ten images, so a later "more than 10 images" check cannot fire.
   */
  lemma UploadLimitBoundsImages(files: seq<UploadedFile>)
    requires ReceiveFiles(files, Some(ImagesPerRequest)).None?
    ensures |DataUris(files)| <= 10
  {
  }
}
