/** The PDF upload route, `POST /api/upload/pdf`: three validation guards in a
    fixed order, then one stored file keyed by a generated id, an indexing
    call, and removal of that file on every failure after it was written.
    The upload directory is a map from path to bytes; the generated id, the
    outcome of opening and writing the file and of the indexing call, and
    whether removing the file succeeds are parameters. */
module Upload {
  import opened Wrappers
  import opened Text
  import opened Http

  type Bytes = seq<bv8>

  const OnlyPdfDetail := "Only PDF files are allowed"
  const EmptyDetail := "File cannot be empty"
  const UploadDir := "data/uploads"

  /** An exception raised by the write or by the indexing call: either an
      `HTTPException` carrying its own response, or any other exception. */
  datatype Exception = HttpException(response: HttpError) | OtherException(message: string)

  /** How a step that may raise went. */
  datatype Attempt = Completed | Raised(exception: Exception)

  /** How storing the content went: written in full; `open` raised, so no
      file was created; or `open` created (or truncated) the file and the
      write raised, leaving `partial` on disk. */
  datatype WriteOutcome = Written | OpenRaised(exception: Exception) | WriteRaised(partial: Bytes, exception: Exception)

  /** The arguments the route passes to the indexing call. */
  datatype IndexRequest = IndexRequest(filePath: string, documentId: string, filename: string)

  /** The JSON body of a successful upload. */
  datatype UploadReply = UploadReply(message: string, fileId: string, filename: string, status: string)

  /** The largest accepted content length, in bytes. */
  function MaxBytes(maxUploadSizeMb: int): int {
    maxUploadSizeMb * 1024 * 1024
  }

  function TooLargeDetail(maxUploadSizeMb: int): string {
    "File size exceeds maximum limit of " + IntToDecimal(maxUploadSizeMb) + "MB"
  }

  /** The type guard: a filename is present and, lower-cased, ends in ".pdf". */
  predicate IsPdfName(filename: Option<string>) {
    filename.Some? && EndsWith(Lower(filename.value), ".pdf")
  }

  /** The type guard looks only at the last four characters, case-insensitively. */
  lemma IsPdfNameSuffix(name: string)
    ensures IsPdfName(Some(name)) <==>
      |name| >= 4 && Lower(name[|name| - 4..]) == ".pdf"
  {
    var n := |name|;
    if n >= 4 {
      assert Lower(name)[n - 4..] == Lower(name[n - 4..]);
    }
  }

  /** The three guards, in the order the route runs them. `None` means every
      guard passed. */
  function Validate(filename: Option<string>, content: Bytes, maxUploadSizeMb: int): (r: Option<HttpError>)
    ensures r.Some? ==> r.value.status in {BadRequest, PayloadTooLarge}
    ensures r.None? <==> IsPdfName(filename) && 0 < |content| <= MaxBytes(maxUploadSizeMb)
  {
    if !IsPdfName(filename) then Some(HttpError(BadRequest, OnlyPdfDetail))
    else if |content| == 0 then Some(HttpError(BadRequest, EmptyDetail))
    else if |content| > MaxBytes(maxUploadSizeMb) then
      Some(HttpError(PayloadTooLarge, TooLargeDetail(maxUploadSizeMb)))
    else None
  }

  /** The guards report the first failing check: type before emptiness before
      size. The type verdict does not depend on the content at all. */
  lemma ValidationOrder(filename: Option<string>, content: Bytes, other: Bytes, mb: int)
    ensures !IsPdfName(filename) ==>
      Validate(filename, content, mb) == Some(HttpError(BadRequest, OnlyPdfDetail))
      && Validate(filename, other, mb) == Validate(filename, content, mb)
    ensures IsPdfName(filename) && |content| == 0 ==>
      Validate(filename, content, mb) == Some(HttpError(BadRequest, EmptyDetail))
    ensures IsPdfName(filename) && |content| > 0 && |content| > MaxBytes(mb) ==>
      Validate(filename, content, mb) == Some(HttpError(PayloadTooLarge, TooLargeDetail(mb)))
  {
  }

  /** The size check is strict: content of exactly the limit is accepted,
      one byte more is refused with 413. */
  lemma SizeLimitBoundary(name: string, content: Bytes, mb: int)
    requires IsPdfName(Some(name)) && mb > 0
    ensures |content| == MaxBytes(mb) ==> Validate(Some(name), content, mb).None?
    ensures |content| == MaxBytes(mb) + 1 ==>
      Validate(Some(name), content, mb) == Some(HttpError(PayloadTooLarge, TooLargeDetail(mb)))
  {
  }

  /** Where an accepted file is stored: `data/uploads/{file_id}_{filename}`. */
  function StoredPath(fileId: string, filename: string): string {
    UploadDir + "/" + fileId + "_" + filename
  }

  /** The error response for an exception that reaches the route's handlers:
      an `HTTPException` unchanged, anything else as a 500. */
  function ErrorResponse(e: Exception): (r: HttpError)
    ensures e.HttpException? ==> r == e.response
    ensures e.OtherException? ==>
              && r.status == InternalServerError
              && StartsWith(r.detail, "Failed to upload PDF: ")
              && r.detail[|"Failed to upload PDF: "|..] == e.message
  {
    match e
    case HttpException(response) => response
    case OtherException(message) => HttpError(InternalServerError, "Failed to upload PDF: " + message)
  }

  /** The handlers' cleanup: the stored path is removed if it exists, unless
      removing it raises `OSError`, which is ignored. */
  function Cleanup(files: map<string, Bytes>, path: string, unlinkSucceeds: bool): map<string, Bytes> {
    if path in files && unlinkSucceeds then files - {path} else files
  }

  /** Everything one upload produces. */
  datatype UploadEffect = UploadEffect(
    response: Result<UploadReply, HttpError>,
    indexed: Option<IndexRequest>,
    files: map<string, Bytes>)

  /** The route as a function of the upload directory before the request. */
  function UploadPdfSpec(files: map<string, Bytes>, filename: Option<string>, content: Bytes,
                         maxUploadSizeMb: int, fileId: string,
                         write: WriteOutcome, indexing: Attempt, unlinkSucceeds: bool): UploadEffect
  {
    match Validate(filename, content, maxUploadSizeMb)
    case Some(e) => UploadEffect(Failure(e), None, files)
    case None =>
      var path := StoredPath(fileId, filename.value);
      if write.OpenRaised? then
        UploadEffect(Failure(ErrorResponse(write.exception)), None, Cleanup(files, path, unlinkSucceeds))
      else if write.WriteRaised? then
        UploadEffect(Failure(ErrorResponse(write.exception)), None,
                     Cleanup(files[path := write.partial], path, unlinkSucceeds))
      else
        var written := files[path := content];
        var call := IndexRequest(path, fileId, filename.value);
        if indexing.Raised? then
          UploadEffect(Failure(ErrorResponse(indexing.exception)), Some(call), Cleanup(written, path, unlinkSucceeds))
        else
          UploadEffect(
            Success(UploadReply("PDF uploaded and processed successfully", fileId, filename.value, "completed")),
            Some(call), written)
  }

  /** The upload directory before and after differ at most at `path`. */
  ghost predicate OnlyPathChanged(before: map<string, Bytes>, after: map<string, Bytes>, path: string) {
    forall p :: p != path ==> (p in after <==> p in before) && (p in after ==> after[p] == before[p])
  }

  /** A request that fails validation writes nothing and indexes nothing. */
  lemma RejectedWritesNothing(files: map<string, Bytes>, filename: Option<string>, content: Bytes,
                              mb: int, fileId: string, write: WriteOutcome, indexing: Attempt, unlinkSucceeds: bool)
    requires Validate(filename, content, mb).Some?
    ensures var eff := UploadPdfSpec(files, filename, content, mb, fileId, write, indexing, unlinkSucceeds);
      eff.files == files && eff.indexed.None?
      && eff.response == Failure(Validate(filename, content, mb).value)
  {
  }

  /** Only the path keyed by the generated id is ever created or removed. */
  lemma OnlyStoredPathChanges(files: map<string, Bytes>, name: string, content: Bytes,
                              mb: int, fileId: string, write: WriteOutcome, indexing: Attempt, unlinkSucceeds: bool)
    ensures OnlyPathChanged(files,
      UploadPdfSpec(files, Some(name), content, mb, fileId, write, indexing, unlinkSucceeds).files,
      StoredPath(fileId, name))
  {
  }

  /** The upload succeeds exactly when the guards pass and neither the write
      nor the indexing call raises; then the file holds the content under the
      stored path, and the one id is the stored path's key, the indexed
      document's id and the returned `file_id`. */
  lemma SuccessfulUpload(files: map<string, Bytes>, filename: Option<string>, content: Bytes,
                         mb: int, fileId: string, write: WriteOutcome, indexing: Attempt, unlinkSucceeds: bool)
    ensures var eff := UploadPdfSpec(files, filename, content, mb, fileId, write, indexing, unlinkSucceeds);
      eff.response.Success? <==> Validate(filename, content, mb).None? && write.Written? && indexing.Completed?
    ensures var eff := UploadPdfSpec(files, filename, content, mb, fileId, write, indexing, unlinkSucceeds);
      eff.response.Success? ==>
        var path := StoredPath(fileId, filename.value);
        eff.files == files[path := content]
        && eff.indexed == Some(IndexRequest(path, fileId, filename.value))
        && eff.response.value.fileId == fileId
        && eff.response.value.filename == filename.value
        && eff.response.value.status == "completed"
  {
  }

  /** Every failure after validation removes the stored path when removing
      it succeeds, and with a fresh id then leaves the directory as it was.
      When removing it raises, the path keeps what was written: the whole
      content if the indexing call failed, the partial bytes if the write
      failed, and nothing new if `open` failed. HTTP errors pass through;
      any other exception is a 500. */
  lemma FailureCleansUp(files: map<string, Bytes>, name: string, content: Bytes,
                        mb: int, fileId: string, write: WriteOutcome, indexing: Attempt, unlinkSucceeds: bool)
    requires Validate(Some(name), content, mb).None?
    ensures var eff := UploadPdfSpec(files, Some(name), content, mb, fileId, write, indexing, unlinkSucceeds);
      eff.response.Failure? && unlinkSucceeds ==> StoredPath(fileId, name) !in eff.files
    ensures var eff := UploadPdfSpec(files, Some(name), content, mb, fileId, write, indexing, unlinkSucceeds);
      eff.response.Failure? && unlinkSucceeds && StoredPath(fileId, name) !in files ==> eff.files == files
    ensures var eff := UploadPdfSpec(files, Some(name), content, mb, fileId, write, indexing, unlinkSucceeds);
      var path := StoredPath(fileId, name);
      !unlinkSucceeds ==>
        && (write.Written? && indexing.Raised? ==> eff.files == files[path := content])
        && (write.WriteRaised? ==> eff.files == files[path := write.partial])
        && (write.OpenRaised? ==> eff.files == files)
    ensures write.Written? && indexing.Raised? ==>
      UploadPdfSpec(files, Some(name), content, mb, fileId, write, indexing, unlinkSucceeds).response
        == Failure(ErrorResponse(indexing.exception))
    ensures !write.Written? ==>
      UploadPdfSpec(files, Some(name), content, mb, fileId, write, indexing, unlinkSucceeds).response
        == Failure(ErrorResponse(write.exception))
  {
    var path := StoredPath(fileId, name);
    var eff := UploadPdfSpec(files, Some(name), content, mb, fileId, write, indexing, unlinkSucceeds);
    if eff.response.Failure? && unlinkSucceeds && path !in files {
      if write.Written? {
        assert eff.files == files[path := content] - {path};
      } else if write.WriteRaised? {
        assert eff.files == files[path := write.partial] - {path};
      }
      assert eff.files == files;
    }
  }

  /** The uploads directory on disk. */
  class UploadStore {
    var files: map<string, Bytes>

    constructor (initial: map<string, Bytes>)
      ensures files == initial
    {
      files := initial;
    }

    /** `upload_pdf`: validate, write the file, index it, and on any failure
        after validation remove the stored path again. Returns the response and the
        indexing call made, if any. */
    method UploadPdf(filename: Option<string>, content: Bytes, maxUploadSizeMb: int, fileId: string,
                     write: WriteOutcome, indexing: Attempt, unlinkSucceeds: bool)
      returns (response: Result<UploadReply, HttpError>, indexed: Option<IndexRequest>)
      modifies this
      ensures UploadEffect(response, indexed, files)
        == UploadPdfSpec(old(files), filename, content, maxUploadSizeMb, fileId, write, indexing, unlinkSucceeds)
    {
      indexed := None;
      var path: Option<string> := None;
      var raised: Option<Exception> := None;

      if !IsPdfName(filename) {
        return Failure(HttpError(BadRequest, OnlyPdfDetail)), None;
      }
      if |content| == 0 {
        raised := Some(HttpException(HttpError(BadRequest, EmptyDetail)));
      } else if |content| > MaxBytes(maxUploadSizeMb) {
        raised := Some(HttpException(HttpError(PayloadTooLarge, TooLargeDetail(maxUploadSizeMb))));
      } else {
        path := Some(StoredPath(fileId, filename.value));
        if write.OpenRaised? {
          raised := Some(write.exception);
        } else if write.WriteRaised? {
          files := files[path.value := write.partial];
          raised := Some(write.exception);
        } else {
          files := files[path.value := content];
          indexed := Some(IndexRequest(path.value, fileId, filename.value));
          if indexing.Raised? {
            raised := Some(indexing.exception);
          }
        }
      }

      if raised.None? {
        response := Success(UploadReply("PDF uploaded and processed successfully", fileId, filename.value, "completed"));
      } else {
        if path.Some? && path.value in files && unlinkSucceeds {
          files := files - {path.value};
        }
        response := Failure(ErrorResponse(raised.value));
      }
    }
  }
}
