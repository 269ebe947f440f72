/**
 * The two stored entities, UploadSession and File, and the failures the
 * HTTP handlers raise.
 */
module UploadRecords {
  import opened Results
  import opened JsonValue

  datatype SessionStatus = Initiated | Authorized | Uploaded | Processing | Ready | Error

  /** One upload session row, as the create handler builds it. */
  datatype UploadSession = UploadSession(
    id: string,
    datastoreId: string,
    filename: string,
    contentType: string,
    sizeEstimate: Option<int>,
    tags: seq<string>,
    objectKey: string,
    status: SessionStatus)

  datatype FileStatus = FileAuthorized | FileProcessing | FileReady | FileError

  /**
   * One File row. The fields the finalize handler copies from the storage
   * notification keep their JSON shape, because the handler passes them on
   * without checking their type; `uploadId` is the link to the session
   * (falsy when unset).
   */
  datatype FileRow = FileRow(
    id: string,
    uploadId: Json,
    datastoreId: Json,
    bucket: Json,
    storageProvider: string,
    objectKey: string,
    filename: string,
    contentType: Json,
    size: int,
    checksumMd5: Json,
    checksumCrc32c: Json,
    metadata: map<string, Json>,
    status: FileStatus)

  /** Every file row is stored under its own object key. */
  predicate RowsAtTheirKeys(files: map<string, FileRow>)
  {
    forall k :: k in files ==> files[k].objectKey == k
  }

  /** Every session row is stored under its own id. */
  predicate SessionsAtTheirIds(sessions: map<string, UploadSession>)
  {
    forall k :: k in sessions ==> sessions[k].id == k
  }

  /** An `HTTPException` with its status code, or an exception no handler catches. */
  datatype HttpFailure = HttpError(code: int, detail: string) | Unhandled(reason: string)
}
