/**
 * `CreateUploadSessionHandler`: it needs a raw bucket name to be built, and
 * each request names the object key of the upload, saves an initiated
 * session row, and then asks storage for a resumable upload URL carrying the
 * session's metadata.
 */
module CreateUploadSession {
  import opened Results
  import opened JsonValue
  import opened PyText
  import opened UploadRecords

  const RawBucketEnv := "RAW_BUCKET"

  /** The request body after validation; `tags` is None when the client sent `null`. */
  datatype CreateUploadSessionBody = CreateUploadSessionBody(
    datastoreId: string,
    filename: string,
    contentType: string,
    size: Option<int>,
    tags: Option<seq<string>>)

  /** What reading the body gave: a valid body, or the reason JSON parsing or validation refused it. */
  datatype BodyInput = Parsed(body: CreateUploadSessionBody) | Invalid(reason: string)

  // ---------------------------------------------------------------------------
  // The object key
  // ---------------------------------------------------------------------------

  const KeyRoot := "raw/datastore="
  const UploadsSegment := "/uploads/"

  /** `raw/datastore=<datastore>/uploads/<upload id>/<filename>`. */
  function ObjectKey(datastoreId: string, uploadId: string, filename: string): string
  {
    KeyRoot + datastoreId + UploadsSegment + uploadId + "/" + filename
  }

  /** Every key of a datastore lies under that datastore's uploads prefix, and ends with the filename after a slash. */
  lemma ObjectKeyShape(datastoreId: string, uploadId: string, filename: string)
    ensures HasPrefix(ObjectKey(datastoreId, uploadId, filename), KeyRoot + datastoreId + UploadsSegment)
    ensures '/' !in filename ==> LastSegment(ObjectKey(datastoreId, uploadId, filename)) == filename
  {
    var key := ObjectKey(datastoreId, uploadId, filename);
    assert key == (KeyRoot + datastoreId + UploadsSegment) + (uploadId + "/" + filename);
    if '/' !in filename {
      LastSegmentAfterSlash(KeyRoot + datastoreId + UploadsSegment + uploadId, filename);
    }
  }

  /** In `a + "/" + x` with no slash in `a`, the first slash is at index |a|. */
  lemma FirstSlashAt(a: string, x: string)
    requires '/' !in a
    ensures (a + "/" + x)[|a|] == '/'
    ensures forall i :: 0 <= i < |a| ==> (a + "/" + x)[i] != '/'
  {
    forall i | 0 <= i < |a|
      ensures (a + "/" + x)[i] != '/'
    {
      assert (a + "/" + x)[i] == a[i];
    }
  }

  /** Two strings split at their first slash: the parts before it determine the rest. */
  lemma SplitAtFirstSlash(a: string, x: string, b: string, y: string)
    requires '/' !in a && '/' !in b
    requires a + "/" + x == b + "/" + y
    ensures a == b && x == y
  {
    var l := a + "/" + x;
    var r := b + "/" + y;
    FirstSlashAt(a, x);
    FirstSlashAt(b, y);
    assert l[|a|] == '/' && r[|b|] == '/';
    assert |a| == |b|;
    assert a == l[..|a|] && b == r[..|b|];
    assert x == l[|a| + 1..] && y == r[|b| + 1..];
  }

  /**
   * Within one datastore the key names one upload and one filename: upload
   * ids without a slash never share a key, whatever the filenames. Whether
   * `generate_id` issues slash-free ids is not part of this model, so the
   * absence of a slash is a hypothesis here.
   */
  lemma ObjectKeyDeterminesUpload(datastoreId: string, a: string, filenameA: string, b: string, filenameB: string)
    requires '/' !in a && '/' !in b
    requires ObjectKey(datastoreId, a, filenameA) == ObjectKey(datastoreId, b, filenameB)
    ensures a == b && filenameA == filenameB
  {
    var p := KeyRoot + datastoreId + UploadsSegment;
    assert ObjectKey(datastoreId, a, filenameA) == p + (a + "/" + filenameA);
    assert ObjectKey(datastoreId, b, filenameB) == p + (b + "/" + filenameB);
    assert (p + (a + "/" + filenameA))[|p|..] == a + "/" + filenameA;
    assert (p + (b + "/" + filenameB))[|p|..] == b + "/" + filenameB;
    SplitAtFirstSlash(a, filenameA, b, filenameB);
  }

  /** With a fixed datastore and filename, different upload ids always give different keys. */
  lemma ObjectKeyInjective(datastoreId: string, a: string, b: string, filename: string)
    requires ObjectKey(datastoreId, a, filename) == ObjectKey(datastoreId, b, filename)
    ensures a == b
  {
    var p := KeyRoot + datastoreId + UploadsSegment;
    var ka := ObjectKey(datastoreId, a, filename);
    var kb := ObjectKey(datastoreId, b, filename);
    assert ka == p + a + ("/" + filename);
    assert kb == p + b + ("/" + filename);
    assert |a| == |b|;
    assert a == ka[|p|..|p| + |a|];
    assert b == kb[|p|..|p| + |b|];
  }

  /** The datastore is not recoverable from the key when names may hold slashes: these two keys coincide. */
  lemma ObjectKeyAmbiguousAcrossDatastores()
    ensures ObjectKey("ds", "u1/uploads/u2", "f") == ObjectKey("ds/uploads/u1", "u2", "f")
  {
  }

  // ---------------------------------------------------------------------------
  // The session row and the storage request
  // ---------------------------------------------------------------------------

  /** `body.tags or []`. */
  function TagsOf(body: CreateUploadSessionBody): seq<string>
  {
    if body.tags.Some? then body.tags.value else []
  }

  /** The session row saved before storage is asked for an upload URL. */
  function NewSessionRecord(body: CreateUploadSessionBody, uploadId: string): UploadSession
  {
    UploadSession(
      id := uploadId,
      datastoreId := body.datastoreId,
      filename := body.filename,
      contentType := body.contentType,
      sizeEstimate := body.size,
      tags := TagsOf(body),
      objectKey := ObjectKey(body.datastoreId, uploadId, body.filename),
      status := Initiated)
  }

  /** The custom metadata attached to the uploaded object; `tagsJson` is `json.dumps` of the tags. */
  function StorageMetadata(uploadId: string, datastoreId: string, tagsJson: string): (m: map<string, string>)
    ensures m.Keys == {"uploadId", "datastoreId", "tags"}
    ensures m["uploadId"] == uploadId && m["datastoreId"] == datastoreId && m["tags"] == tagsJson
  {
    map["uploadId" := uploadId, "datastoreId" := datastoreId, "tags" := tagsJson]
  }

  /** One `create_resumable_upload_session` call on a blob. */
  datatype ResumableRequest = ResumableRequest(
    bucket: string,
    objectKey: string,
    contentType: string,
    origin: Option<string>,
    metadata: map<string, string>)

  /** What storage answered: a session URL, or the exception it raised. */
  datatype StorageReply = UrlIssued(url: string) | StorageFailed(reason: string)

  datatype ServiceResponse = ServiceResponse(message: string, statusCode: int, data: Json)

  /** The 201 response: the new session's id, its object key and the upload URL. */
  function CreatedResponse(uploadId: string, objectKey: string, uploadUrl: string): (r: ServiceResponse)
    ensures r.statusCode == 201
    ensures r.data.JObj? && r.data.fields.Keys == {"uploadId", "objectKey", "uploadUrl"}
    ensures r.data.fields["uploadId"] == JStr(uploadId)
    ensures r.data.fields["objectKey"] == JStr(objectKey)
    ensures r.data.fields["uploadUrl"] == JStr(uploadUrl)
  {
    ServiceResponse(
      "Upload session created", 201,
      StringObject(map["uploadId" := uploadId, "objectKey" := objectKey, "uploadUrl" := uploadUrl]))
  }

  class CreateUploadSessionHandler {
    const rawBucket: string
    /** The session rows, keyed by id. */
    var sessions: map<string, UploadSession>
    /** Every resumable-upload request sent to storage, in order. */
    var storageRequests: seq<ResumableRequest>

    predicate Valid()
      reads this
    {
      rawBucket != "" && SessionsAtTheirIds(sessions)
    }

    constructor (rawBucket: string, sessions: map<string, UploadSession>)
      requires rawBucket != "" && SessionsAtTheirIds(sessions)
      ensures this.rawBucket == rawBucket && this.sessions == sessions && storageRequests == []
      ensures Valid()
    {
      this.rawBucket := rawBucket;
      this.sessions := sessions;
      storageRequests := [];
    }

    /**
     * `__init__`: the handler cannot be built unless RAW_BUCKET is set to a
     * non-empty value.
     */
    static method Build(rawBucketEnv: Option<string>, sessions: map<string, UploadSession>)
      returns (r: Result<CreateUploadSessionHandler, HttpFailure>)
      requires SessionsAtTheirIds(sessions)
      ensures r.Err? <==> rawBucketEnv.None? || rawBucketEnv.value == ""
      ensures r.Err? ==> r.error == Unhandled(RawBucketEnv + " env var is required")
      ensures r.Ok? ==>
        fresh(r.value) && r.value.rawBucket == rawBucketEnv.value
        && r.value.sessions == sessions && r.value.storageRequests == [] && r.value.Valid()
    {
      if rawBucketEnv.None? || rawBucketEnv.value == "" {
        return Err(Unhandled(RawBucketEnv + " env var is required"));
      }
      var h := new CreateUploadSessionHandler(rawBucketEnv.value, sessions);
      return Ok(h);
    }

    /** `UploadSessionDAL.save`. */
    method Save(row: UploadSession)
      modifies this
      ensures sessions == old(sessions)[row.id := row]
      ensures storageRequests == old(storageRequests)
    {
      sessions := sessions[row.id := row];
    }

    /** `create_resumable_upload_session` on the blob at the key in the raw bucket. */
    method CreateResumableUploadSession(objectKey: string, contentType: string, origin: Option<string>,
                                        metadata: map<string, string>, reply: StorageReply)
      returns (url: Result<string, HttpFailure>)
      modifies this
      ensures storageRequests == old(storageRequests) + [ResumableRequest(rawBucket, objectKey, contentType, origin, metadata)]
      ensures sessions == old(sessions)
      ensures url == if reply.UrlIssued? then Ok(reply.url) else Err(Unhandled(reply.reason))
    {
      storageRequests := storageRequests + [ResumableRequest(rawBucket, objectKey, contentType, origin, metadata)];
      url := if reply.UrlIssued? then Ok(reply.url) else Err(Unhandled(reply.reason));
    }

    /**
     * `do_process`. An invalid body is a 400 and changes nothing. Otherwise
     * the initiated row is saved first, then storage is asked for the URL:
     * when storage raises, the row stays saved and the error propagates; when
     * it answers, the response is a 201 with the id, the key and the URL.
     * `uploadId` is what `generate_id` issued.
     */
    method DoProcess(input: BodyInput, uploadId: string, origin: Option<string>, reply: StorageReply,
                     dumpTags: seq<string> -> string)
      returns (r: Result<ServiceResponse, HttpFailure>)
      requires Valid()
      modifies this
      ensures Valid()
      ensures input.Invalid? ==>
        r == Err(HttpError(400, "Invalid body: " + input.reason))
        && sessions == old(sessions) && storageRequests == old(storageRequests)
      ensures input.Parsed? ==>
        var body := input.body;
        var key := ObjectKey(body.datastoreId, uploadId, body.filename);
        && sessions == old(sessions)[uploadId := NewSessionRecord(body, uploadId)]
        && storageRequests == old(storageRequests) + [ResumableRequest(
             rawBucket, key, body.contentType, origin,
             StorageMetadata(uploadId, body.datastoreId, dumpTags(TagsOf(body))))]
        && r == if reply.UrlIssued? then Ok(CreatedResponse(uploadId, key, reply.url)) else Err(Unhandled(reply.reason))
    {
      if input.Invalid? {
        return Err(HttpError(400, "Invalid body: " + input.reason));
      }
      var body := input.body;
      var objectKey := ObjectKey(body.datastoreId, uploadId, body.filename);
      Save(NewSessionRecord(body, uploadId));
      var url := CreateResumableUploadSession(objectKey, body.contentType, origin,
        StorageMetadata(uploadId, body.datastoreId, dumpTags(TagsOf(body))), reply);
      if url.Err? {
        return Err(url.error);
      }
      return Ok(CreatedResponse(uploadId, objectKey, url.value));
    }
  }

  /**
   * The saved row is initiated, under the new id, carries the body's fields
   * (the tags defaulted to empty) and the key that names the upload.
   */
  lemma NewSessionRecordIsInitiated(body: CreateUploadSessionBody, uploadId: string)
    ensures var row := NewSessionRecord(body, uploadId);
      && row.status == Initiated && row.id == uploadId
      && row.datastoreId == body.datastoreId && row.filename == body.filename
      && row.contentType == body.contentType && row.sizeEstimate == body.size
      && (body.tags.Some? ==> row.tags == body.tags.value)
      && (body.tags.None? ==> row.tags == [])
      && row.objectKey == ObjectKey(body.datastoreId, uploadId, body.filename)
      && ('/' !in body.filename ==> LastSegment(row.objectKey) == body.filename)
      && HasPrefix(row.objectKey, KeyRoot + body.datastoreId + UploadsSegment)
  {
    ObjectKeyShape(body.datastoreId, uploadId, body.filename);
  }
}
