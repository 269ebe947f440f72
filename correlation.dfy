/**
 * How the handlers fit together: the metadata the create handler attaches to
 * the upload comes back in the storage notification, where the finalize
 * processor reads it to find the session, and the get handler finds the row
 * the create handler saved.
 */
module Correlation {
  import opened Results
  import opened JsonValue
  import opened PyText
  import opened UploadRecords
  import opened GcsFinalize
  import opened CreateUploadSession
  import opened GetUploadSessionHandler

  /** The request the create handler sends to storage for a body and an id. */
  function RequestFor(body: CreateUploadSessionBody, uploadId: string, bucket: string, origin: Option<string>, tagsJson: string)
    : ResumableRequest
  {
    ResumableRequest(bucket, ObjectKey(body.datastoreId, uploadId, body.filename), body.contentType, origin,
      StorageMetadata(uploadId, body.datastoreId, tagsJson))
  }

  /**
   * The object-finalize notification storage publishes once the upload the
   * request opened completes: bucket, name, content type, the size as decimal
   * text, the checksums and the custom metadata.
   */
  function NotificationFor(req: ResumableRequest, size: int, md5Hash: Json, crc32c: Json): Json
  {
    JObj(map[
      "bucket" := JStr(req.bucket),
      "name" := JStr(req.objectKey),
      "contentType" := JStr(req.contentType),
      "size" := JStr(FormatInt(size)),
      "md5Hash" := md5Hash,
      "crc32c" := crc32c,
      "metadata" := StringObject(req.metadata)])
  }

  /** Each field of the notification as `dict.get` reads it. */
  lemma NotificationFields(req: ResumableRequest, size: int, md5Hash: Json, crc32c: Json)
    ensures var p := NotificationFor(req, size, md5Hash, crc32c).fields;
      && Get(p, "bucket") == JStr(req.bucket)
      && Get(p, "name") == JStr(req.objectKey)
      && Get(p, "contentType") == JStr(req.contentType)
      && Get(p, "size") == JStr(FormatInt(size))
      && Get(p, "md5Hash") == md5Hash
      && Get(p, "crc32c") == crc32c
      && Get(p, "metadata") == StringObject(req.metadata)
  {
  }

  /** Reading a notification object whose fields `dict.get` finds as given. */
  lemma ReadEventOfFields(p: map<string, Json>, bucket: string, name: string, contentType: string, sizeText: string,
                          md5Hash: Json, crc32c: Json, meta: map<string, Json>, datastoreId: string)
    requires bucket != "" && name != "" && datastoreId != ""
    requires Get(p, "bucket") == JStr(bucket) && Get(p, "name") == JStr(name)
    requires Get(p, "contentType") == JStr(contentType) && Get(p, "size") == JStr(sizeText)
    requires Get(p, "md5Hash") == md5Hash && Get(p, "crc32c") == crc32c
    requires Get(p, "metadata") == JObj(meta) && Get(meta, "datastoreId") == JStr(datastoreId)
    ensures ReadFinalizeEvent(JObj(p)) == Ok(FinalizeEvent(
      bucket := JStr(bucket),
      objectKey := name,
      filename := LastSegment(name),
      contentType := if contentType != "" then JStr(contentType) else JStr(DefaultContentType),
      size := SizeOf(OrElse(JStr(sizeText), JStr("0"))),
      md5Hash := md5Hash,
      crc32c := crc32c,
      uploadId := Get(meta, "uploadId"),
      datastoreId := JStr(datastoreId)))
  {
    var payload := JObj(p);
    assert MetadataOf(p) == JObj(meta);
    assert WellShaped(payload) && HasRequiredFields(payload);
    assert OrElse(Get(p, "contentType"), JStr(DefaultContentType))
        == if contentType != "" then JStr(contentType) else JStr(DefaultContentType);
    assert ReadFinalizeEvent(payload) == Ok(EventOf(payload));
  }

  /**
   * A notification with a bucket, an object name and a datastore in its
   * metadata is accepted, and the event carries the request's fields.
   */
  lemma EventOfNotification(req: ResumableRequest, size: int, md5Hash: Json, crc32c: Json)
    requires req.bucket != "" && req.objectKey != ""
    requires "datastoreId" in req.metadata && req.metadata["datastoreId"] != ""
    ensures ReadFinalizeEvent(NotificationFor(req, size, md5Hash, crc32c)) == Ok(FinalizeEvent(
      bucket := JStr(req.bucket),
      objectKey := req.objectKey,
      filename := LastSegment(req.objectKey),
      contentType := if req.contentType != "" then JStr(req.contentType) else JStr(DefaultContentType),
      size := size,
      md5Hash := md5Hash,
      crc32c := crc32c,
      uploadId := Get(StringObject(req.metadata).fields, "uploadId"),
      datastoreId := JStr(req.metadata["datastoreId"])))
  {
    var payload := NotificationFor(req, size, md5Hash, crc32c);
    NotificationFields(req, size, md5Hash, crc32c);
    var meta := StringObject(req.metadata).fields;
    assert Get(meta, "datastoreId") == JStr(req.metadata["datastoreId"]);
    ReadEventOfFields(payload.fields, req.bucket, req.objectKey, req.contentType, FormatInt(size),
      md5Hash, crc32c, meta, req.metadata["datastoreId"]);
    SizeOfDecimal(size);
  }

  /**
   * The notification for a created session is accepted, and the event read
   * from it names that session: its id, datastore, object key and (for a
   * filename without a slash) filename, with the uploaded size.
   */
  lemma NotificationNamesTheSession(body: CreateUploadSessionBody, uploadId: string, bucket: string,
                                    origin: Option<string>, tagsJson: string, size: int, md5Hash: Json, crc32c: Json)
    requires bucket != "" && body.datastoreId != ""
    ensures var r := ReadFinalizeEvent(NotificationFor(RequestFor(body, uploadId, bucket, origin, tagsJson), size, md5Hash, crc32c));
      && r.Ok?
      && r.value.uploadId == JStr(uploadId)
      && r.value.datastoreId == JStr(body.datastoreId)
      && r.value.bucket == JStr(bucket)
      && r.value.objectKey == NewSessionRecord(body, uploadId).objectKey
      && r.value.size == size
      && (body.contentType != "" ==> r.value.contentType == JStr(body.contentType))
      && ('/' !in body.filename ==> r.value.filename == body.filename)
  {
    var req := RequestFor(body, uploadId, bucket, origin, tagsJson);
    assert |req.objectKey| >= |KeyRoot|;
    EventOfNotification(req, size, md5Hash, crc32c);
    ObjectKeyShape(body.datastoreId, uploadId, body.filename);
  }

  /** A routed, enqueued event for a stored session leaves that session's row as it was, with status processing. */
  lemma RoutedSessionIsProcessing(s: Stores, d: Delivery, ev: FinalizeEvent, uploadId: string, topic: string)
    requires ev.uploadId == JStr(uploadId) && uploadId != "" && uploadId in s.sessions
    requires ev.contentType.JStr? && DetectJobTopic(ev.contentType.s) == Some(topic) && !d.enqueueFails
    ensures var r := Route(Register(s, ev, d), ev, d);
      && r.outcome == Acked
      && |r.stores.jobs| == |s.jobs| + 1
      && r.stores.jobs[|s.jobs|].topic == topic
      && r.stores.jobs[|s.jobs|].payload.uploadId == ev.uploadId
      && r.stores.jobs[|s.jobs|].payload.objectKey == ev.objectKey
      && ev.objectKey in r.stores.files && r.stores.files[ev.objectKey].status == FileProcessing
      && uploadId in r.stores.sessions
      && r.stores.sessions[uploadId] == s.sessions[uploadId].(status := Processing)
  {
    var registered := Register(s, ev, d);
    assert registered.sessions == s.sessions[uploadId := s.sessions[uploadId].(status := Uploaded)];
    assert registered.jobs == s.jobs;
  }

  /**
   * End to end: a session the create handler saved, then a delivery of its
   * notification whose content type routes and whose enqueue succeeds. The
   * delivery is acknowledged, exactly one job for that session and file is
   * enqueued, and the session row is the saved one with status processing.
   */
  lemma CreatedUploadIsProcessed(s: Stores, d: Delivery, body: CreateUploadSessionBody, uploadId: string, bucket: string,
                                 origin: Option<string>, tagsJson: string, size: int, md5Hash: Json, crc32c: Json, topic: string)
    requires bucket != "" && body.datastoreId != "" && body.contentType != "" && uploadId != ""
    requires uploadId in s.sessions && s.sessions[uploadId] == NewSessionRecord(body, uploadId)
    requires DecodePubSubBody(d.push, d.codec) == Ok(NotificationFor(RequestFor(body, uploadId, bucket, origin, tagsJson), size, md5Hash, crc32c))
    requires DetectJobTopic(body.contentType) == Some(topic) && !d.enqueueFails
    ensures var r := Finalize(s, d);
      && r.outcome == Acked
      && |r.stores.jobs| == |s.jobs| + 1
      && r.stores.jobs[|s.jobs|].topic == topic
      && r.stores.jobs[|s.jobs|].payload.uploadId == JStr(uploadId)
      && r.stores.jobs[|s.jobs|].payload.objectKey == NewSessionRecord(body, uploadId).objectKey
      && NewSessionRecord(body, uploadId).objectKey in r.stores.files
      && r.stores.files[NewSessionRecord(body, uploadId).objectKey].status == FileProcessing
      && uploadId in r.stores.sessions
      && r.stores.sessions[uploadId] == NewSessionRecord(body, uploadId).(status := Processing)
  {
    NotificationNamesTheSession(body, uploadId, bucket, origin, tagsJson, size, md5Hash, crc32c);
    var ev := ReadDelivery(d).value;
    FinalizeOfEvent(s, d, ev);
    RoutedSessionIsProcessing(s, d, ev, uploadId, topic);
  }

  /** The pdf upload of datastore ds1. */
  const PdfBody := CreateUploadSessionBody("ds1", "a.pdf", "application/pdf", None, None)

  /**
   * The pdf scenario: after creating a session for `a.pdf` in `ds1` and a
   * delivery of its notification, the file is processing, one job is
   * enqueued to process-pdf, and the session is processing.
   */
  lemma PdfUploadScenario(s: Stores, d: Delivery, uploadId: string, bucket: string, origin: Option<string>,
                          tagsJson: string, size: int, md5Hash: Json, crc32c: Json)
    requires bucket != "" && uploadId != "" && !d.enqueueFails
    requires uploadId in s.sessions && s.sessions[uploadId] == NewSessionRecord(PdfBody, uploadId)
    requires DecodePubSubBody(d.push, d.codec) == Ok(NotificationFor(RequestFor(PdfBody, uploadId, bucket, origin, tagsJson), size, md5Hash, crc32c))
    ensures var r := Finalize(s, d);
      var key := NewSessionRecord(PdfBody, uploadId).objectKey;
      && r.outcome == Acked
      && |r.stores.jobs| == |s.jobs| + 1
      && r.stores.jobs[|s.jobs|].topic == PdfTopic
      && key in r.stores.files && r.stores.files[key].status == FileProcessing
      && uploadId in r.stores.sessions && r.stores.sessions[uploadId].status == Processing
  {
    RoutingDocumentExamples();
    CreatedUploadIsProcessed(s, d, PdfBody, uploadId, bucket, origin, tagsJson, size, md5Hash, crc32c, PdfTopic);
  }

  /** The id lookup of the session store. */
  function ById(sessions: map<string, UploadSession>): string -> Option<UploadSession>
  {
    k => Lookup(sessions, k)
  }

  /** After a create, a get by the returned id gives back the saved row, still initiated. */
  lemma GetFindsCreatedSession(sessions: map<string, UploadSession>, body: CreateUploadSessionBody, uploadId: string,
                               getByObjectKey: string -> Option<UploadSession>)
    requires uploadId != ""
    ensures var r := GetUploadSession(map["upload_id" := uploadId], ById(sessions[uploadId := NewSessionRecord(body, uploadId)]), getByObjectKey);
      && r == Ok(NewSessionRecord(body, uploadId))
      && r.value.status == Initiated
  {
    assert Given(map["upload_id" := uploadId], "upload_id");
  }
}
