/**
 * The storage-finalize processor of app/services/gcs_finalize.py: the Pub/Sub
 * envelope, the content-type routing table, the fields read from the
 * notification and, as one function on the two stores and the job log, the
 * whole finalize sequence. The imperative handler in FinalizeHandler is
 * proved to compute exactly this function.
 */
module GcsFinalize {
  import opened Results
  import opened JsonValue
  import opened PyText
  import opened UploadRecords

  // ---------------------------------------------------------------------------
  // Envelope extraction (_decode_pubsub_body)
  // ---------------------------------------------------------------------------

  /**
   * Base64 decoding, UTF-8 decoding and `json.loads`: partial functions the
   * model leaves uninterpreted (None stands for a raised exception).
   */
  datatype Codec = Codec(
    b64Decode: string -> Option<seq<bv8>>,
    utf8Decode: seq<bv8> -> Option<string>,
    jsonLoads: string -> Option<Json>)

  datatype FinalizeError =
    | InvalidPubSubBody      // ValueError("Invalid Pub/Sub body: ...")
    | MalformedPayload       // AttributeError on a value of the wrong JSON type
    | MissingRequiredFields  // ValueError("Missing required fields: ...")
    | EnqueueFailed          // whatever the enqueue callback raised

  /** `json.loads(base64.b64decode(data).decode("utf-8"))`, None when any stage raises. */
  function DecodeData(codec: Codec, data: string): Option<Json>
  {
    match codec.b64Decode(data)
    case None => None
    case Some(bytes) =>
      match codec.utf8Decode(bytes)
      case None => None
      case Some(text) => codec.jsonLoads(text)
  }

  /**
   * `(push_body.get("message") or {}).get("data")`; None when one of the two
   * `.get` calls is made on something that is not a dict.
   */
  function MessageData(push: Json): Option<Json>
  {
    if !push.JObj? then None
    else
      var msg := OrElse(Get(push.fields, "message"), JObj(map[]));
      if msg.JObj? then Some(Get(msg.fields, "data")) else None
  }

  /**
   * `_decode_pubsub_body`: every failure, whatever stage raised it, becomes
   * the one InvalidPubSubBody error; a success is the decoded JSON of a
   * non-empty `message.data` string.
   */
  function DecodePubSubBody(push: Json, codec: Codec): (r: Result<Json, FinalizeError>)
    ensures r.Err? ==> r.error == InvalidPubSubBody
    ensures r.Ok? ==>
      && MessageData(push).Some? && MessageData(push).value.JStr?
      && MessageData(push).value.s != ""
      && DecodeData(codec, MessageData(push).value.s) == Some(r.value)
  {
    match MessageData(push)
    case None => Err(InvalidPubSubBody)
    case Some(data) =>
      if !Truthy(data) then Err(InvalidPubSubBody)     // "Missing message.data"
      else if !data.JStr? then Err(InvalidPubSubBody)  // b64decode rejects a non-string
      else
        match DecodeData(codec, data.s)
        case None => Err(InvalidPubSubBody)
        case Some(payload) => Ok(payload)
  }

  /** A push body as Pub/Sub delivers it. */
  function PushEnvelope(data: string, attributes: Json, messageId: Json, publishTime: Json, subscription: Json): Json
  {
    JObj(map[
      "message" := JObj(map[
        "data" := JStr(data),
        "attributes" := attributes,
        "messageId" := messageId,
        "publishTime" := publishTime]),
      "subscription" := subscription])
  }

  /** Wrapping decodable data in an envelope and extracting it gives the payload back. */
  lemma DecodeEnvelopeRoundTrip(codec: Codec, data: string, payload: Json, attributes: Json, messageId: Json, publishTime: Json, subscription: Json)
    requires data != ""
    requires DecodeData(codec, data) == Some(payload)
    ensures DecodePubSubBody(PushEnvelope(data, attributes, messageId, publishTime, subscription), codec) == Ok(payload)
  {
    var push := PushEnvelope(data, attributes, messageId, publishTime, subscription);
    assert Get(push.fields, "message").fields["data"] == JStr(data);
  }

  /** An absent or falsy `message`, or an absent or falsy `message.data`, is rejected. */
  lemma DecodeRejectsMissingData(push: Json, codec: Codec)
    requires push.JObj?
    requires
      || !Truthy(Get(push.fields, "message"))
      || (Get(push.fields, "message").JObj? && !Truthy(Get(Get(push.fields, "message").fields, "data")))
    ensures DecodePubSubBody(push, codec) == Err(InvalidPubSubBody)
  {
  }

  // ---------------------------------------------------------------------------
  // Routing table (_detect_job_topic)
  // ---------------------------------------------------------------------------

  const PdfTopic := "process-pdf"
  const VideoTopic := "process-video"
  const ImageTopic := "process-image"
  const CsvTopic := "process-csv"

  /** `_detect_job_topic`: the processing topic for a content type, if any. */
  function DetectJobTopic(contentType: string): (r: Option<string>)
    ensures r.Some? ==> r.value in {PdfTopic, VideoTopic, ImageTopic, CsvTopic}
    ensures contentType == "" ==> r == None
  {
    if contentType == "" then None
    else
      var ct := Lower(contentType);
      if HasPrefix(ct, "application/pdf") then Some(PdfTopic)
      else if HasPrefix(ct, "video/") then Some(VideoTopic)
      else if HasPrefix(ct, "image/") then Some(ImageTopic)
      else if ct == "text/csv" || ct == "application/csv" then Some(CsvTopic)
      else None
  }

  /** The routing table as data: ordered rules, the first matching rule wins. */
  datatype Pattern = StartsWith(prefix: string) | Equals(text: string)
  datatype Rule = Rule(pattern: Pattern, topic: string)

  const RoutingTable: seq<Rule> := [
    Rule(StartsWith("application/pdf"), PdfTopic),
    Rule(StartsWith("video/"), VideoTopic),
    Rule(StartsWith("image/"), ImageTopic),
    Rule(Equals("text/csv"), CsvTopic),
    Rule(Equals("application/csv"), CsvTopic)
  ]

  predicate Matches(p: Pattern, ct: string)
  {
    match p
    case StartsWith(prefix) => HasPrefix(ct, prefix)
    case Equals(text) => ct == text
  }

  function FirstMatch(table: seq<Rule>, ct: string): Option<string>
  {
    if table == [] then None
    else if Matches(table[0].pattern, ct) then Some(table[0].topic)
    else FirstMatch(table[1..], ct)
  }

  /** The topic of a non-empty content type is the first rule of the table matching its lower-cased form. */
  lemma DetectJobTopicIsFirstMatch(contentType: string)
    ensures DetectJobTopic(contentType) == if contentType == "" then None else FirstMatch(RoutingTable, Lower(contentType))
  {
    var ct := Lower(contentType);
    var t1 := RoutingTable[1..];
    var t2 := t1[1..];
    var t3 := t2[1..];
    var t4 := t3[1..];
    assert t4 == [Rule(Equals("application/csv"), CsvTopic)];
    assert t4[1..] == [];
    assert FirstMatch(t4, ct) == if ct == "application/csv" then Some(CsvTopic) else None;
    assert FirstMatch(t3, ct) == if ct == "text/csv" then Some(CsvTopic) else FirstMatch(t4, ct);
    assert FirstMatch(t2, ct) == if HasPrefix(ct, "image/") then Some(ImageTopic) else FirstMatch(t3, ct);
    assert FirstMatch(t1, ct) == if HasPrefix(ct, "video/") then Some(VideoTopic) else FirstMatch(t2, ct);
  }

  /** Routing does not depend on letter case. */
  lemma DetectJobTopicIgnoresCase(contentType: string)
    ensures DetectJobTopic(Lower(contentType)) == DetectJobTopic(contentType)
  {
    LowerIdempotent(contentType);
  }

  /** Routing examples with lower-case document types: the pdf prefix rule and the exact CSV rule. */
  lemma RoutingDocumentExamples()
    ensures DetectJobTopic("application/pdf") == Some(PdfTopic)
    ensures DetectJobTopic("text/csv") == Some(CsvTopic)
  {
    var pdf := Lower("application/pdf");
    assert pdf[0] == 'a' && pdf[1] == 'p' && pdf[2] == 'p' && pdf[3] == 'l' && pdf[4] == 'i';
    assert pdf[5] == 'c' && pdf[6] == 'a' && pdf[7] == 't' && pdf[8] == 'i' && pdf[9] == 'o';
    assert pdf[10] == 'n' && pdf[11] == '/' && pdf[12] == 'p' && pdf[13] == 'd' && pdf[14] == 'f';
    var csv := Lower("text/csv");
    assert csv[0] == 't' && csv[1] == 'e' && csv[2] == 'x' && csv[3] == 't';
    assert csv[4] == '/' && csv[5] == 'c' && csv[6] == 's' && csv[7] == 'v';
  }

  /** Routing examples with lower-case media types: the image and video prefix rules. */
  lemma RoutingMediaExamples()
    ensures DetectJobTopic("image/png") == Some(ImageTopic)
    ensures DetectJobTopic("video/mp4") == Some(VideoTopic)
  {
    var png := Lower("image/png");
    assert png[0] == 'i' && png[1] == 'm' && png[2] == 'a' && png[3] == 'g' && png[4] == 'e' && png[5] == '/';
    var mp4 := Lower("video/mp4");
    assert mp4[0] == 'v' && mp4[1] == 'i' && mp4[2] == 'd' && mp4[3] == 'e' && mp4[4] == 'o' && mp4[5] == '/';
  }

  /** Matching ignores case and prefix rules tolerate parameters: `APPLICATION/PDF; x` routes to pdf. */
  lemma RoutingUpperCasePdf()
    ensures DetectJobTopic("APPLICATION/PDF; x") == Some(PdfTopic)
  {
    var ct := Lower("APPLICATION/PDF; x");
    assert ct[0] == 'a' && ct[1] == 'p' && ct[2] == 'p' && ct[3] == 'l' && ct[4] == 'i';
    assert ct[5] == 'c' && ct[6] == 'a' && ct[7] == 't' && ct[8] == 'i' && ct[9] == 'o';
    assert ct[10] == 'n' && ct[11] == '/' && ct[12] == 'p' && ct[13] == 'd' && ct[14] == 'f';
  }

  /** The CSV rules compare the whole type, so a CSV type with parameters is not routed. */
  lemma RoutingParameterisedCsv()
    ensures DetectJobTopic("text/csv; charset=utf-8") == None
  {
    var csv := Lower("text/csv; charset=utf-8");
    assert csv[0] == 't';
  }

  /** The generic octet-stream type is not routed. */
  lemma RoutingOctetStream()
    ensures DetectJobTopic("application/octet-stream") == None
  {
    var octet := Lower("application/octet-stream");
    assert octet[0] == 'a' && octet[12] == 'o';
  }

  // ---------------------------------------------------------------------------
  // Fields read from the notification, with their defaults
  // ---------------------------------------------------------------------------

  const DefaultContentType := "application/octet-stream"

  /** What the handler extracts from a decoded notification (lines 88-111). */
  datatype FinalizeEvent = FinalizeEvent(
    bucket: Json,
    objectKey: string,
    filename: string,
    contentType: Json,
    size: int,
    md5Hash: Json,
    crc32c: Json,
    uploadId: Json,
    datastoreId: Json)

  /** `int(size_str)`, with 0 when `int` raises. */
  function SizeOf(v: Json): int
  {
    match v
    case JInt(i) => i
    case JBool(b) => if b then 1 else 0
    case JStr(s) => ParseInt(s).GetOr(0)
    case _ => 0
  }

  /** `payload.get("metadata") or {}`. */
  function MetadataOf(p: map<string, Json>): Json
  {
    OrElse(Get(p, "metadata"), JObj(map[]))
  }

  /**
   * The payload is a dict, its metadata (after `or {}`) is a dict, and a
   * truthy `name` is a string: otherwise a `.get` or the `.rsplit` of lines
   * 88-101 raises.
   */
  predicate WellShaped(payload: Json)
  {
    && payload.JObj?
    && MetadataOf(payload.fields).JObj?
    && (Truthy(Get(payload.fields, "name")) ==> Get(payload.fields, "name").JStr?)
  }

  /** Line 103: bucket, name and metadata.datastoreId are all truthy. */
  predicate HasRequiredFields(payload: Json)
    requires WellShaped(payload)
  {
    && Truthy(Get(payload.fields, "bucket"))
    && Truthy(Get(payload.fields, "name"))
    && Truthy(Get(MetadataOf(payload.fields).fields, "datastoreId"))
  }

  /** Lines 88-111: the fields of a payload that passed both checks, with their defaults. */
  function EventOf(payload: Json): (ev: FinalizeEvent)
    requires WellShaped(payload) && HasRequiredFields(payload)
    ensures Truthy(ev.bucket) && ev.objectKey != "" && Truthy(ev.datastoreId) && Truthy(ev.contentType)
    ensures ev.filename == LastSegment(ev.objectKey)
  {
    var p := payload.fields;
    var meta := MetadataOf(p).fields;
    FinalizeEvent(
      bucket := Get(p, "bucket"),
      objectKey := Get(p, "name").s,
      filename := LastSegment(Get(p, "name").s),
      contentType := OrElse(Get(p, "contentType"), JStr(DefaultContentType)),
      size := SizeOf(OrElse(Get(p, "size"), JStr("0"))),
      md5Hash := Get(p, "md5Hash"),
      crc32c := Get(p, "crc32c"),
      uploadId := Get(meta, "uploadId"),
      datastoreId := Get(meta, "datastoreId"))
  }

  /**
   * Lines 88-111 with the check of line 103: a payload of the wrong shape
   * raises, a falsy bucket, name or datastoreId is the missing-fields error.
   */
  function ReadFinalizeEvent(payload: Json): (r: Result<FinalizeEvent, FinalizeError>)
    ensures r.Err? ==> r.error == MalformedPayload || r.error == MissingRequiredFields
    ensures r.Ok? <==> WellShaped(payload) && HasRequiredFields(payload)
  {
    if !WellShaped(payload) then Err(MalformedPayload)
    else if !HasRequiredFields(payload) then Err(MissingRequiredFields)
    else Ok(EventOf(payload))
  }

  /** A well-shaped payload missing one of bucket, name or metadata.datastoreId is the missing-fields error. */
  lemma MissingRequiredFieldsRejected(payload: Json)
    requires payload.JObj? && MetadataOf(payload.fields).JObj?
    requires Get(payload.fields, "name").JStr? || !Truthy(Get(payload.fields, "name"))
    requires
      || !Truthy(Get(payload.fields, "bucket"))
      || !Truthy(Get(payload.fields, "name"))
      || !Truthy(Get(MetadataOf(payload.fields).fields, "datastoreId"))
    ensures ReadFinalizeEvent(payload) == Err(MissingRequiredFields)
  {
  }

  /** A missing or falsy contentType becomes application/octet-stream, which no rule routes. */
  lemma MissingContentTypeRoutesNowhere(payload: Json)
    requires ReadFinalizeEvent(payload).Ok?
    requires !Truthy(Get(payload.fields, "contentType"))
    ensures ReadFinalizeEvent(payload).value.contentType == JStr(DefaultContentType)
    ensures DetectJobTopic(DefaultContentType) == None
  {
    RoutingOctetStream();
  }

  /** A missing size, or one that `int` cannot convert, becomes 0. */
  lemma UnreadableSizeIsZero(payload: Json)
    requires ReadFinalizeEvent(payload).Ok?
    requires
      var v := Get(payload.fields, "size");
      v.JNull? || v.JArr? || v.JObj? || (v.JStr? && ParseInt(v.s).None?)
    ensures ReadFinalizeEvent(payload).value.size == 0
  {
    UnreadableSizeValueIsZero(Get(payload.fields, "size"));
  }

  /** `int(v or "0")` for a value `int` cannot convert, or a missing one. */
  lemma UnreadableSizeValueIsZero(v: Json)
    requires v.JNull? || v.JArr? || v.JObj? || (v.JStr? && ParseInt(v.s).None?)
    ensures SizeOf(OrElse(v, JStr("0"))) == 0
  {
    ParseFormatInt(0);
    assert FormatInt(0) == "0";
  }

  /** A size padded with \x1c, which `int` does not skip, falls back to 0. */
  lemma SeparatorPaddedSizeIsZero()
    ensures SizeOf(OrElse(JStr("\U{1C}5"), JStr("0"))) == 0
  {
    ParseIntRefusesLeadingSeparator("\U{1C}5");
  }

  /** A size that is the decimal text of a number is read as that number. */
  lemma DecimalSizeIsParsed(payload: Json, n: int)
    requires ReadFinalizeEvent(payload).Ok?
    requires Get(payload.fields, "size") == JStr(FormatInt(n))
    ensures ReadFinalizeEvent(payload).value.size == n
  {
    SizeOfDecimal(n);
  }

  /** `int(v or "0")` for the decimal text of a size is that size. */
  lemma SizeOfDecimal(n: int)
    ensures OrElse(JStr(FormatInt(n)), JStr("0")) == JStr(FormatInt(n))
    ensures SizeOf(JStr(FormatInt(n))) == n
  {
    ParseFormatInt(n);
    assert FormatNat(if n < 0 then -n else n) != "";
  }

  // ---------------------------------------------------------------------------
  // The finalize sequence (handle_gcs_finalize_push) on the stores
  // ---------------------------------------------------------------------------

  /** The payload of a processing job (lines 143-152). */
  datatype JobPayload = JobPayload(
    uploadId: Json,
    fileId: string,
    datastoreId: Json,
    bucket: Json,
    objectKey: string,
    contentType: string,
    size: int,
    receivedAt: int)

  datatype Job = Job(topic: string, payload: JobPayload)

  /** The file store keyed by object key, the session store keyed by id, and the log of enqueued jobs. */
  datatype Stores = Stores(files: map<string, FileRow>, sessions: map<string, UploadSession>, jobs: seq<Job>)

  /**
   * One delivery: the push body and the decoders, plus what the unseen
   * collaborators decide: the id and link the store gives a newly created file
   * row, the clock reading, and whether the enqueue callback raises.
   */
  datatype Delivery = Delivery(
    push: Json,
    codec: Codec,
    newFileId: string,
    newFileLink: Json,
    now: int,
    enqueueFails: bool)

  datatype Outcome = Acked | Failed(error: FinalizeError)

  datatype Step = Step(stores: Stores, outcome: Outcome)

  /** Decoding and field reading together: everything before the first store call. */
  function ReadDelivery(d: Delivery): Result<FinalizeEvent, FinalizeError>
  {
    match DecodePubSubBody(d.push, d.codec)
    case Err(e) => Err(e)
    case Ok(payload) => ReadFinalizeEvent(payload)
  }

  /**
   * The assumed effect of `create_or_update_from_finalize` (a library the
   * model cannot see): the row at the object key carries the notification's
   * fields and status processing; an existing row keeps its id and its
   * session link, a new row gets the id and link the store chose.
   */
  function UpsertedRow(existing: Option<FileRow>, ev: FinalizeEvent, newId: string, newLink: Json): FileRow
  {
    FileRow(
      id := if existing.Some? then existing.value.id else newId,
      uploadId := if existing.Some? then existing.value.uploadId else newLink,
      datastoreId := ev.datastoreId,
      bucket := ev.bucket,
      storageProvider := "gcs",
      objectKey := ev.objectKey,
      filename := ev.filename,
      contentType := ev.contentType,
      size := ev.size,
      checksumMd5 := ev.md5Hash,
      checksumCrc32c := ev.crc32c,
      metadata := map[],
      status := FileProcessing)
  }

  /**
   * `mark_uploaded`, `mark_processing`, `mark_ready`: set the status of the
   * session row the id names; an id that names no row changes nothing.
   */
  function SetSessionStatus(sessions: map<string, UploadSession>, uploadId: Json, status: SessionStatus): map<string, UploadSession>
  {
    if uploadId.JStr? && uploadId.s in sessions then sessions[uploadId.s := sessions[uploadId.s].(status := status)]
    else sessions
  }

  /** Steps 1 and 2 (lines 117-138): upsert the file, mark the session uploaded, link the file once. */
  function Register(s: Stores, ev: FinalizeEvent, d: Delivery): Stores
  {
    var row := UpsertedRow(Lookup(s.files, ev.objectKey), ev, d.newFileId, d.newFileLink);
    var sessions := if Truthy(ev.uploadId) then SetSessionStatus(s.sessions, ev.uploadId, Uploaded) else s.sessions;
    var linked := if Truthy(ev.uploadId) && !Truthy(row.uploadId) then row.(uploadId := ev.uploadId) else row;
    Stores(s.files[ev.objectKey := linked], sessions, s.jobs)
  }

  function JobFor(ev: FinalizeEvent, fileId: string, contentType: string, now: int): JobPayload
  {
    JobPayload(ev.uploadId, fileId, ev.datastoreId, ev.bucket, ev.objectKey, contentType, ev.size, now)
  }

  /** Step 3 (lines 141-166): route by content type, then enqueue or mark ready. */
  function Route(s: Stores, ev: FinalizeEvent, d: Delivery): Step
    requires ev.objectKey in s.files
  {
    var row := s.files[ev.objectKey];
    if !ev.contentType.JStr? then Step(s, Failed(MalformedPayload))  // `.lower()` on a non-string
    else
      match DetectJobTopic(ev.contentType.s)
      case Some(topic) =>
        if d.enqueueFails then Step(s, Failed(EnqueueFailed))
        else
          var jobs := s.jobs + [Job(topic, JobFor(ev, row.id, ev.contentType.s, d.now))];
          var sessions := if Truthy(ev.uploadId) then SetSessionStatus(s.sessions, ev.uploadId, Processing) else s.sessions;
          Step(Stores(s.files, sessions, jobs), Acked)
      case None =>
        var files := s.files[ev.objectKey := row.(status := FileReady)];
        var sessions := if Truthy(ev.uploadId) then SetSessionStatus(s.sessions, ev.uploadId, Ready) else s.sessions;
        Step(Stores(files, sessions, s.jobs), Acked)
  }

  /** `handle_gcs_finalize_push` as a function of the stores before the delivery. */
  function Finalize(s: Stores, d: Delivery): Step
  {
    match ReadDelivery(d)
    case Err(e) => Step(s, Failed(e))
    case Ok(ev) => Route(Register(s, ev, d), ev, d)
  }

  // ---------------------------------------------------------------------------
  // Properties of the finalize sequence
  // ---------------------------------------------------------------------------

  /** A session status update touches at most the row the id names. */
  lemma SetSessionStatusIsLocal(sessions: map<string, UploadSession>, uploadId: Json, status: SessionStatus)
    ensures var r := SetSessionStatus(sessions, uploadId, status);
      && r.Keys == sessions.Keys
      && (forall k :: k in sessions && uploadId != JStr(k) ==> r[k] == sessions[k])
      && (uploadId.JStr? && uploadId.s in sessions ==> r[uploadId.s] == sessions[uploadId.s].(status := status))
  {
  }

  /** Setting a session's status twice is setting it to the second value. */
  lemma SetSessionStatusTwice(sessions: map<string, UploadSession>, uploadId: Json, a: SessionStatus, b: SessionStatus)
    ensures SetSessionStatus(SetSessionStatus(sessions, uploadId, a), uploadId, b) == SetSessionStatus(sessions, uploadId, b)
  {
  }

  /** The routing step changes the status of the file at the key and nothing else about any file. */
  lemma RouteChangesOnlyStatuses(s: Stores, ev: FinalizeEvent, d: Delivery)
    requires ev.objectKey in s.files
    ensures var r := Route(s, ev, d).stores;
      && r.files.Keys == s.files.Keys
      && (forall k :: k in s.files && k != ev.objectKey ==> r.files[k] == s.files[k])
      && r.files[ev.objectKey] == s.files[ev.objectKey].(status := r.files[ev.objectKey].status)
      && r.sessions.Keys == s.sessions.Keys
      && (forall k :: k in s.sessions && ev.uploadId != JStr(k) ==> r.sessions[k] == s.sessions[k])
      && s.jobs <= r.jobs && |r.jobs| <= |s.jobs| + 1
  {
    SetSessionStatusIsLocal(s.sessions, ev.uploadId, Processing);
    SetSessionStatusIsLocal(s.sessions, ev.uploadId, Ready);
  }

  /** A delivery rejected before the upsert (bad envelope, missing fields) changes no row and enqueues nothing. */
  lemma RejectedDeliveryChangesNothing(s: Stores, d: Delivery)
    requires ReadDelivery(d).Err?
    ensures Finalize(s, d) == Step(s, Failed(ReadDelivery(d).error))
    ensures ReadDelivery(d).error != EnqueueFailed
  {
  }

  /**
   * The session link after a delivery: the link the upserted row already had
   * when it is truthy (set once, never overwritten), else the notification's
   * uploadId when that is truthy, else unchanged.
   */
  lemma LinkIsSetOnce(s: Stores, d: Delivery, ev: FinalizeEvent)
    requires ReadDelivery(d) == Ok(ev)
    ensures var prior := if ev.objectKey in s.files then s.files[ev.objectKey].uploadId else d.newFileLink;
      && ev.objectKey in Finalize(s, d).stores.files
      && Finalize(s, d).stores.files[ev.objectKey].uploadId ==
           if Truthy(prior) then prior else if Truthy(ev.uploadId) then ev.uploadId else prior
  {
    var registered := Register(s, ev, d);
    assert Finalize(s, d) == Route(registered, ev, d);
    RouteChangesOnlyStatuses(registered, ev, d);
  }

  /** The file at the object key after a delivery carries the notification's fields and, unless it was marked ready, status processing. */
  lemma FileRowReflectsNotification(s: Stores, d: Delivery, ev: FinalizeEvent)
    requires ReadDelivery(d) == Ok(ev)
    ensures var row := Finalize(s, d).stores.files[ev.objectKey];
      && row.objectKey == ev.objectKey && row.bucket == ev.bucket && row.datastoreId == ev.datastoreId
      && row.contentType == ev.contentType && row.size == ev.size && row.filename == ev.filename
      && row.checksumMd5 == ev.md5Hash && row.checksumCrc32c == ev.crc32c
      && row.id == (if ev.objectKey in s.files then s.files[ev.objectKey].id else d.newFileId)
      && (row.status == FileReady <==> Finalize(s, d).outcome == Acked && DetectJobTopic(ev.contentType.s).None?)
      && (row.status != FileReady ==> row.status == FileProcessing)
  {
    var registered := Register(s, ev, d);
    assert Finalize(s, d) == Route(registered, ev, d);
    RouteChangesOnlyStatuses(registered, ev, d);
  }

  /**
   * A routed delivery whose enqueue succeeds appends exactly one job, to the
   * routed topic, with the notification's fields, and moves the session to
   * processing; the file stays processing.
   */
  lemma RoutedDeliveryEnqueuesOneJob(s: Stores, d: Delivery, ev: FinalizeEvent, topic: string)
    requires ReadDelivery(d) == Ok(ev)
    requires ev.contentType.JStr? && DetectJobTopic(ev.contentType.s) == Some(topic)
    requires !d.enqueueFails
    ensures var r := Finalize(s, d);
      && r.outcome == Acked
      && r.stores.jobs == s.jobs + [Job(topic, JobPayload(
           uploadId := ev.uploadId,
           fileId := r.stores.files[ev.objectKey].id,
           datastoreId := ev.datastoreId,
           bucket := ev.bucket,
           objectKey := ev.objectKey,
           contentType := ev.contentType.s,
           size := ev.size,
           receivedAt := d.now))]
      && r.stores.files[ev.objectKey].status == FileProcessing
      && (Truthy(ev.uploadId) && ev.uploadId.JStr? && ev.uploadId.s in s.sessions ==>
            r.stores.sessions[ev.uploadId.s].status == Processing)
  {
    var registered := Register(s, ev, d);
    assert Finalize(s, d) == Route(registered, ev, d);
    SetSessionStatusIsLocal(registered.sessions, ev.uploadId, Processing);
  }

  /**
   * When the enqueue callback raises, the delivery fails, no job is logged and
   * the session is left uploaded, never processing.
   */
  lemma EnqueueFailureLeavesSessionUploaded(s: Stores, d: Delivery, ev: FinalizeEvent)
    requires ReadDelivery(d) == Ok(ev)
    requires ev.contentType.JStr? && DetectJobTopic(ev.contentType.s).Some?
    requires d.enqueueFails
    ensures var r := Finalize(s, d);
      && r.outcome == Failed(EnqueueFailed)
      && r.stores.jobs == s.jobs
      && r.stores.files[ev.objectKey].status == FileProcessing
      && (Truthy(ev.uploadId) && ev.uploadId.JStr? && ev.uploadId.s in s.sessions ==>
            r.stores.sessions[ev.uploadId.s].status == Uploaded)
  {
    var registered := Register(s, ev, d);
    assert Finalize(s, d) == Route(registered, ev, d);
    SetSessionStatusIsLocal(s.sessions, ev.uploadId, Uploaded);
  }

  /** A delivery no rule routes enqueues nothing and marks the file and the session ready. */
  lemma UnroutedDeliveryMarksReady(s: Stores, d: Delivery, ev: FinalizeEvent)
    requires ReadDelivery(d) == Ok(ev)
    requires ev.contentType.JStr? && DetectJobTopic(ev.contentType.s).None?
    ensures var r := Finalize(s, d);
      && r.outcome == Acked
      && r.stores.jobs == s.jobs
      && r.stores.files[ev.objectKey].status == FileReady
      && (Truthy(ev.uploadId) && ev.uploadId.JStr? && ev.uploadId.s in s.sessions ==>
            r.stores.sessions[ev.uploadId.s].status == Ready)
  {
    var registered := Register(s, ev, d);
    assert Finalize(s, d) == Route(registered, ev, d);
    SetSessionStatusIsLocal(registered.sessions, ev.uploadId, Ready);
  }

  /**
   * A truthy contentType that is not a string raises in `.lower()` after the
   * upsert and the session update: the delivery fails with the file row
   * written, the session uploaded and no job logged.
   */
  lemma NonStringContentTypeFailsAfterUpsert(s: Stores, d: Delivery, ev: FinalizeEvent)
    requires ReadDelivery(d) == Ok(ev)
    requires !ev.contentType.JStr?
    ensures var r := Finalize(s, d);
      && r.outcome == Failed(MalformedPayload)
      && r.stores.jobs == s.jobs
      && ev.objectKey in r.stores.files && r.stores.files[ev.objectKey].status == FileProcessing
      && (Truthy(ev.uploadId) && ev.uploadId.JStr? && ev.uploadId.s in s.sessions ==>
            r.stores.sessions[ev.uploadId.s].status == Uploaded)
  {
    var registered := Register(s, ev, d);
    assert Finalize(s, d) == Route(registered, ev, d);
    SetSessionStatusIsLocal(s.sessions, ev.uploadId, Uploaded);
  }

  /** Once the event is read, a delivery is the registration step followed by the routing step. */
  lemma FinalizeOfEvent(s: Stores, d: Delivery, ev: FinalizeEvent)
    requires ReadDelivery(d) == Ok(ev)
    ensures Finalize(s, d) == Route(Register(s, ev, d), ev, d)
  {
  }

  /** The registration step writes the row at the key, may change the status of the session the id names, and nothing else. */
  lemma RegisterIsLocal(s: Stores, ev: FinalizeEvent, d: Delivery)
    ensures var r := Register(s, ev, d);
      && r.files.Keys == s.files.Keys + {ev.objectKey}
      && (forall k :: k in s.files && k != ev.objectKey ==> r.files[k] == s.files[k])
      && r.sessions.Keys == s.sessions.Keys
      && (forall k :: k in s.sessions && ev.uploadId != JStr(k) ==> r.sessions[k] == s.sessions[k])
      && r.jobs == s.jobs
  {
    SetSessionStatusIsLocal(s.sessions, ev.uploadId, Uploaded);
  }

  lemma FinalizeOfEventIsLocal(s: Stores, d: Delivery, ev: FinalizeEvent)
    requires ReadDelivery(d) == Ok(ev)
    ensures var r := Finalize(s, d).stores;
      && r.sessions.Keys == s.sessions.Keys
      && r.files.Keys == s.files.Keys + {ev.objectKey}
      && (forall k :: k in s.files && k != ev.objectKey ==> r.files[k] == s.files[k])
      && (forall k :: k in s.sessions && ev.uploadId != JStr(k) ==> r.sessions[k] == s.sessions[k])
      && s.jobs <= r.jobs && |r.jobs| <= |s.jobs| + 1
  {
    FinalizeOfEvent(s, d, ev);
    RegisterIsLocal(s, ev, d);
    RouteChangesOnlyStatuses(Register(s, ev, d), ev, d);
  }

  /**
   * A delivery touches only the file row at its object key and the session
   * its uploadId names: other rows and the set of sessions stay as they were,
   * and the job log only grows, by at most one job.
   */
  lemma FinalizeIsLocal(s: Stores, d: Delivery)
    ensures var r := Finalize(s, d).stores;
      && r.sessions.Keys == s.sessions.Keys
      && (ReadDelivery(d).Err? ==> r.files == s.files && r.sessions == s.sessions && r.jobs == s.jobs)
      && (ReadDelivery(d).Ok? ==> r.files.Keys == s.files.Keys + {ReadDelivery(d).value.objectKey})
      && (forall k :: k in s.files && (ReadDelivery(d).Err? || k != ReadDelivery(d).value.objectKey) ==> r.files[k] == s.files[k])
      && (forall k :: k in s.sessions && (ReadDelivery(d).Err? || ReadDelivery(d).value.uploadId != JStr(k)) ==> r.sessions[k] == s.sessions[k])
      && s.jobs <= r.jobs && |r.jobs| <= |s.jobs| + 1
  {
    if ReadDelivery(d).Ok? {
      FinalizeOfEventIsLocal(s, d, ReadDelivery(d).value);
    }
  }

  lemma SetSessionStatusKeepsIds(sessions: map<string, UploadSession>, uploadId: Json, status: SessionStatus)
    requires SessionsAtTheirIds(sessions)
    ensures SessionsAtTheirIds(SetSessionStatus(sessions, uploadId, status))
  {
  }

  lemma RegisterKeepsRowsAtTheirKeys(s: Stores, ev: FinalizeEvent, d: Delivery)
    requires RowsAtTheirKeys(s.files) && SessionsAtTheirIds(s.sessions)
    ensures RowsAtTheirKeys(Register(s, ev, d).files) && SessionsAtTheirIds(Register(s, ev, d).sessions)
  {
    SetSessionStatusKeepsIds(s.sessions, ev.uploadId, Uploaded);
  }

  lemma RouteKeepsRowsAtTheirKeys(s: Stores, ev: FinalizeEvent, d: Delivery)
    requires ev.objectKey in s.files
    requires RowsAtTheirKeys(s.files) && SessionsAtTheirIds(s.sessions)
    ensures RowsAtTheirKeys(Route(s, ev, d).stores.files) && SessionsAtTheirIds(Route(s, ev, d).stores.sessions)
  {
    SetSessionStatusKeepsIds(s.sessions, ev.uploadId, Processing);
    SetSessionStatusKeepsIds(s.sessions, ev.uploadId, Ready);
  }

  /** A delivery keeps every file row under its object key and every session under its id. */
  lemma FinalizeKeepsRowsAtTheirKeys(s: Stores, d: Delivery)
    requires RowsAtTheirKeys(s.files) && SessionsAtTheirIds(s.sessions)
    ensures RowsAtTheirKeys(Finalize(s, d).stores.files)
    ensures SessionsAtTheirIds(Finalize(s, d).stores.sessions)
  {
    if ReadDelivery(d).Ok? {
      var ev := ReadDelivery(d).value;
      FinalizeOfEvent(s, d, ev);
      RegisterKeepsRowsAtTheirKeys(s, ev, d);
      RouteKeepsRowsAtTheirKeys(Register(s, ev, d), ev, d);
    }
  }

  /** Registering the same event on the stores a delivery of it produced gives back the registered files and sessions. */
  lemma RegisterAgain(s: Stores, ev: FinalizeEvent, d: Delivery, d2: Delivery)
    ensures var once := Register(s, ev, d);
      var twice := Register(Route(once, ev, d).stores, ev, d2);
      twice.files == once.files && twice.sessions == once.sessions
  {
    var once := Register(s, ev, d);
    var first := Route(once, ev, d).stores;
    var key := ev.objectKey;
    RouteRewritesStatuses(once, ev, d);
    var twice := Register(first, ev, d2);
    ReUpsertLinked(Lookup(s.files, key), ev, d, d2, first.files[key].status);
    assert Lookup(first.files, key) == Some(once.files[key].(status := first.files[key].status));
    assert twice.files == first.files[key := once.files[key]];
    assert twice.files == once.files;
    if Truthy(ev.uploadId) {
      ReRegisterSessions(s.sessions, ev.uploadId, Uploaded);
      ReRegisterSessions(s.sessions, ev.uploadId, Processing);
      ReRegisterSessions(s.sessions, ev.uploadId, Ready);
    }
  }

  /**
   * The routing step in closed form: the row at the key with a new status,
   * and the sessions unchanged or with one status set.
   */
  lemma RouteRewritesStatuses(s: Stores, ev: FinalizeEvent, d: Delivery)
    requires ev.objectKey in s.files
    ensures var r := Route(s, ev, d).stores;
      && ev.objectKey in r.files
      && r.files == s.files[ev.objectKey := s.files[ev.objectKey].(status := r.files[ev.objectKey].status)]
      && (|| r.sessions == s.sessions
          || (Truthy(ev.uploadId) && r.sessions == SetSessionStatus(s.sessions, ev.uploadId, Processing))
          || (Truthy(ev.uploadId) && r.sessions == SetSessionStatus(s.sessions, ev.uploadId, Ready)))
  {
    var row := s.files[ev.objectKey];
    assert s.files[ev.objectKey := row.(status := row.status)] == s.files;
  }

  /** The row a re-registration writes over a registered row, whatever status it was moved to in between, is that row. */
  lemma ReUpsertLinked(existing: Option<FileRow>, ev: FinalizeEvent, d: Delivery, d2: Delivery, between: FileStatus)
    ensures var upserted := UpsertedRow(existing, ev, d.newFileId, d.newFileLink);
      var row := if Truthy(ev.uploadId) && !Truthy(upserted.uploadId) then upserted.(uploadId := ev.uploadId) else upserted;
      var again := UpsertedRow(Some(row.(status := between)), ev, d2.newFileId, d2.newFileLink);
      (if Truthy(ev.uploadId) && !Truthy(again.uploadId) then again.(uploadId := ev.uploadId) else again) == row
  {
  }

  /** Marking a session uploaded again, whatever status it was moved to in between, gives the first marking back. */
  lemma ReRegisterSessions(sessions: map<string, UploadSession>, uploadId: Json, between: SessionStatus)
    ensures var uploaded := SetSessionStatus(sessions, uploadId, Uploaded);
      SetSessionStatus(SetSessionStatus(uploaded, uploadId, between), uploadId, Uploaded) == uploaded
  {
    var uploaded := SetSessionStatus(sessions, uploadId, Uploaded);
    SetSessionStatusTwice(uploaded, uploadId, between, Uploaded);
    SetSessionStatusTwice(sessions, uploadId, Uploaded, Uploaded);
  }

  /** The routing step depends on the files and sessions only, not on the clock or on the job log. */
  lemma RouteOnSameRows(a: Stores, b: Stores, ev: FinalizeEvent, d: Delivery, d2: Delivery)
    requires ev.objectKey in a.files
    requires a.files == b.files && a.sessions == b.sessions
    requires d2.enqueueFails == d.enqueueFails
    ensures var ra := Route(a, ev, d);
      var rb := Route(b, ev, d2);
      && ra.stores.files == rb.stores.files && ra.stores.sessions == rb.stores.sessions
      && ra.outcome == rb.outcome
      && |ra.stores.jobs| - |a.jobs| == |rb.stores.jobs| - |b.jobs|
      && b.jobs <= rb.stores.jobs
  {
  }

  /**
   * Redelivery: processing the same notification again (with whatever clock
   * reading and fresh-row choices) leaves both stores exactly as the first
   * delivery left them and ends the same way. The job log is not unchanged:
   * a routed delivery enqueues again, so the second delivery appends as many
   * jobs as the first.
   */
  lemma RedeliveryIsStateIdempotent(s: Stores, d: Delivery, newFileId: string, newFileLink: Json, now: int)
    ensures
      var first := Finalize(s, d);
      var second := Finalize(first.stores, d.(newFileId := newFileId, newFileLink := newFileLink, now := now));
      && second.stores.files == first.stores.files
      && second.stores.sessions == first.stores.sessions
      && second.outcome == first.outcome
      && first.stores.jobs <= second.stores.jobs
      && |second.stores.jobs| - |first.stores.jobs| == |first.stores.jobs| - |s.jobs|
  {
    var d2 := d.(newFileId := newFileId, newFileLink := newFileLink, now := now);
    assert ReadDelivery(d2) == ReadDelivery(d);
    if ReadDelivery(d).Ok? {
      var ev := ReadDelivery(d).value;
      var once := Register(s, ev, d);
      var first := Route(once, ev, d);
      FinalizeOfEvent(s, d, ev);
      var twice := Register(first.stores, ev, d2);
      FinalizeOfEvent(first.stores, d2, ev);
      RegisterAgain(s, ev, d, d2);
      RegisterIsLocal(s, ev, d);
      RegisterIsLocal(first.stores, ev, d2);
      RouteOnSameRows(once, twice, ev, d, d2);
    }
  }
}
