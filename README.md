# Upload lifecycle of ed-upload-manager, in Dafny

This project models the upload lifecycle of the ed-upload-manager service.

- A client asks the **create handler** for an upload session. The handler:
  - derives the object key `raw/datastore=<d>/uploads/<id>/<filename>`;
  - saves an `initiated` session row;
  - then asks storage for a resumable upload URL, attaching the correlation metadata `uploadId`, `datastoreId` and `tags`.
- When the upload completes, storage publishes an object-finalize notification through Pub/Sub. The **finalize processor** then:
  - unwraps the push envelope;
  - reads the object's fields, with their defaults;
  - upserts the File row keyed by object key;
  - marks the session `uploaded` and links the file to it once;
  - routes by content type. It either enqueues one processing job and moves the session to `processing`, or marks the file and the session `ready`.
- The **list** and **get** handlers parse their query parameters and query the session store.

The modules:

| module | file | what it holds |
|---|---|---|
| `Results` | results.dfy | `Option` and `Result` |
| `JsonValue` | json_value.dfy | JSON values with Python truthiness, `dict.get` and `x or default` |
| `PyText` | py_text.dfy | ASCII versions of `str.strip`, `lower`, `startswith`, `split`, `join` and `rsplit("/", 1)[-1]`, plus `int(s)` (which skips less whitespace than `strip`) and `str(n)`, with their round trips |
| `UploadRecords` | upload_records.dfy | the session and file rows, and the HTTP failures |
| `GcsFinalize` | gcs_finalize.dfy | the pure parts of the finalize processor, and the whole processor as the function `Finalize` on the stores |
| `FinalizeHandler` | finalize_handler.dfy | the processor as a class over the file map, the session map and the job log, proved to compute `Finalize` |
| `CreateUploadSession` | create_upload_session.dfy | the object key, the session record, the storage metadata, and the handler class |
| `ListUploadSessionsHandler` | list_upload_sessions.dfy | the list handler |
| `GetUploadSessionHandler` | get_upload_session.dfy | the get handler |
| `Correlation` | correlation.dfy | how the handlers fit together: create, then notification, then finalize and get |

Collaborators the model cannot see are parameters:
- the id generator, which gives the upload id;
- the clock (`now`);
- the id and link a newly created file row gets (`newFileId`, `newFileLink`);
- whether the enqueue callback raises (`enqueueFails`);
- what storage answers (`StorageReply`);
- base64, UTF-8 and `json.loads` (`Codec`);
- `json.dumps` of the tags (`dumpTags`);
- the store queries of the list and get handlers.

Behaviour of the code worth knowing:
- **Key and metadata.** The key scheme is the three-part `raw/datastore=<d>/uploads/<id>/<filename>`. There is no file id and no filename normalisation. The metadata keys are `uploadId`, `datastoreId` and `tags`.
- **One file per request.** A request creates one session for one file, in status `initiated`.
- **No File row at create time.** The create handler writes no File row. The first File row appears at finalize.
- **Redelivery re-enqueues.** The handler's docstring calls it idempotent, but the code enqueues again on every routed delivery. `GcsFinalize.RedeliveryIsStateIdempotent` proves that a second delivery with the same enqueue outcome repeats the rows and the outcome, and that the job log grows by as many jobs as the first delivery added. A retry whose enqueue succeeds after a first attempt whose enqueue raised does change the state: the session moves from `uploaded` to `processing`. The reverse holds too: a redelivery whose enqueue raises, after a first delivery that enqueued, moves the session back from `processing` to `uploaded`, because `mark_uploaded` (app/services/gcs_finalize.py:135) runs before the failing enqueue (line 153).

## Model

| member | source | states |
|---|---|---|
| Results.Lookup | app/api/handler/get_list_upload_session_handler.py:18 | `d.get(k)` on a string map: Some exactly when the key is present, then the stored value |
| JsonValue.StringObject | app/api/handler/create_upload_session_handler.py:69-73 | the string metadata map as a JSON object: same keys, each value the string |
| JsonValue.Truthy | app/services/gcs_finalize.py:103 | Python truthiness of a JSON value: null, false, 0, the empty string, list and object are falsy |
| JsonValue.Get | app/services/gcs_finalize.py:88-99 | `payload.get(key)`: the stored value, or null when the key is absent |
| JsonValue.OrElse | app/services/gcs_finalize.py:90-94 | `v or default`: `v` when it is truthy, else the default |
| PyText.StripLeft | app/api/handler/get_list_upload_session_handler.py:24 | the result is a suffix, what it drops is whitespace, and it does not start with whitespace |
| PyText.StripRight | app/api/handler/get_list_upload_session_handler.py:24 | the result is a prefix, what it drops is whitespace, and it does not end with whitespace |
| PyText.Strip | app/api/handler/get_list_upload_session_handler.py:24 | `s.strip()` is the slice of `s` at the leading-whitespace offset, with no whitespace at either end |
| PyText.StripDropsOnlySpace | app/api/handler/get_list_upload_session_handler.py:24 | what strip removes on the left and on the right is all whitespace |
| PyText.StripEmptyIffAllSpace | app/api/handler/get_list_upload_session_handler.py:24 | `s.strip()` is empty exactly when `s` is all whitespace, which is the `if s.strip()` filter |
| PyText.StripKeeps | app/api/handler/get_list_upload_session_handler.py:24 | strip leaves a string without surrounding whitespace unchanged |
| PyText.LowerIdempotent | app/services/gcs_finalize.py:56 | lower-casing twice is lower-casing once |
| PyText.Split | app/api/handler/get_list_upload_session_handler.py:24 | `split(",")` gives at least one piece, and no piece contains the separator |
| PyText.SplitWithoutSeparator | app/api/handler/get_list_upload_session_handler.py:24 | a string without the separator splits into itself alone |
| PyText.SplitAfterPiece | app/api/handler/get_list_upload_session_handler.py:24 | splitting `x + sep + t`, where `x` has no separator, gives `x` followed by the pieces of `t` |
| PyText.SplitJoin | app/api/handler/get_list_upload_session_handler.py:24 | splitting a join of separator-free pieces gives back the pieces |
| PyText.JoinSplit | app/api/handler/get_list_upload_session_handler.py:24 | joining the pieces of a split gives back the string |
| PyText.LastSegment | app/services/gcs_finalize.py:101 | `rsplit("/", 1)[-1]` is a slash-free suffix that is either the whole key or comes right after a slash |
| PyText.LastSegmentAfterSlash | app/services/gcs_finalize.py:101 | the segment after the last slash of `prefix + "/" + name` is `name` when `name` has no slash |
| PyText.StripOffset | app/api/handler/get_list_upload_session_handler.py:24 | the offset where the stripped text starts lies within the string |
| PyText.DigitChar | app/services/gcs_finalize.py:109 | the digit character of `d` is a digit whose value is `d` |
| PyText.FormatNat | app/services/gcs_finalize.py:109 | `str(n)` of a natural number is a non-empty run of digits |
| PyText.GroupValueFormatNat | app/services/gcs_finalize.py:109 | the digits of `str(n)` read back as `n` |
| PyText.FormatIntEdges | app/services/gcs_finalize.py:109 | `str(n)` is non-empty with no surrounding whitespace: a minus sign before the digits of `-n` when `n` is negative, else the digits of `n` |
| PyText.ParseFormatInt | app/services/gcs_finalize.py:109 | `int(str(n)) == n` for every integer, negative ones included (CPython's digit limit is not modelled, see Left out) |
| PyText.IsSpace | app/api/handler/get_list_upload_session_handler.py:24 | the ASCII characters `str.isspace()` accepts: space, \t to \r, and \x1c to \x1f |
| PyText.Lower | app/services/gcs_finalize.py:56 | `s.lower()` on ASCII: each upper-case letter replaced by its lower-case one |
| PyText.HasPrefix | app/services/gcs_finalize.py:58-63 | `s.startswith(prefix)` |
| PyText.Join | app/api/handler/get_list_upload_session_handler.py:24 | `sep.join(xs)`, the inverse partner of Split |
| PyText.GroupValue | app/services/gcs_finalize.py:109 | the value of a decimal digit group with single underscores between digits, or None for any other text |
| PyText.IsIntSpace | app/services/gcs_finalize.py:109 | the characters `int(s)` skips around the number: space and \t to \r, not \x1c to \x1f |
| PyText.SignedGroupValue | app/services/gcs_finalize.py:109 | an optional sign followed by a digit group, read as `int` reads it |
| PyText.ParseInt | app/services/gcs_finalize.py:109 | `int(s)`: padding of IsIntSpace characters, an optional sign, a digit group; None where `int` raises ValueError |
| PyText.FormatInt | app/services/gcs_finalize.py:109 | `str(n)` in base 10, with a minus sign for negative numbers |
| PyText.ParseIntOfUnpadded | app/services/gcs_finalize.py:109 | text with no surrounding whitespace is read by `int` as its sign and digits alone |
| PyText.ParseIntRefusesLeadingSeparator | app/services/gcs_finalize.py:107-111 | any text that starts with one of \x1c to \x1f, which `strip()` would remove, is refused by `int` |
| PyText.ParseIntRefusesTrailingSeparator | app/services/gcs_finalize.py:107-111 | any text that ends with one of \x1c to \x1f is refused by `int` |
| PyText.ParseIntSkipsPadding | app/services/gcs_finalize.py:109 | a digit between two IsIntSpace characters is read as that digit |
| PyText.ParseIntPadding | app/api/handler/get_list_upload_session_handler.py:28 | `int("\t5\n") == 5`, while `int("\x1c5")` and `int("5\x1f")` raise |
| GcsFinalize.DecodePubSubBody | app/services/gcs_finalize.py:26-49 | every failure is the single invalid-body error; a success means `message.data` is a non-empty string that decodes to the payload |
| GcsFinalize.DecodeEnvelopeRoundTrip | app/services/gcs_finalize.py:40-47 | a push envelope around decodable data yields exactly that payload |
| GcsFinalize.DecodeRejectsMissingData | app/services/gcs_finalize.py:41-44 | a missing or falsy `message`, or a missing or falsy `message.data`, is rejected |
| GcsFinalize.DetectJobTopic | app/services/gcs_finalize.py:52-69 | the topic is one of the four processing topics; an empty content type has none |
| GcsFinalize.DetectJobTopicIsFirstMatch | app/services/gcs_finalize.py:56-69 | the topic is the first rule of the ordered table (pdf prefix, video prefix, image prefix, the two exact csv types) that matches the lower-cased type |
| GcsFinalize.DetectJobTopicIgnoresCase | app/services/gcs_finalize.py:56 | routing gives the same answer for a type and its lower-cased form |
| GcsFinalize.RoutingDocumentExamples | app/services/gcs_finalize.py:58-65 | `application/pdf` routes to process-pdf and `text/csv` routes to process-csv |
| GcsFinalize.RoutingMediaExamples | app/services/gcs_finalize.py:60-63 | `image/png` routes to process-image and `video/mp4` routes to process-video |
| GcsFinalize.RoutingUpperCasePdf | app/services/gcs_finalize.py:56-59 | `APPLICATION/PDF; x` routes to process-pdf |
| GcsFinalize.RoutingParameterisedCsv | app/services/gcs_finalize.py:64-69 | `text/csv; charset=utf-8` routes nowhere: the CSV rules compare the whole type |
| GcsFinalize.RoutingOctetStream | app/services/gcs_finalize.py:52-69 | `application/octet-stream` routes nowhere |
| GcsFinalize.EventOf | app/services/gcs_finalize.py:88-101 | an accepted event has a truthy bucket, name, datastore and content type, and its filename is the last segment of the key |
| GcsFinalize.ReadFinalizeEvent | app/services/gcs_finalize.py:88-105 | reading succeeds exactly for a well-shaped payload with bucket, name and datastoreId; a failure is either the malformed-payload error or the missing-fields error |
| GcsFinalize.MissingRequiredFieldsRejected | app/services/gcs_finalize.py:103-105 | a well-shaped payload with a falsy bucket, name or datastoreId gives the missing-fields error |
| GcsFinalize.MissingContentTypeRoutesNowhere | app/services/gcs_finalize.py:90 | a falsy content type becomes application/octet-stream, which routes nowhere |
| GcsFinalize.UnreadableSizeIsZero | app/services/gcs_finalize.py:91-111 | a size that is missing, a list or an object, or text `int` refuses (including text padded with \x1c to \x1f) is 0 |
| GcsFinalize.SeparatorPaddedSizeIsZero | app/services/gcs_finalize.py:107-111 | the size text `\x1c5` is read as 0, since `int` raises on it |
| GcsFinalize.DecimalSizeIsParsed | app/services/gcs_finalize.py:107-111 | a size given as the decimal text of `n` is read as `n` |
| GcsFinalize.SetSessionStatusIsLocal | app/services/gcs_finalize.py:133-135 | a session status update changes only the status of the row the id names; other rows and the key set stay as they were |
| GcsFinalize.SetSessionStatusTwice | app/services/gcs_finalize.py:133-135 | two status updates of the same session amount to the second one |
| GcsFinalize.RejectedDeliveryChangesNothing | app/services/gcs_finalize.py:84-105 | a delivery rejected while decoding or reading changes no row and enqueues nothing, and its error is not the enqueue error |
| GcsFinalize.LinkIsSetOnce | app/services/gcs_finalize.py:133-138 | the final session link is the row's prior link when truthy, else the notification's uploadId when truthy; a truthy link is never overwritten |
| GcsFinalize.FileRowReflectsNotification | app/services/gcs_finalize.py:117-130 | the row at the key carries the notification's fields and keeps an existing id; it is ready exactly when the delivery was acked with no topic, otherwise processing |
| GcsFinalize.RoutedDeliveryEnqueuesOneJob | app/services/gcs_finalize.py:141-161 | a routed delivery whose enqueue succeeds appends exactly one job, to that topic, with the payload fields of lines 143-152; the file stays processing and the session becomes processing |
| GcsFinalize.EnqueueFailureLeavesSessionUploaded | app/services/gcs_finalize.py:153-160 | when the enqueue raises, the delivery fails, the log is unchanged (a raising enqueue is taken to have published nothing; see Left out) and the session stays uploaded |
| GcsFinalize.DecodeData | app/services/gcs_finalize.py:45-46 | `json.loads(base64.b64decode(data).decode("utf-8"))`: None when any of the three stages raises |
| GcsFinalize.PushEnvelope | app/services/gcs_finalize.py:28-37 | the push body Pub/Sub delivers: message with data, attributes, messageId and publishTime, and the subscription |
| GcsFinalize.RoutingTable | app/services/gcs_finalize.py:58-65 | the ordered rules: pdf prefix, video prefix, image prefix, then exact text/csv and application/csv |
| GcsFinalize.FirstMatch | app/services/gcs_finalize.py:56-69 | the topic of the first rule the lower-cased type matches, None when none does |
| GcsFinalize.MetadataOf | app/services/gcs_finalize.py:94 | `payload.get("metadata") or {}` |
| GcsFinalize.UnreadableSizeValueIsZero | app/services/gcs_finalize.py:107-111 | a missing, null, list or object size, or size text that `int` refuses, reads as 0 |
| GcsFinalize.JobFor | app/services/gcs_finalize.py:143-152 | the job payload: uploadId, fileId, datastoreId, bucket, objectKey, contentType, size and the receive time |
| FinalizeHandler.FinalizeProcessor.constructor | app/services/gcs_finalize.py:113-114 | the DALs over the stores: the processor's state is the given stores, and Valid holds for stores whose rows sit at their keys and sessions at their ids |
| GcsFinalize.UnroutedDeliveryMarksReady | app/services/gcs_finalize.py:162-166 | with no topic, nothing is enqueued and the file and the session become ready |
| GcsFinalize.NonStringContentTypeFailsAfterUpsert | app/services/gcs_finalize.py:117-141 | a truthy non-string content type fails after the upsert: the row is written, the session is uploaded and nothing is enqueued |
| GcsFinalize.RouteRewritesStatuses | app/services/gcs_finalize.py:141-166 | the routing step rewrites only the status of the file at the key, and leaves the sessions as they were or sets the status of the session the id names to processing or ready |
| GcsFinalize.RouteChangesOnlyStatuses | app/services/gcs_finalize.py:141-166 | the routing step changes only the status of the file at the key and of the session the id names, and appends at most one job |
| GcsFinalize.FinalizeOfEvent | app/services/gcs_finalize.py:84-166 | once the event is read, a delivery is the registration step followed by the routing step |
| GcsFinalize.RegisterIsLocal | app/services/gcs_finalize.py:116-138 | registration writes the row at the key and at most the session the id names, and enqueues nothing |
| GcsFinalize.FinalizeOfEventIsLocal | app/services/gcs_finalize.py:116-166 | an accepted delivery changes only the row at its key and the session its id names, and appends at most one job |
| GcsFinalize.FinalizeIsLocal | app/services/gcs_finalize.py:84-166 | any delivery leaves other file rows and other sessions unchanged, keeps the session key set, and only appends to the job log, at most one job |
| GcsFinalize.SetSessionStatusKeepsIds | app/services/gcs_finalize.py:133-135 | status updates keep every session stored under its own id |
| GcsFinalize.RegisterKeepsRowsAtTheirKeys | app/services/gcs_finalize.py:117-138 | registration keeps every file row under its object key and every session under its id |
| GcsFinalize.RouteKeepsRowsAtTheirKeys | app/services/gcs_finalize.py:141-166 | routing keeps every file row under its object key and every session under its id |
| GcsFinalize.FinalizeKeepsRowsAtTheirKeys | app/services/gcs_finalize.py:116-166 | a delivery keeps every file row under its object key and every session under its id |
| GcsFinalize.RegisterAgain | app/services/gcs_finalize.py:117-138 | registering an event again, on the stores its first delivery left, gives back the same files and sessions |
| GcsFinalize.RouteOnSameRows | app/services/gcs_finalize.py:141-166 | routing depends on the rows only, not on the clock or the job log: same rows give same rows and outcome, and the same number of new jobs |
| GcsFinalize.RedeliveryIsStateIdempotent | app/services/gcs_finalize.py:77-83 | a second delivery of the same notification, with the same enqueue outcome, leaves the files and sessions as the first left them and ends the same way; the job log grows by as many jobs again |
| FinalizeHandler.FinalizeProcessor.CreateOrUpdateFromFinalize | app/services/gcs_finalize.py:117-130 | the upsert writes the assumed upserted row at the key and nothing else |
| FinalizeHandler.FinalizeProcessor.LinkUpload | app/services/gcs_finalize.py:137-138 | the row at the key gets the session link, and nothing else changes |
| FinalizeHandler.FinalizeProcessor.MarkFileStatus | app/services/gcs_finalize.py:164 | the row at the key gets the status, and nothing else changes |
| FinalizeHandler.FinalizeProcessor.MarkSessionStatus | app/services/gcs_finalize.py:133-135 | the session the id names gets the status, and nothing else changes |
| FinalizeHandler.FinalizeProcessor.EnqueueJob | app/services/gcs_finalize.py:153-156 | the job is logged exactly when the callback does not raise |
| FinalizeHandler.FinalizeProcessor.RegisterFile | app/services/gcs_finalize.py:116-138 | the upsert, the mark-uploaded and the set-once link, in order, compute the registration step, and the returned id is the row's |
| FinalizeHandler.FinalizeProcessor.RouteFile | app/services/gcs_finalize.py:140-166 | the content-type check, then the enqueue followed by mark-processing, or mark-ready on the file and the session, compute the routing step |
| FinalizeHandler.FinalizeProcessor.HandleFinalizePush | app/services/gcs_finalize.py:72-166 | the new stores and the outcome are exactly those of `Finalize`, and rows stay under their keys |
| CreateUploadSession.ObjectKeyShape | app/api/handler/create_upload_session_handler.py:45-47 | a key lies under `raw/datastore=<d>/uploads/`, and its last segment is the filename when the filename has no slash |
| CreateUploadSession.FirstSlashAt | app/api/handler/create_upload_session_handler.py:45-47 | in `a + "/" + x` with a slash-free `a`, the first slash is at the end of `a` |
| CreateUploadSession.SplitAtFirstSlash | app/api/handler/create_upload_session_handler.py:45-47 | equal strings `a/x` and `b/y` with slash-free `a` and `b` have `a == b` and `x == y` |
| CreateUploadSession.ObjectKeyInjective | app/api/handler/create_upload_session_handler.py:45-47 | for a fixed datastore and filename, different upload ids give different keys |
| CreateUploadSession.ObjectKeyDeterminesUpload | app/api/handler/create_upload_session_handler.py:45-47 | within a datastore, slash-free upload ids never share a key, whatever the filenames, and the key determines the filename |
| CreateUploadSession.ObjectKeyAmbiguousAcrossDatastores | app/api/handler/create_upload_session_handler.py:45-47 | across datastores whose names hold slashes, two different triples give the same key |
| CreateUploadSession.NewSessionRecordIsInitiated | app/api/handler/create_upload_session_handler.py:50-59 | the saved row is initiated, under the new id, with the body's datastore, filename, content type and size, the sent tags (or none when `null` was sent), and exactly the key `ObjectKey` derives |
| CreateUploadSession.StorageMetadata | app/api/handler/create_upload_session_handler.py:69-73 | the metadata has exactly the keys uploadId, datastoreId and tags, holding the id, the datastore and the serialised tags |
| CreateUploadSession.CreatedResponse | app/api/handler/create_upload_session_handler.py:76-83 | the response is a 201 whose data has exactly uploadId, objectKey and the unmodified uploadUrl |
| CreateUploadSession.CreateUploadSessionHandler.constructor | app/api/handler/create_upload_session_handler.py:30-36 | a handler holds its raw bucket and the given session store, starts with no storage requests, and satisfies its invariant |
| CreateUploadSession.CreateUploadSessionHandler.Build | app/api/handler/create_upload_session_handler.py:34-36 | construction fails exactly when RAW_BUCKET is missing or empty, with the env-var-required error; a built handler satisfies its invariant |
| CreateUploadSession.CreateUploadSessionHandler.Save | app/api/handler/create_upload_session_handler.py:60 | the row is stored under its id, and storage is not called |
| CreateUploadSession.CreateUploadSessionHandler.CreateResumableUploadSession | app/api/handler/create_upload_session_handler.py:63-74 | one request to the raw bucket for the key is logged; the URL is storage's answer, or its error |
| CreateUploadSession.CreateUploadSessionHandler.DoProcess | app/api/handler/create_upload_session_handler.py:38-83 | an invalid body is a 400 that changes nothing; otherwise the initiated row is saved, then exactly one storage request with the metadata is made; a storage failure leaves the row saved and propagates, a success is the 201 response |
| CreateUploadSession.ObjectKey | app/api/handler/create_upload_session_handler.py:45-47 | the key `raw/datastore=<d>/uploads/<id>/<filename>` |
| CreateUploadSession.TagsOf | app/api/handler/create_upload_session_handler.py:56 | `body.tags or []` |
| CreateUploadSession.NewSessionRecord | app/api/handler/create_upload_session_handler.py:50-59 | the initiated session row built from the body, the new id and its key |
| ListUploadSessionsHandler.StripKeepsOutComma | app/api/handler/get_list_upload_session_handler.py:24 | stripping a comma-free piece leaves it comma-free |
| ListUploadSessionsHandler.Kept | app/api/handler/get_list_upload_session_handler.py:24 | what one piece contributes: at most one item, its strip when that is non-empty |
| ListUploadSessionsHandler.FlatMap | app/api/handler/get_list_upload_session_handler.py:24 | a filtered comprehension: each piece's contribution, concatenated in order |
| ListUploadSessionsHandler.FlatMapAppend | app/api/handler/get_list_upload_session_handler.py:24 | the comprehension of a concatenation is the concatenation of the comprehensions |
| ListUploadSessionsHandler.FlatMapAtMostOne | app/api/handler/get_list_upload_session_handler.py:24 | with at most one item per piece, no more items than pieces |
| ListUploadSessionsHandler.FlatMapAll | app/api/handler/get_list_upload_session_handler.py:24 | every item that comes out satisfies a property every contribution satisfies |
| ListUploadSessionsHandler.FlatMapOfSelf | app/api/handler/get_list_upload_session_handler.py:24 | pieces that each contribute themselves come out unchanged |
| ListUploadSessionsHandler.FlatMapOfThree | app/api/handler/get_list_upload_session_handler.py:24 | three pieces give their three contributions in order |
| ListUploadSessionsHandler.StrippedPieces | app/api/handler/get_list_upload_session_handler.py:24 | the comprehension keeps at most as many pieces as it is given; with StrippedPiecesAppend and StrippedPiecesOfOne it is pinned down: each piece, in order, gives its strip when that is non-empty and nothing otherwise |
| ListUploadSessionsHandler.StrippedPiecesAppend | app/api/handler/get_list_upload_session_handler.py:24 | the kept pieces of a concatenation are the kept pieces of each part, in order |
| ListUploadSessionsHandler.StrippedPiecesOfOne | app/api/handler/get_list_upload_session_handler.py:24 | a single piece is kept as `p.strip()` exactly when that is non-empty, and dropped otherwise |
| ListUploadSessionsHandler.StrippedPiecesAreClean | app/api/handler/get_list_upload_session_handler.py:24 | every piece the comprehension keeps from comma-free pieces is non-empty, unpadded and comma-free |
| ListUploadSessionsHandler.ParseStatuses | app/api/handler/get_list_upload_session_handler.py:22-27 | None exactly when the parameter is absent or empty; otherwise every status is non-empty, unpadded and comma-free (the stripping of padded pieces is ParseStatusesOfPieces and ParseStatusesOfPaddedPair) |
| ListUploadSessionsHandler.ParseStatusesOfPieces | app/api/handler/get_list_upload_session_handler.py:22-27 | a non-empty comma-join of comma-free pieces, padded or not, parses to the kept strips of those pieces in order |
| ListUploadSessionsHandler.JoinOfThree | app/api/handler/get_list_upload_session_handler.py:23 | three pieces joined have the separator between each pair |
| ListUploadSessionsHandler.SpaceHoldsNoComma | app/api/handler/get_list_upload_session_handler.py:23-24 | whitespace contains no comma |
| ListUploadSessionsHandler.ParseStatusesOfPaddedPair | app/api/handler/get_list_upload_session_handler.py:22-27 | for any two status names padded with any whitespace around a blank piece, the result is exactly the two names in order: padding stripped, the blank piece dropped |
| ListUploadSessionsHandler.PaddedStatusesAreStripped | app/api/handler/get_list_upload_session_handler.py:22-27 | `" uploaded , ,ready "` gives `["uploaded", "ready"]` |
| PyText.StripLeftOfSpaces | app/api/handler/get_list_upload_session_handler.py:24 | a leading whitespace run of any length is what lstrip drops |
| PyText.StripRightOfSpaces | app/api/handler/get_list_upload_session_handler.py:24 | a trailing whitespace run of any length is what rstrip drops |
| PyText.StripOfSurrounded | app/api/handler/get_list_upload_session_handler.py:24 | text without surrounding whitespace, between two whitespace runs, strips to itself |
| ListUploadSessionsHandler.StrippedPiecesOfClean | app/api/handler/get_list_upload_session_handler.py:24 | clean pieces pass the comprehension unchanged and in order |
| ListUploadSessionsHandler.JoinStartsWith | app/api/handler/get_list_upload_session_handler.py:23-26 | a non-empty join starts with its first piece |
| ListUploadSessionsHandler.ParseStatusesOfJoin | app/api/handler/get_list_upload_session_handler.py:23-26 | a comma-joined list of clean status names parses back to exactly that list |
| ListUploadSessionsHandler.BlankStatusesGiveEmptyList | app/api/handler/get_list_upload_session_handler.py:23-27 | `",,"` and `" "` give the empty list, not None |
| ListUploadSessionsHandler.ListUploadSessions | app/api/handler/get_list_upload_session_handler.py:16-37 | a missing or empty datastore_id is exactly the 400; the result is Ok exactly when datastore_id is given and `int` accepts limit and offset (or they are absent), so the ValueError is exactly an unparseable limit or offset; on success count is the number of items, limit and offset are the parsed or default values, and the items are the store query on them |
| ListUploadSessionsHandler.ListDefaults | app/api/handler/get_list_upload_session_handler.py:28-29 | with only datastore_id, the query is unfiltered with limit 50 and offset 0 |
| ListUploadSessionsHandler.ListEchoesDecimalPaging | app/api/handler/get_list_upload_session_handler.py:28-37 | a decimal limit and offset are the ones queried and echoed |
| ListUploadSessionsHandler.ListRejectsBadLimit | app/api/handler/get_list_upload_session_handler.py:28 | a limit that `int` refuses (such as `\x1c5`) is an unhandled ValueError, even when the datastore is given |
| ListUploadSessionsHandler.CleanStatus | app/api/handler/get_list_upload_session_handler.py:24 | a status name as the comprehension leaves it: non-empty, unpadded, comma-free |
| ListUploadSessionsHandler.IntParam | app/api/handler/get_list_upload_session_handler.py:28-29 | `int(qp.get(key, default))`: the default when absent, else `int` of the text, None when `int` raises |
| GetUploadSessionHandler.GetUploadSession | app/api/handler/get_upload_session_handler.py:16-35 | the 400 happens exactly when both parameters are missing or empty; the only other failure is the 404; with either parameter given the result is exactly the lookup's record when it finds one and the 404 when it does not, by id when upload_id is given, else by key |
| GetUploadSessionHandler.UploadIdTakesPrecedence | app/api/handler/get_upload_session_handler.py:27-28 | with upload_id given, the object_key parameter and the key lookup play no part: a hit by id or a 404 |
| GetUploadSessionHandler.EmptyUploadIdFallsBackToObjectKey | app/api/handler/get_upload_session_handler.py:29-30 | an empty upload_id counts as missing, and the lookup is by object key |
| GetUploadSessionHandler.Given | app/api/handler/get_upload_session_handler.py:18-21 | `params.get(key)` is truthy: present and non-empty |
| Correlation.RequestFor | app/api/handler/create_upload_session_handler.py:62-74 | the resumable-upload request the create handler sends: raw bucket, derived key, content type, origin and the correlation metadata |
| Correlation.NotificationFor | app/services/gcs_finalize.py:86-94 | the assumed object-finalize notification for a request (see Left out) |
| Correlation.ById | app/api/handler/get_upload_session_handler.py:28 | `get_by_id` on a session store: the row at the id, or None |
| Correlation.NotificationFields | app/services/gcs_finalize.py:88-94 | `dict.get` on the notification finds each field storage put there |
| GcsFinalize.SizeOfDecimal | app/services/gcs_finalize.py:107-111 | the decimal text of a size reads back as that size |
| GcsFinalize.MessageData | app/services/gcs_finalize.py:41-42 | `(push_body.get("message") or {}).get("data")`, None when either `.get` is made on a non-dict |
| GcsFinalize.SizeOf | app/services/gcs_finalize.py:107-111 | `int(size_str)` with the fall-back to 0 when `int` raises; a boolean reads as 1 or 0 and a number as itself |
| GcsFinalize.WellShaped | app/services/gcs_finalize.py:88-101 | the payload and its metadata (after `or {}`) are dicts, and a truthy name is a string, so no `.get` or `.rsplit` raises |
| GcsFinalize.HasRequiredFields | app/services/gcs_finalize.py:103-105 | bucket, name and metadata.datastoreId are all truthy |
| GcsFinalize.ReadDelivery | app/services/gcs_finalize.py:84-111 | decoding and field reading: everything before the first store call, with its errors |
| GcsFinalize.UpsertedRow | app/services/gcs_finalize.py:117-130 | the assumed row `create_or_update_from_finalize` leaves at the key (see Left out) |
| GcsFinalize.SetSessionStatus | app/services/gcs_finalize.py:135 | `mark_uploaded`, `mark_processing` and `mark_ready`: the status of the row the id names is set, and an unknown id changes nothing |
| GcsFinalize.Register | app/services/gcs_finalize.py:116-138 | steps 1 and 2: the upsert at the key, the session marked uploaded, the link set when the row has none |
| GcsFinalize.Route | app/services/gcs_finalize.py:140-166 | step 3: with a topic, one job appended (or the enqueue error) and the session marked processing; without, file and session marked ready |
| GcsFinalize.Finalize | app/services/gcs_finalize.py:72-166 | `handle_gcs_finalize_push` as a function of the stores: a read failure changes nothing, else Register then Route; FinalizeHandler.FinalizeProcessor.HandleFinalizePush is proved to compute it |
| Correlation.ReadEventOfFields | app/services/gcs_finalize.py:88-111 | a notification object with the given fields reads as the event built from them, with the content-type default |
| Correlation.EventOfNotification | app/services/gcs_finalize.py:88-111 | a notification with a bucket, a name and a datastore in its metadata is accepted, and the event carries the request's fields |
| Correlation.NotificationNamesTheSession | app/api/handler/create_upload_session_handler.py:69-73 | the notification for a created upload is accepted, and its event carries the session's id, datastore, key, size and, for a slash-free filename, the filename |
| Correlation.RoutedSessionIsProcessing | app/services/gcs_finalize.py:133-161 | for a stored session, a routed and enqueued event appends one job for it, keeps the file processing, and leaves the session row as it was except for status processing |
| Correlation.CreatedUploadIsProcessed | app/services/gcs_finalize.py:84-161 | for a session the create handler saved, a routed delivery of its notification is acked, enqueues one job for it, and sets the saved row to processing |
| Correlation.PdfUploadScenario | app/services/gcs_finalize.py:141-161 | after creating `a.pdf` in `ds1` and finalizing it, the file is processing, one process-pdf job is enqueued and the session is processing |
| Correlation.GetFindsCreatedSession | app/api/handler/get_upload_session_handler.py:27-35 | after a create, a get by the returned id gives back the saved row, still initiated |

## Left out

- I/O and the framework: the FastAPI app and router wiring, the HTTP status mapping of the internal storage endpoint, the Pub/Sub publisher singleton and its timeout, and the printing worker are all left out. These are transport and process glue.
- The router's `create_upload_session` calls `do_process(body.datastore_id, body.tags, body.files)`, which does not match the handler's `do_process(self, request)`. The handler is modelled as written.
- The update handler is not part of this model. It passes through to an unseen `update_session`.
- `_maybe_await` and the sync/async distinction are left out. An enqueue either returns or raises.
- GcsFinalize.EnqueueFailureLeavesSessionUploaded: an enqueue that raises is modelled as having published nothing, so the job log is unchanged. The production callback waits with `future.result(timeout=10)`, which can raise after Pub/Sub accepted the message; such a job is not in the model's log.
- Base64, UTF-8 and `json.loads` are uninterpreted partial functions. Python's lenient `b64decode` is not specified here.
- `json.dumps` of the tags is a parameter.
- Floats in JSON are not modelled: `int(<float>)`'s truncation of a float `size` is out.
- Text is ASCII only. `lower`, `strip` and `int` ignore Unicode letters, Unicode whitespace and non-ASCII digits.
- PyText.ParseInt: does not model CPython's limit on the length of integer text (`sys.int_max_str_digits`, 4300 digits by default from Python 3.11 on), above which `int` raises ValueError. The interpreter version is not part of the source, and storage sizes and paging values are far shorter.
- PyText.ParseFormatInt: the round trip holds in the model for every integer. With CPython's digit limit, `str(n)` and `int` both raise beyond 4300 digits.
- Correlation.NotificationFor: the shape of the object-finalize notification storage publishes is assumed, not taken from the source. The model assumes the size is decimal text, the content type is the one the upload was opened with, and the metadata is the string map the create handler attached.
- The internals of `FileDAL` and `UploadSessionDAL` are unseen. `create_or_update_from_finalize` is modelled by an explicit assumption, `GcsFinalize.UpsertedRow`:
  - the row at the key carries the notification's fields, storage provider gcs, empty metadata and status processing;
  - an existing row keeps its id and link;
  - a new row takes `newFileId` and `newFileLink`.
- `mark_uploaded`, `mark_processing` and `mark_ready` set the status of an existing row and do nothing for an unknown id. Their real transition rules are unseen.
- `link_upload` and `mark_status` address the row by file id. The model addresses it by object key: the upserted row's id names the row at that key.
- FinalizeHandler.FinalizeProcessor.MarkSessionStatus: an uploadId that is not a string never names a session row here. The store's coercion of such ids is unseen.
- CreateUploadSession.CreateUploadSessionHandler.Save: saving under an id already in the store replaces the row. A uniqueness-violation error from the database is not modelled, since generated ids are taken to be fresh.
- CreateUploadSession.CreateUploadSessionHandler.DoProcess: the `Invalid body` detail carries the validation message as a given string. Pydantic's coercions and messages are not modelled.
- CreateUploadSession.ObjectKeyInjective: injectivity is proved for a fixed datastore and filename, and, for slash-free ids, within a datastore. Across datastores the key is ambiguous, and `ObjectKeyAmbiguousAcrossDatastores` exhibits a collision.
- The list and get handlers' store queries (`list_by_datastore`, `get_by_id`, `get_by_object_key`) are parameters. Their filtering and their ordering are not modelled.
- `ServiceResponse.success` is unseen. The list and get results are the data record, not a wrapped response.
- Concurrency is not modelled: concurrent duplicate deliveries and database uniqueness constraints are left out.
- The code shows no multi-file batches, no session in status `authorized`, no filename sanitisation, no chunk-size hints, no duplicate-enqueue suppression and no status monotonicity. None of these is asserted.
