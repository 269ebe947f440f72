/**
 * `handle_gcs_finalize_push` as the imperative sequence the source runs: one
 * object holds the file rows, the session rows and the log of enqueued jobs;
 * each store call and the enqueue callback is a method that changes exactly
 * what the call changes. The handler is proved to compute GcsFinalize.Finalize.
 */
module FinalizeHandler {
  import opened Results
  import opened JsonValue
  import opened UploadRecords
  import opened GcsFinalize

  class FinalizeProcessor {
    /** `FileDAL`'s rows, keyed by object key. */
    var files: map<string, FileRow>
    /** `UploadSessionDAL`'s rows, keyed by session id. */
    var sessions: map<string, UploadSession>
    /** Every `(topic, payload)` the enqueue callback accepted, in order. */
    var jobs: seq<Job>

    function State(): Stores
      reads this
    {
      Stores(files, sessions, jobs)
    }

    /** Every file row is stored under its own object key, every session under its id. */
    predicate Valid()
      reads this
    {
      RowsAtTheirKeys(files) && SessionsAtTheirIds(sessions)
    }

    constructor (initial: Stores)
      requires RowsAtTheirKeys(initial.files) && SessionsAtTheirIds(initial.sessions)
      ensures State() == initial
      ensures Valid()
    {
      files := initial.files;
      sessions := initial.sessions;
      jobs := initial.jobs;
    }

    /** `FileDAL.create_or_update_from_finalize`, with its assumed effect (see GcsFinalize.UpsertedRow). */
    method CreateOrUpdateFromFinalize(ev: FinalizeEvent, newId: string, newLink: Json) returns (row: FileRow)
      modifies this
      ensures row == UpsertedRow(Lookup(old(files), ev.objectKey), ev, newId, newLink)
      ensures files == old(files)[ev.objectKey := row]
      ensures sessions == old(sessions) && jobs == old(jobs)
    {
      row := UpsertedRow(Lookup(files, ev.objectKey), ev, newId, newLink);
      files := files[ev.objectKey := row];
    }

    /** `FileDAL.link_upload` on the row at the object key. */
    method LinkUpload(objectKey: string, uploadId: Json)
      requires objectKey in files
      modifies this
      ensures files == old(files)[objectKey := old(files)[objectKey].(uploadId := uploadId)]
      ensures sessions == old(sessions) && jobs == old(jobs)
    {
      files := files[objectKey := files[objectKey].(uploadId := uploadId)];
    }

    /** `FileDAL.mark_status` on the row at the object key. */
    method MarkFileStatus(objectKey: string, status: FileStatus)
      requires objectKey in files
      modifies this
      ensures files == old(files)[objectKey := old(files)[objectKey].(status := status)]
      ensures sessions == old(sessions) && jobs == old(jobs)
    {
      files := files[objectKey := files[objectKey].(status := status)];
    }

    /** `UploadSessionDAL.mark_uploaded`, `mark_processing` and `mark_ready`. */
    method MarkSessionStatus(uploadId: Json, status: SessionStatus)
      modifies this
      ensures sessions == SetSessionStatus(old(sessions), uploadId, status)
      ensures files == old(files) && jobs == old(jobs)
    {
      if uploadId.JStr? && uploadId.s in sessions {
        sessions := sessions[uploadId.s := sessions[uploadId.s].(status := status)];
      }
    }

    /** The enqueue callback: it either raises (`fails`) or accepts the job. */
    method EnqueueJob(topic: string, payload: JobPayload, fails: bool) returns (accepted: bool)
      modifies this
      ensures accepted == !fails
      ensures jobs == if accepted then old(jobs) + [Job(topic, payload)] else old(jobs)
      ensures files == old(files) && sessions == old(sessions)
    {
      accepted := !fails;
      if accepted {
        jobs := jobs + [Job(topic, payload)];
      }
    }

    /** Steps 1 and 2: upsert the file row, mark the session uploaded, link the row once; gives the row's id. */
    method RegisterFile(ev: FinalizeEvent, d: Delivery) returns (fileId: string)
      modifies this
      ensures State() == Register(old(State()), ev, d)
      ensures ev.objectKey in files && fileId == files[ev.objectKey].id
    {
      var row := CreateOrUpdateFromFinalize(ev, d.newFileId, d.newFileLink);
      fileId := row.id;
      if Truthy(ev.uploadId) {
        MarkSessionStatus(ev.uploadId, Uploaded);
        if !Truthy(row.uploadId) {
          LinkUpload(ev.objectKey, ev.uploadId);
        }
      }
    }

    /** Step 3: route by content type, then enqueue and mark the session processing, or mark both ready. */
    method RouteFile(ev: FinalizeEvent, d: Delivery, fileId: string) returns (outcome: Outcome)
      requires ev.objectKey in files && fileId == files[ev.objectKey].id
      modifies this
      ensures Step(State(), outcome) == Route(old(State()), ev, d)
    {
      if !ev.contentType.JStr? {
        return Failed(MalformedPayload);
      }
      var topic := DetectJobTopic(ev.contentType.s);
      if topic.Some? {
        var accepted := EnqueueJob(topic.value, JobFor(ev, fileId, ev.contentType.s, d.now), d.enqueueFails);
        if !accepted {
          return Failed(EnqueueFailed);
        }
        if Truthy(ev.uploadId) {
          MarkSessionStatus(ev.uploadId, Processing);
        }
      } else {
        MarkFileStatus(ev.objectKey, FileReady);
        if Truthy(ev.uploadId) {
          MarkSessionStatus(ev.uploadId, Ready);
        }
      }
      return Acked;
    }

    /** `handle_gcs_finalize_push`: the new stores and the outcome are those of Finalize. */
    method HandleFinalizePush(d: Delivery) returns (outcome: Outcome)
      requires Valid()
      modifies this
      ensures Valid()
      ensures Step(State(), outcome) == Finalize(old(State()), d)
    {
      FinalizeKeepsRowsAtTheirKeys(State(), d);
      var read := ReadDelivery(d);
      if read.Err? {
        return Failed(read.error);
      }
      var ev := read.value;
      FinalizeOfEvent(State(), d, ev);
      var fileId := RegisterFile(ev, d);
      outcome := RouteFile(ev, d, fileId);
    }
  }
}
