/**
 * `GetUploadSessionHandler.do_process`: look a session up by id or, failing
 * that, by object key. The two store lookups are parameters.
 */
module GetUploadSessionHandler {
  import opened Results
  import opened UploadRecords

  /** `params.get(key)`, truthy: present and non-empty. */
  predicate Given(params: map<string, string>, key: string)
  {
    key in params && params[key] != ""
  }

  const BothMissing := HttpError(400, "upload_id or object_key required")
  const NotFound := HttpError(404, "Upload session not found")

  /**
   * `do_process`: a non-empty upload_id is looked up by id, else a non-empty
   * object_key by key; with neither it is a 400, and a lookup that finds
   * nothing is a 404. A found row is returned as stored.
   */
  function GetUploadSession(params: map<string, string>,
                            getById: string -> Option<UploadSession>,
                            getByObjectKey: string -> Option<UploadSession>)
    : (r: Result<UploadSession, HttpFailure>)
    ensures r == Err(BothMissing) <==> !Given(params, "upload_id") && !Given(params, "object_key")
    ensures r.Err? ==> r.error == BothMissing || r.error == NotFound
    ensures r.Ok? ==>
      if Given(params, "upload_id") then getById(params["upload_id"]) == Some(r.value)
      else getByObjectKey(params["object_key"]) == Some(r.value)
    ensures Given(params, "upload_id") || Given(params, "object_key") ==>
      var found := if Given(params, "upload_id") then getById(params["upload_id"]) else getByObjectKey(params["object_key"]);
      r == if found.Some? then Ok(found.value) else Err(NotFound)
  {
    if !Given(params, "upload_id") && !Given(params, "object_key") then Err(BothMissing)
    else
      var found := if Given(params, "upload_id") then getById(params["upload_id"]) else getByObjectKey(params["object_key"]);
      if found.None? then Err(NotFound) else Ok(found.value)
  }

  /** A given upload_id wins: the object_key parameter and the key lookup then play no part. */
  lemma UploadIdTakesPrecedence(params: map<string, string>, objectKey: string,
                                getById: string -> Option<UploadSession>,
                                getByObjectKey: string -> Option<UploadSession>,
                                otherByObjectKey: string -> Option<UploadSession>)
    requires Given(params, "upload_id")
    ensures GetUploadSession(params, getById, getByObjectKey)
         == GetUploadSession(params["object_key" := objectKey], getById, otherByObjectKey)
    ensures GetUploadSession(params, getById, getByObjectKey)
         == if getById(params["upload_id"]).Some? then Ok(getById(params["upload_id"]).value) else Err(NotFound)
  {
    assert Given(params["object_key" := objectKey], "upload_id");
  }

  /** An empty upload_id counts as missing: the lookup falls through to the object key. */
  lemma EmptyUploadIdFallsBackToObjectKey(params: map<string, string>,
                                          getById: string -> Option<UploadSession>,
                                          getByObjectKey: string -> Option<UploadSession>)
    requires Given(params, "object_key")
    ensures GetUploadSession(params["upload_id" := ""], getById, getByObjectKey)
         == if getByObjectKey(params["object_key"]).Some? then Ok(getByObjectKey(params["object_key"]).value) else Err(NotFound)
  {
    assert params["upload_id" := ""]["object_key"] == params["object_key"];
  }
}
