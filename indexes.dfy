/** The indexes resource (fast_client_indexes.go): reading, listing, creating,
    renaming, re-keying and deleting indexes. */
module Indexes {

  import opened Common
  import opened Types
  import opened Dispatch

  /** Create hands the dispatcher a response pointer it never allocated; the
      dispatcher still sees a target (a typed nil is not a nil interface in
      Go), and what decoding into it does is up to the target's decoder. */
  datatype CreateIndexTarget = NilCreateIndexResponse

  function IndexPath(uid: string): string
  {
    "/indexes/" + uid
  }

  function Get(uid: string): (r: InternalRawRequest<Payload, Index>)
    ensures Shape(r, GET, "/indexes/" + uid, false, StatusOK)
    ensures r.withResponse == Some(ZeroIndex)
    ensures r.functionName == "Get" && r.apiName == "Indexes"
  {
    InternalRawRequest(IndexPath(uid), GET, None, Some(ZeroIndex), None, Some([StatusOK]), "Get", "Indexes")
  }

  function List(): (r: InternalRawRequest<Payload, seq<Index>>)
    ensures Shape(r, GET, "/indexes", false, StatusOK)
    ensures r.withResponse == Some([])
    ensures r.functionName == "List" && r.apiName == "Indexes"
  {
    InternalRawRequest("/indexes", GET, None, Some([]), None, Some([StatusOK]), "List", "Indexes")
  }

  function Create(request: CreateIndexRequest): (r: InternalRawRequest<Payload, CreateIndexTarget>)
    ensures Shape(r, POST, "/indexes", true, StatusCreated)
    ensures r.withRequest == Some(CreateIndexBody(request))
    ensures r.withResponse == Some(NilCreateIndexResponse)
    ensures r.functionName == "Create" && r.apiName == "Indexes"
  {
    InternalRawRequest("/indexes", POST, Some(CreateIndexBody(request)), Some(NilCreateIndexResponse), None, Some([StatusCreated]), "Create", "Indexes")
  }

  function UpdateName(uid: string, name: string): (r: InternalRawRequest<Payload, Index>)
    ensures Shape(r, PUT, "/indexes/" + uid, true, StatusOK)
    ensures r.withRequest == Some(NameBody(name)) && r.withResponse == Some(ZeroIndex)
    ensures r.functionName == "UpdateName" && r.apiName == "Indexes"
  {
    InternalRawRequest(IndexPath(uid), PUT, Some(NameBody(name)), Some(ZeroIndex), None, Some([StatusOK]), "UpdateName", "Indexes")
  }

  function UpdatePrimaryKey(uid: string, primaryKey: string): (r: InternalRawRequest<Payload, Index>)
    ensures Shape(r, PUT, "/indexes/" + uid, true, StatusOK)
    ensures r.withRequest == Some(PrimaryKeyBody(primaryKey)) && r.withResponse == Some(ZeroIndex)
    ensures r.functionName == "UpdatePrimaryKey" && r.apiName == "Indexes"
  {
    InternalRawRequest(IndexPath(uid), PUT, Some(PrimaryKeyBody(primaryKey)), Some(ZeroIndex), None, Some([StatusOK]), "UpdatePrimaryKey", "Indexes")
  }

  function Delete(uid: string): (r: InternalRawRequest<Payload, Index>)
    ensures Shape(r, DELETE, "/indexes/" + uid, false, StatusNoContent)
    ensures r.withResponse.None?
    ensures r.functionName == "Delete" && r.apiName == "Indexes"
  {
    InternalRawRequest(IndexPath(uid), DELETE, None, None, None, Some([StatusNoContent]), "Delete", "Indexes")
  }

  /** Deleting an index reports `true` exactly when the server answered 204 No
      Content; the body of that answer is never read. */
  lemma DeleteConfirmedOnlyBy204(config: Config, transport: HttpRequest -> TransportReply, env: Env<Payload, Index>, uid: string)
    ensures var (ok, err) := Confirmed(config, transport, env, Delete(uid));
      var o := Execute(config, transport, env, Delete(uid));
      && (ok <==> err.None?)
      && (ok <==> o.sent.Some? && transport(o.sent.value).Response? && transport(o.sent.value).statusCode == StatusNoContent)
      && Unmarshal !in o.steps
  {
  }

  /** As written, the reply is read after it was released, so the server's 204
      reads as 200 and deleting an index never reports success; the corrected
      dispatcher confirms a delete the server answers with 204. */
  lemma DeleteAsWrittenNeverConfirmed(config: Config, transport: HttpRequest -> TransportReply, env: Env<Payload, Index>, uid: string)
    ensures ExecuteAsWritten(config, transport, env, Delete(uid)).err.Some?
    ensures env.parseUrl(config.host + Delete(uid).endpoint).Ok? && (forall h :: transport(h) == Response(StatusNoContent, [])) ==>
      Execute(config, transport, env, Delete(uid)).err.None?
  {
  }

  /** Creating an index succeeds only on 201 Created. Its result is the
      unallocated pointer it started with; that part holds by the target's type,
      which has no other value, since no decoder can allocate the pointer the
      method returns. */
  lemma CreateAnswersOnlyOn201(config: Config, transport: HttpRequest -> TransportReply, env: Env<Payload, CreateIndexTarget>, request: CreateIndexRequest)
    ensures var r := Call(config, transport, env, Create(request));
      var o := Execute(config, transport, env, Create(request));
      r.CallOk? ==>
        && r.value == NilCreateIndexResponse
        && o.sent.Some? && transport(o.sent.value).Response? && transport(o.sent.value).statusCode == StatusCreated
  {
    CallAnswers(config, transport, env, Create(request));
  }

  /** Renaming and re-keying write to the index's own endpoint, where Get reads
      and Delete deletes; only the body tells them apart. */
  lemma IndexEndpointShared(uid: string, name: string, primaryKey: string)
    ensures Get(uid).endpoint == UpdateName(uid, name).endpoint == UpdatePrimaryKey(uid, primaryKey).endpoint == Delete(uid).endpoint
    ensures UpdateName(uid, name).withRequest != UpdatePrimaryKey(uid, primaryKey).withRequest
  {
  }
}
