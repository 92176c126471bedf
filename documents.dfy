/** The documents resource of one index (fast_client_documents.go). The
    caller's own document values are known to this model only through the JSON
    they marshal to (`Any`); the targets of Get and List are the caller's and
    of any type. */
module Documents {

  import opened Common
  import opened Strconv
  import opened Types
  import opened Dispatch

  datatype ClientDocuments = ClientDocuments(indexUID: string)

  function IndexID(c: ClientDocuments): (uid: string)
    ensures ClientDocuments(uid) == c
  {
    c.indexUID
  }

  function DocumentsPath(c: ClientDocuments): string
  {
    "/indexes/" + IndexID(c) + "/documents"
  }

  /** The target every asynchronous write decodes its update id into. */
  const NewAsyncUpdateID: AsyncUpdateID := AsyncUpdateID(0)

  // ---------------------------------------------------------------------------
  // List's query parameters

  /** The query parameters of List: each present exactly when its field is
      set, the numbers in decimal and the attribute names comma-joined. */
  function ListQuery(request: ListDocumentsRequest): (q: map<string, string>)
    ensures q.Keys <= {"limit", "offset", "attributesToRetrieve"}
    ensures "limit" in q <==> request.limit != 0
    ensures "offset" in q <==> request.offset != 0
    ensures "attributesToRetrieve" in q <==> |request.attributesToRetrieve| != 0
  {
    (if request.limit != 0 then map["limit" := FormatInt(request.limit)] else map[])
    + (if request.offset != 0 then map["offset" := FormatInt(request.offset)] else map[])
    + (if |request.attributesToRetrieve| != 0 then map["attributesToRetrieve" := Join(request.attributesToRetrieve, ',')] else map[])
  }

  /** List fills its parameter map in place (fast_client_documents.go:81-95). */
  method ListQueryParams(request: ListDocumentsRequest) returns (params: map<string, string>)
    ensures params == ListQuery(request)
  {
    params := map[];
    if request.limit != 0 {
      params := params["limit" := FormatInt(request.limit)];
    }
    if request.offset != 0 {
      params := params["offset" := FormatInt(request.offset)];
    }
    if |request.attributesToRetrieve| != 0 {
      params := params["attributesToRetrieve" := Join(request.attributesToRetrieve, ',')];
    }
  }

  /** The server can read List's parameters back: the numbers parse to the
      request's limit and offset, and splitting the attribute list at commas
      gives the requested names when none of them contains a comma. */
  lemma ListQueryDecodes(request: ListDocumentsRequest)
    ensures var q := ListQuery(request);
      && ("limit" in q ==> ParseInt(q["limit"]) == Some(request.limit as int))
      && ("offset" in q ==> ParseInt(q["offset"]) == Some(request.offset as int))
      && ("attributesToRetrieve" in q && (forall i :: 0 <= i < |request.attributesToRetrieve| ==> Free(request.attributesToRetrieve[i], ','))
          ==> Split(q["attributesToRetrieve"], ',') == request.attributesToRetrieve)
  {
    var q := ListQuery(request);
    if "limit" in q {
      assert q["limit"] == FormatInt(request.limit);
      FormatIntRoundTrip(request.limit);
    }
    if "offset" in q {
      assert q["offset"] == FormatInt(request.offset);
      FormatIntRoundTrip(request.offset);
    }
    if "attributesToRetrieve" in q && (forall i :: 0 <= i < |request.attributesToRetrieve| ==> Free(request.attributesToRetrieve[i], ',')) {
      assert q["attributesToRetrieve"] == Join(request.attributesToRetrieve, ',');
      SplitJoin(request.attributesToRetrieve, ',');
    }
  }

  // ---------------------------------------------------------------------------
  // Descriptors

  function Get<T>(c: ClientDocuments, identifier: string, documentPtr: Option<T>): (r: InternalRawRequest<Payload, T>)
    ensures Shape(r, GET, "/indexes/" + c.indexUID + "/documents/" + identifier, false, StatusOK)
    ensures r.withResponse == documentPtr
    ensures r.functionName == "Get" && r.apiName == "Documents"
  {
    InternalRawRequest(DocumentsPath(c) + "/" + identifier, GET, None, documentPtr, None, Some([StatusOK]), "Get", "Documents")
  }

  function Delete(c: ClientDocuments, identifier: string): (r: InternalRawRequest<Payload, AsyncUpdateID>)
    ensures Shape(r, DELETE, "/indexes/" + c.indexUID + "/documents/" + identifier, false, StatusAccepted)
    ensures r.withResponse == Some(NewAsyncUpdateID)
    ensures r.functionName == "Delete" && r.apiName == "Documents"
  {
    InternalRawRequest(DocumentsPath(c) + "/" + identifier, DELETE, None, Some(NewAsyncUpdateID), None, Some([StatusAccepted]), "Delete", "Documents")
  }

  function Deletes(c: ClientDocuments, identifier: StrsArr): (r: InternalRawRequest<Payload, AsyncUpdateID>)
    ensures Shape(r, POST, "/indexes/" + c.indexUID + "/documents/delete-batch", true, StatusAccepted)
    ensures r.withRequest == Some(StrsArrBody(identifier)) && r.withResponse == Some(NewAsyncUpdateID)
    ensures r.functionName == "Deletes" && r.apiName == "Documents"
  {
    InternalRawRequest(DocumentsPath(c) + "/delete-batch", POST, Some(StrsArrBody(identifier)), Some(NewAsyncUpdateID), None, Some([StatusAccepted]), "Deletes", "Documents")
  }

  /** List sends the request both as its body and as query parameters; the
      parameter map is present even when empty, so the URL's query is always
      re-encoded. */
  function List<T>(c: ClientDocuments, request: ListDocumentsRequest, response: Option<T>): (r: InternalRawRequest<Payload, T>)
    ensures r.httpMethod == GET && r.endpoint == "/indexes/" + c.indexUID + "/documents"
    ensures r.withRequest == Some(ListDocumentsBody(request)) && r.withResponse == response
    ensures r.withQueryParams == Some(ListQuery(request))
    ensures r.acceptedStatusCodes == Some([StatusOK])
    ensures r.functionName == "List" && r.apiName == "Documents"
  {
    InternalRawRequest(DocumentsPath(c), GET, Some(ListDocumentsBody(request)), response, Some(ListQuery(request)), Some([StatusOK]), "List", "Documents")
  }

  /** The documents a write sends: the caller's marshaller, absent when the
      caller passed nil. */
  function Body(documentsPtr: Option<Any>): Option<Payload>
  {
    if documentsPtr.Some? then Some(DocumentsBody(documentsPtr.value)) else None
  }

  function AddOrReplace(c: ClientDocuments, documentsPtr: Option<Any>): (r: InternalRawRequest<Payload, AsyncUpdateID>)
    ensures Shape(r, POST, "/indexes/" + c.indexUID + "/documents", documentsPtr.Some?, StatusAccepted)
    ensures r.withRequest == Body(documentsPtr) && r.withResponse == Some(NewAsyncUpdateID)
    ensures r.functionName == "AddOrReplace" && r.apiName == "Documents"
  {
    InternalRawRequest(DocumentsPath(c), POST, Body(documentsPtr), Some(NewAsyncUpdateID), None, Some([StatusAccepted]), "AddOrReplace", "Documents")
  }

  function AddOrReplaceWithPrimaryKey(c: ClientDocuments, documentsPtr: Option<Any>, primaryKey: string): (r: InternalRawRequest<Payload, AsyncUpdateID>)
    ensures r.endpoint == "/indexes/" + c.indexUID + "/documents?primaryKey=" + primaryKey
    ensures r.functionName == "AddOrReplaceWithPrimaryKey"
  {
    AddOrReplace(c, documentsPtr).(endpoint := DocumentsPath(c) + "?primaryKey=" + primaryKey, functionName := "AddOrReplaceWithPrimaryKey")
  }

  function AddOrUpdate(c: ClientDocuments, documentsPtr: Option<Any>): (r: InternalRawRequest<Payload, AsyncUpdateID>)
    ensures Shape(r, PUT, "/indexes/" + c.indexUID + "/documents", documentsPtr.Some?, StatusAccepted)
    ensures r.withRequest == Body(documentsPtr) && r.withResponse == Some(NewAsyncUpdateID)
    ensures r.functionName == "AddOrUpdate" && r.apiName == "Documents"
  {
    InternalRawRequest(DocumentsPath(c), PUT, Body(documentsPtr), Some(NewAsyncUpdateID), None, Some([StatusAccepted]), "AddOrUpdate", "Documents")
  }

  function AddOrUpdateWithPrimaryKey(c: ClientDocuments, documentsPtr: Option<Any>, primaryKey: string): (r: InternalRawRequest<Payload, AsyncUpdateID>)
    ensures r.endpoint == "/indexes/" + c.indexUID + "/documents?primaryKey=" + primaryKey
    ensures r.functionName == "AddOrUpdateWithPrimaryKey"
  {
    AddOrUpdate(c, documentsPtr).(endpoint := DocumentsPath(c) + "?primaryKey=" + primaryKey, functionName := "AddOrUpdateWithPrimaryKey")
  }

  function DeleteAllDocuments(c: ClientDocuments): (r: InternalRawRequest<Payload, AsyncUpdateID>)
    ensures Shape(r, DELETE, "/indexes/" + c.indexUID + "/documents", false, StatusAccepted)
    ensures r.withResponse == Some(NewAsyncUpdateID)
    ensures r.functionName == "DeleteAllDocuments" && r.apiName == "Documents"
  {
    InternalRawRequest(DocumentsPath(c), DELETE, None, Some(NewAsyncUpdateID), None, Some([StatusAccepted]), "DeleteAllDocuments", "Documents")
  }

  // ---------------------------------------------------------------------------
  // How the descriptors relate

  /** A primary-key variant is its plain write with the key appended to the
      endpoint verbatim, without escaping; method, body, target and accepted
      codes are the same. */
  lemma PrimaryKeyVariantsAppendKey(c: ClientDocuments, documentsPtr: Option<Any>, primaryKey: string)
    ensures var plain := AddOrReplace(c, documentsPtr);
      var keyed := AddOrReplaceWithPrimaryKey(c, documentsPtr, primaryKey);
      keyed == plain.(endpoint := plain.endpoint + "?primaryKey=" + primaryKey, functionName := keyed.functionName)
    ensures var plain := AddOrUpdate(c, documentsPtr);
      var keyed := AddOrUpdateWithPrimaryKey(c, documentsPtr, primaryKey);
      keyed == plain.(endpoint := plain.endpoint + "?primaryKey=" + primaryKey, functionName := keyed.functionName)
  {
  }

  /** Replacing and updating documents differ only in the method: POST
      replaces, PUT updates. */
  lemma AddVerbsDiffer(c: ClientDocuments, documentsPtr: Option<Any>)
    ensures AddOrUpdate(c, documentsPtr) == AddOrReplace(c, documentsPtr).(httpMethod := PUT, functionName := "AddOrUpdate")
    ensures AddOrReplace(c, documentsPtr).httpMethod == POST
  {
  }

  /** One document is read and deleted at the same endpoint; deleting all
      documents uses the collection's endpoint, where List reads. */
  lemma SharedEndpoints<T>(c: ClientDocuments, identifier: string, documentPtr: Option<T>, request: ListDocumentsRequest)
    ensures Get(c, identifier, documentPtr).endpoint == Delete(c, identifier).endpoint
    ensures DeleteAllDocuments(c).endpoint == List(c, request, documentPtr).endpoint
    ensures Get(c, identifier, documentPtr).httpMethod != Delete(c, identifier).httpMethod
  {
  }
}
