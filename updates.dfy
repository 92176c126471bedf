/** The updates resource of one index (fast_client_updates.go): the state of
    one asynchronous update, and the list of all of them. Each method is the
    descriptor it hands to the dispatcher; calling it means
    `Dispatch.Call(config, transport, env, Get(c, id))`. */
module Updates {

  import opened Common
  import opened Strconv
  import opened Types
  import opened Dispatch

  datatype ClientUpdates = ClientUpdates(indexUID: string)

  /** The uid the resource was constructed with. */
  function IndexID(c: ClientUpdates): (uid: string)
    ensures ClientUpdates(uid) == c
  {
    c.indexUID
  }

  function Prefix(c: ClientUpdates): string
  {
    "/indexes/" + IndexID(c) + "/updates"
  }

  function Get(c: ClientUpdates, id: int64): (r: InternalRawRequest<Payload, Update>)
    ensures Shape(r, GET, "/indexes/" + c.indexUID + "/updates/" + FormatInt(id), false, StatusOK)
    ensures r.withResponse == Some(ZeroUpdate)
    ensures r.functionName == "Get" && r.apiName == "Updates"
  {
    InternalRawRequest(Prefix(c) + "/" + FormatInt(id), GET, None, Some(ZeroUpdate), None, Some([StatusOK]), "Get", "Updates")
  }

  function List(c: ClientUpdates): (r: InternalRawRequest<Payload, seq<Update>>)
    ensures Shape(r, GET, "/indexes/" + c.indexUID + "/updates", false, StatusOK)
    ensures r.withResponse == Some([])
    ensures r.functionName == "List" && r.apiName == "Updates"
  {
    InternalRawRequest(Prefix(c), GET, None, Some([]), None, Some([StatusOK]), "List", "Updates")
  }

  /** The id can be read back from Get's endpoint: what follows the index's
      updates path is the decimal id. */
  lemma {:induction false} GetEndpointEncodesId(c: ClientUpdates, id: int64)
    ensures var e := Get(c, id).endpoint;
      var p := "/indexes/" + IndexID(c) + "/updates/";
      && |p| <= |e| && e[..|p|] == p
      && ParseInt(e[|p|..]) == Some(id as int)
  {
    var e := Get(c, id).endpoint;
    var p := "/indexes/" + IndexID(c) + "/updates/";
    assert e == p + FormatInt(id);
    assert e[|p|..] == FormatInt(id);
    FormatIntRoundTrip(id);
  }

  /** Two updates of one index never share an endpoint. */
  lemma GetEndpointInjective(c: ClientUpdates, a: int64, b: int64)
    requires Get(c, a).endpoint == Get(c, b).endpoint
    ensures a == b
  {
    GetEndpointEncodesId(c, a);
    GetEndpointEncodesId(c, b);
  }
}
