/** The settings resource of one index (fast_client_settings.go): the whole
    settings object and seven parts of it, each read (GET, answered with 200),
    updated (POST with the new value, answered with 202 and an update id) and
    reset (DELETE, answered with 202 and an update id). The 24 methods are the
    three builders below applied to their part of the settings. */
module IndexSettings {

  import opened Common
  import opened Types
  import opened Dispatch

  datatype ClientSettings = ClientSettings(indexUID: string)

  function IndexID(c: ClientSettings): (uid: string)
    ensures ClientSettings(uid) == c
  {
    c.indexUID
  }

  /** The settings object as a whole, or one part of it. */
  datatype SubResource =
    | AllSettings
    | RankingRules
    | DistinctAttribute
    | SearchableAttributes
    | DisplayedAttributes
    | StopWords
    | SynonymsSetting
    | AttributesForFaceting

  /** The path of a part below the index's endpoint. */
  function Path(s: SubResource): string
  {
    match s
    case AllSettings => "/settings"
    case RankingRules => "/settings/ranking-rules"
    case DistinctAttribute => "/settings/distinct-attribute"
    case SearchableAttributes => "/settings/searchable-attributes"
    case DisplayedAttributes => "/settings/displayed-attributes"
    case StopWords => "/settings/stop-words"
    case SynonymsSetting => "/settings/synonyms"
    case AttributesForFaceting => "/settings/attributes-for-faceting"
  }

  function Endpoint(uid: string, s: SubResource): string
  {
    "/indexes/" + uid + Path(s)
  }

  /** The label the writes put in the error record: "Documents", except for
      the faceting attributes, whose writes say "Settings". */
  function WriteApiName(s: SubResource): string
  {
    if s == AttributesForFaceting then "Settings" else "Documents"
  }

  /** A read: the target starts as the empty value of the part's type. */
  function GetRequest<T>(c: ClientSettings, s: SubResource, target: T, functionName: string): InternalRawRequest<Payload, T>
  {
    InternalRawRequest(Endpoint(IndexID(c), s), GET, None, Some(target), None, Some([StatusOK]), functionName, "Settings")
  }

  function UpdateRequest(c: ClientSettings, s: SubResource, request: Payload, functionName: string): InternalRawRequest<Payload, AsyncUpdateID>
  {
    InternalRawRequest(Endpoint(IndexID(c), s), POST, Some(request), Some(AsyncUpdateID(0)), None, Some([StatusAccepted]), functionName, WriteApiName(s))
  }

  function ResetRequest(c: ClientSettings, s: SubResource, functionName: string): InternalRawRequest<Payload, AsyncUpdateID>
  {
    InternalRawRequest(Endpoint(IndexID(c), s), DELETE, None, Some(AsyncUpdateID(0)), None, Some([StatusAccepted]), functionName, WriteApiName(s))
  }

  // ---------------------------------------------------------------------------
  // The 24 methods

  function GetAll(c: ClientSettings): (r: InternalRawRequest<Payload, Settings>)
    ensures Shape(r, GET, "/indexes/" + c.indexUID + "/settings", false, StatusOK)
    ensures r.withResponse == Some(EmptySettings)
    ensures r.functionName == "GetAll" && r.apiName == "Settings"
  {
    GetRequest(c, AllSettings, EmptySettings, "GetAll")
  }

  function UpdateAll(c: ClientSettings, request: Settings): (r: InternalRawRequest<Payload, AsyncUpdateID>)
    ensures Shape(r, POST, "/indexes/" + c.indexUID + "/settings", true, StatusAccepted)
    ensures r.withRequest == Some(SettingsBody(request)) && r.withResponse == Some(AsyncUpdateID(0))
    ensures r.functionName == "UpdateAll" && r.apiName == "Documents"
  {
    UpdateRequest(c, AllSettings, SettingsBody(request), "UpdateAll")
  }

  function ResetAll(c: ClientSettings): (r: InternalRawRequest<Payload, AsyncUpdateID>)
    ensures Shape(r, DELETE, "/indexes/" + c.indexUID + "/settings", false, StatusAccepted)
    ensures r.withResponse == Some(AsyncUpdateID(0))
    ensures r.functionName == "ResetAll" && r.apiName == "Documents"
  {
    ResetRequest(c, AllSettings, "ResetAll")
  }

  function GetRankingRules(c: ClientSettings): (r: InternalRawRequest<Payload, StrsArr>)
    ensures Shape(r, GET, "/indexes/" + c.indexUID + "/settings/ranking-rules", false, StatusOK)
    ensures r.withResponse == Some([])
    ensures r.functionName == "GetRankingRules" && r.apiName == "Settings"
  {
    GetRequest(c, RankingRules, [], "GetRankingRules")
  }

  function UpdateRankingRules(c: ClientSettings, request: StrsArr): (r: InternalRawRequest<Payload, AsyncUpdateID>)
    ensures Shape(r, POST, "/indexes/" + c.indexUID + "/settings/ranking-rules", true, StatusAccepted)
    ensures r.withRequest == Some(StrsArrBody(request)) && r.withResponse == Some(AsyncUpdateID(0))
    ensures r.functionName == "UpdateRankingRules" && r.apiName == "Documents"
  {
    UpdateRequest(c, RankingRules, StrsArrBody(request), "UpdateRankingRules")
  }

  function ResetRankingRules(c: ClientSettings): (r: InternalRawRequest<Payload, AsyncUpdateID>)
    ensures Shape(r, DELETE, "/indexes/" + c.indexUID + "/settings/ranking-rules", false, StatusAccepted)
    ensures r.withResponse == Some(AsyncUpdateID(0))
    ensures r.functionName == "ResetRankingRules" && r.apiName == "Documents"
  {
    ResetRequest(c, RankingRules, "ResetRankingRules")
  }

  function GetDistinctAttribute(c: ClientSettings): (r: InternalRawRequest<Payload, Str>)
    ensures Shape(r, GET, "/indexes/" + c.indexUID + "/settings/distinct-attribute", false, StatusOK)
    ensures r.withResponse == Some([])
    ensures r.functionName == "GetDistinctAttribute" && r.apiName == "Settings"
  {
    GetRequest(c, DistinctAttribute, [], "GetDistinctAttribute")
  }

  function UpdateDistinctAttribute(c: ClientSettings, request: Str): (r: InternalRawRequest<Payload, AsyncUpdateID>)
    ensures Shape(r, POST, "/indexes/" + c.indexUID + "/settings/distinct-attribute", true, StatusAccepted)
    ensures r.withRequest == Some(StrBody(request)) && r.withResponse == Some(AsyncUpdateID(0))
    ensures r.functionName == "UpdateDistinctAttribute" && r.apiName == "Documents"
  {
    UpdateRequest(c, DistinctAttribute, StrBody(request), "UpdateDistinctAttribute")
  }

  function ResetDistinctAttribute(c: ClientSettings): (r: InternalRawRequest<Payload, AsyncUpdateID>)
    ensures Shape(r, DELETE, "/indexes/" + c.indexUID + "/settings/distinct-attribute", false, StatusAccepted)
    ensures r.withResponse == Some(AsyncUpdateID(0))
    ensures r.functionName == "ResetDistinctAttribute" && r.apiName == "Documents"
  {
    ResetRequest(c, DistinctAttribute, "ResetDistinctAttribute")
  }

  function GetSearchableAttributes(c: ClientSettings): (r: InternalRawRequest<Payload, StrsArr>)
    ensures Shape(r, GET, "/indexes/" + c.indexUID + "/settings/searchable-attributes", false, StatusOK)
    ensures r.withResponse == Some([])
    ensures r.functionName == "GetSearchableAttributes" && r.apiName == "Settings"
  {
    GetRequest(c, SearchableAttributes, [], "GetSearchableAttributes")
  }

  function UpdateSearchableAttributes(c: ClientSettings, request: StrsArr): (r: InternalRawRequest<Payload, AsyncUpdateID>)
    ensures Shape(r, POST, "/indexes/" + c.indexUID + "/settings/searchable-attributes", true, StatusAccepted)
    ensures r.withRequest == Some(StrsArrBody(request)) && r.withResponse == Some(AsyncUpdateID(0))
    ensures r.functionName == "UpdateSearchableAttributes" && r.apiName == "Documents"
  {
    UpdateRequest(c, SearchableAttributes, StrsArrBody(request), "UpdateSearchableAttributes")
  }

  function ResetSearchableAttributes(c: ClientSettings): (r: InternalRawRequest<Payload, AsyncUpdateID>)
    ensures Shape(r, DELETE, "/indexes/" + c.indexUID + "/settings/searchable-attributes", false, StatusAccepted)
    ensures r.withResponse == Some(AsyncUpdateID(0))
    ensures r.functionName == "ResetSearchableAttributes" && r.apiName == "Documents"
  {
    ResetRequest(c, SearchableAttributes, "ResetSearchableAttributes")
  }

  function GetDisplayedAttributes(c: ClientSettings): (r: InternalRawRequest<Payload, StrsArr>)
    ensures Shape(r, GET, "/indexes/" + c.indexUID + "/settings/displayed-attributes", false, StatusOK)
    ensures r.withResponse == Some([])
    ensures r.functionName == "GetDisplayedAttributes" && r.apiName == "Settings"
  {
    GetRequest(c, DisplayedAttributes, [], "GetDisplayedAttributes")
  }

  function UpdateDisplayedAttributes(c: ClientSettings, request: StrsArr): (r: InternalRawRequest<Payload, AsyncUpdateID>)
    ensures Shape(r, POST, "/indexes/" + c.indexUID + "/settings/displayed-attributes", true, StatusAccepted)
    ensures r.withRequest == Some(StrsArrBody(request)) && r.withResponse == Some(AsyncUpdateID(0))
    ensures r.functionName == "UpdateDisplayedAttributes" && r.apiName == "Documents"
  {
    UpdateRequest(c, DisplayedAttributes, StrsArrBody(request), "UpdateDisplayedAttributes")
  }

  function ResetDisplayedAttributes(c: ClientSettings): (r: InternalRawRequest<Payload, AsyncUpdateID>)
    ensures Shape(r, DELETE, "/indexes/" + c.indexUID + "/settings/displayed-attributes", false, StatusAccepted)
    ensures r.withResponse == Some(AsyncUpdateID(0))
    ensures r.functionName == "ResetDisplayedAttributes" && r.apiName == "Documents"
  {
    ResetRequest(c, DisplayedAttributes, "ResetDisplayedAttributes")
  }

  function GetStopWords(c: ClientSettings): (r: InternalRawRequest<Payload, StrsArr>)
    ensures Shape(r, GET, "/indexes/" + c.indexUID + "/settings/stop-words", false, StatusOK)
    ensures r.withResponse == Some([])
    ensures r.functionName == "GetStopWords" && r.apiName == "Settings"
  {
    GetRequest(c, StopWords, [], "GetStopWords")
  }

  function UpdateStopWords(c: ClientSettings, request: StrsArr): (r: InternalRawRequest<Payload, AsyncUpdateID>)
    ensures Shape(r, POST, "/indexes/" + c.indexUID + "/settings/stop-words", true, StatusAccepted)
    ensures r.withRequest == Some(StrsArrBody(request)) && r.withResponse == Some(AsyncUpdateID(0))
    ensures r.functionName == "UpdateStopWords" && r.apiName == "Documents"
  {
    UpdateRequest(c, StopWords, StrsArrBody(request), "UpdateStopWords")
  }

  function ResetStopWords(c: ClientSettings): (r: InternalRawRequest<Payload, AsyncUpdateID>)
    ensures Shape(r, DELETE, "/indexes/" + c.indexUID + "/settings/stop-words", false, StatusAccepted)
    ensures r.withResponse == Some(AsyncUpdateID(0))
    ensures r.functionName == "ResetStopWords" && r.apiName == "Documents"
  {
    ResetRequest(c, StopWords, "ResetStopWords")
  }

  function GetSynonyms(c: ClientSettings): (r: InternalRawRequest<Payload, Synonyms>)
    ensures Shape(r, GET, "/indexes/" + c.indexUID + "/settings/synonyms", false, StatusOK)
    ensures r.withResponse == Some(map[])
    ensures r.functionName == "GetSynonyms" && r.apiName == "Settings"
  {
    GetRequest(c, SynonymsSetting, map[], "GetSynonyms")
  }

  function UpdateSynonyms(c: ClientSettings, request: Synonyms): (r: InternalRawRequest<Payload, AsyncUpdateID>)
    ensures Shape(r, POST, "/indexes/" + c.indexUID + "/settings/synonyms", true, StatusAccepted)
    ensures r.withRequest == Some(SynonymsBody(request)) && r.withResponse == Some(AsyncUpdateID(0))
    ensures r.functionName == "UpdateSynonyms" && r.apiName == "Documents"
  {
    UpdateRequest(c, SynonymsSetting, SynonymsBody(request), "UpdateSynonyms")
  }

  function ResetSynonyms(c: ClientSettings): (r: InternalRawRequest<Payload, AsyncUpdateID>)
    ensures Shape(r, DELETE, "/indexes/" + c.indexUID + "/settings/synonyms", false, StatusAccepted)
    ensures r.withResponse == Some(AsyncUpdateID(0))
    ensures r.functionName == "ResetSynonyms" && r.apiName == "Documents"
  {
    ResetRequest(c, SynonymsSetting, "ResetSynonyms")
  }

  function GetAttributesForFaceting(c: ClientSettings): (r: InternalRawRequest<Payload, StrsArr>)
    ensures Shape(r, GET, "/indexes/" + c.indexUID + "/settings/attributes-for-faceting", false, StatusOK)
    ensures r.withResponse == Some([])
    ensures r.functionName == "GetAttributesForFaceting" && r.apiName == "Settings"
  {
    GetRequest(c, AttributesForFaceting, [], "GetAttributesForFaceting")
  }

  function UpdateAttributesForFaceting(c: ClientSettings, request: StrsArr): (r: InternalRawRequest<Payload, AsyncUpdateID>)
    ensures Shape(r, POST, "/indexes/" + c.indexUID + "/settings/attributes-for-faceting", true, StatusAccepted)
    ensures r.withRequest == Some(StrsArrBody(request)) && r.withResponse == Some(AsyncUpdateID(0))
    ensures r.functionName == "UpdateAttributesForFaceting" && r.apiName == "Settings"
  {
    UpdateRequest(c, AttributesForFaceting, StrsArrBody(request), "UpdateAttributesForFaceting")
  }

  function ResetAttributesForFaceting(c: ClientSettings): (r: InternalRawRequest<Payload, AsyncUpdateID>)
    ensures Shape(r, DELETE, "/indexes/" + c.indexUID + "/settings/attributes-for-faceting", false, StatusAccepted)
    ensures r.withResponse == Some(AsyncUpdateID(0))
    ensures r.functionName == "ResetAttributesForFaceting" && r.apiName == "Settings"
  {
    ResetRequest(c, AttributesForFaceting, "ResetAttributesForFaceting")
  }

  // ---------------------------------------------------------------------------
  // How the builders relate

  /** Read, update and reset of one part address the same endpoint and are
      told apart by method alone: GET answered with 200, POST with a body and
      DELETE without, both answered with 202. */
  lemma OnePartOneEndpoint<T>(c: ClientSettings, s: SubResource, target: T, request: Payload, names: (string, string, string))
    ensures var g := GetRequest(c, s, target, names.0);
      var u := UpdateRequest(c, s, request, names.1);
      var d := ResetRequest(c, s, names.2);
      && g.endpoint == u.endpoint == d.endpoint == Endpoint(c.indexUID, s)
      && Shape(g, GET, g.endpoint, false, StatusOK)
      && Shape(u, POST, g.endpoint, true, StatusAccepted)
      && Shape(d, DELETE, g.endpoint, false, StatusAccepted)
  {
  }

  /** Different parts never share an endpoint. */
  lemma {:induction false} PartsHaveDistinctEndpoints(uid: string, s: SubResource, t: SubResource)
    requires Endpoint(uid, s) == Endpoint(uid, t)
    ensures s == t
  {
    var prefix := "/indexes/" + uid;
    assert Endpoint(uid, s)[|prefix|..] == Path(s);
    assert Endpoint(uid, t)[|prefix|..] == Path(t);
  }

  /** Every endpoint lies below the index's settings endpoint. */
  lemma EndpointsBelowSettings(uid: string, s: SubResource)
    ensures var prefix := "/indexes/" + uid + "/settings";
      && |prefix| <= |Endpoint(uid, s)| && Endpoint(uid, s)[..|prefix|] == prefix
      && (s == AllSettings <==> Endpoint(uid, s) == prefix)
  {
  }
}
