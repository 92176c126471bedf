/** The search resource of one index (fast_client_search.go): a search request
    is normalised into the body of a POST to the index's search endpoint. The
    normalisation only sends what differs from the server's defaults: a limit
    of 0 means the default 20, and the default limit is left out (sent as 0). */
module Search {

  import opened Common
  import opened Strconv
  import opened Types
  import opened Dispatch

  datatype ClientSearch = ClientSearch(indexUID: string)

  function IndexID(c: ClientSearch): (uid: string)
    ensures ClientSearch(uid) == c
  {
    c.indexUID
  }

  const DefaultLimit: int64 := 20

  /** The limit a request asks for once 0 is read as the default. */
  function EffectiveLimit(limit: int64): (l: int64)
    ensures l != 0
    ensures limit == 0 ==> l == DefaultLimit
    ensures limit != 0 ==> l == limit
  {
    if limit == 0 then DefaultLimit else limit
  }

  /** The search body a request stands for: every field copied from the
      request, except that a placeholder search sends no query text, the default
      limit is not sent, and the body never asks for a placeholder search. */
  function SearchQuery(request: SearchRequest): Query
  {
    Query(
      query := if request.placeholderSearch then "" else request.query,
      offset := request.offset,
      limit := if EffectiveLimit(request.limit) == DefaultLimit then 0 else request.limit,
      attributesToRetrieve := request.attributesToRetrieve,
      attributesToCrop := request.attributesToCrop,
      cropLength := request.cropLength,
      attributesToHighlight := request.attributesToHighlight,
      filters := request.filters,
      matches := request.matches,
      facetsDistribution := request.facetsDistribution,
      facetFilters := request.facetFilters,
      placeholderSearch := false)
  }

  /** The normalisation of Search (fast_client_search.go:20-58): the request's
      limit is overwritten with the default, then the body is built from the
      empty query by one conditional assignment per field. */
  method BuildSearchQuery(request: SearchRequest) returns (params: Query)
    ensures params == SearchQuery(request)
  {
    var req := request;
    if req.limit == 0 {
      req := req.(limit := DefaultLimit);
    }
    assert req == request.(limit := EffectiveLimit(request.limit));
    params := EmptyQuery;
    ghost var target := SearchQuery(request);
    if !req.placeholderSearch {
      params := params.(query := req.query);
    }
    assert params == EmptyQuery.(query := target.query);
    if req.filters != "" {
      params := params.(filters := req.filters);
    }
    assert params == EmptyQuery.(query := target.query, filters := target.filters);
    if req.offset != 0 {
      params := params.(offset := req.offset);
    }
    if req.limit != DefaultLimit {
      params := params.(limit := req.limit);
    }
    assert params == EmptyQuery.(query := target.query, filters := target.filters, offset := target.offset, limit := target.limit);
    if req.cropLength != 0 {
      params := params.(cropLength := req.cropLength);
    }
    if |req.attributesToRetrieve| != 0 {
      params := params.(attributesToRetrieve := req.attributesToRetrieve);
    }
    assert params == target.(attributesToCrop := [], attributesToHighlight := [], matches := false, facetsDistribution := [], facetFilters := None);
    if |req.attributesToCrop| != 0 {
      params := params.(attributesToCrop := req.attributesToCrop);
    }
    if |req.attributesToHighlight| != 0 {
      params := params.(attributesToHighlight := req.attributesToHighlight);
    }
    assert params == target.(matches := false, facetsDistribution := [], facetFilters := None);
    if req.matches {
      params := params.(matches := req.matches);
    }
    if |req.facetsDistribution| != 0 {
      params := params.(facetsDistribution := req.facetsDistribution);
    }
    if req.facetFilters.Some? {
      params := params.(facetFilters := req.facetFilters);
    }
  }

  /** The descriptor Search dispatches (fast_client_search.go:60-68). */
  function Search(c: ClientSearch, request: SearchRequest): (r: InternalRawRequest<Payload, SearchResponse>)
    ensures Shape(r, POST, "/indexes/" + c.indexUID + "/search", true, StatusOK)
    ensures r.withRequest == Some(QueryBody(SearchQuery(request)))
    ensures r.withResponse == Some(EmptySearchResponse)
    ensures r.functionName == "Search" && r.apiName == "Search"
  {
    InternalRawRequest("/indexes/" + IndexID(c) + "/search", POST, Some(QueryBody(SearchQuery(request))),
                       Some(EmptySearchResponse), None, Some([StatusOK]), "Search", "Search")
  }

  /** A search body read back as a request. */
  function AsRequest(q: Query): SearchRequest
  {
    SearchRequest(q.query, q.offset, q.limit, q.attributesToRetrieve, q.attributesToCrop, q.cropLength,
                  q.attributesToHighlight, q.filters, q.matches, q.facetsDistribution, q.facetFilters, q.placeholderSearch)
  }

  /** A server that reads an absent limit (0) as 20 sees the limit the caller
      meant: 20 for a requested 0, the requested limit otherwise. */
  lemma LimitPreserved(request: SearchRequest)
    ensures EffectiveLimit(SearchQuery(request).limit) == EffectiveLimit(request.limit)
    ensures request.limit == 0 ==> EffectiveLimit(SearchQuery(request).limit) == 20
    ensures SearchQuery(request).limit == 0 <==> EffectiveLimit(request.limit) == 20
  {
  }

  /** Normalising a normalised body changes nothing. */
  lemma NormalisationIdempotent(request: SearchRequest)
    ensures SearchQuery(AsRequest(SearchQuery(request))) == SearchQuery(request)
  {
  }
}
