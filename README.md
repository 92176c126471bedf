# meilisearch-go fast client, modelled in Dafny

This project models the fast HTTP client of the Go library for Meilisearch
(senyast4745/meilisearch-go), and proves properties of that model.

- **The request dispatcher** is modelled in `dispatch.dfy`. It covers
  `executeRequest`, `sendRequest`, `handleStatusCode` and `handleResponse`.
  The dispatcher runs one request descriptor through a fixed pipeline:
  1. parse the URL;
  2. merge the query parameters;
  3. marshal the body;
  4. call the transport;
  5. check the status code;
  6. decode the response.

  The dispatcher fills in a diagnostic error record as it goes.
  - The pure function `Execute` states a whole call.
  - The class `FastHttpClient` is the imperative dispatcher. Its `ExecuteRequest` is proved to compute `Execute`. It fills an `Error` object field by field, and the `Transport` object logs every request it is handed.
  - The URL parser, the query encoder, the JSON codecs and the server are parameters (`Env` and the transport function).
  - `Execute` reads the server's reply before the response is released. As written, the source reads it after the release; `ExecuteAsWritten` models that, and Findings records the difference.
- **The completion poller** is modelled in `poller.dfy`. It covers `WaitForPendingUpdate` and `DefaultWaitForPendingUpdate`.
  - The poller is a loop proved against the function `Wait`.
  - Each poll is the updates resource's `Get`, dispatched through `Call`.
- **The resource methods** are modelled in `updates.dfy`, `search.dfy`, `documents.dfy`, `indexes.dfy` and `settings.dfy`.
  - Each method is the descriptor it hands to the dispatcher.
  - A method that returns `(resp, err)` is `Dispatch.Call` applied to that descriptor. The delete of an index is `Dispatch.Confirmed`. The document Get and List return only `err`, so they are `Execute` itself.
  - Search normalises its request imperatively, in `BuildSearchQuery`.
  - The document List fills its query-parameter map imperatively, in `ListQueryParams`.
- **The hand-written codecs of types.go** are modelled in `types.dfy`:
  - the `UpdateStatus` values;
  - the byte-identity codecs of `Str` and `RawType`;
  - the list unmarshallers of `StrsArr`, `Indexes` and `Updates`, as in-place loops over a receiver `Ref`;
  - the list marshallers.
- `strconv.dfy` models `strconv.FormatInt` and `strings.Join`, which put ids and attribute lists on the wire. Each comes with its inverse.
- `common.dfy` holds the shared vocabulary: `Option`, bytes, and Go's `string(b)`.

Go's nil is modelled as `Option.None`:
- a nil slice of accepted codes is `None`, and an empty one is `Some([])`;
- a nil response target is `None`;
- a nil body is `None`.

A response target is carried by value: `withResponse` holds what the target contains when the call starts. The dispatcher returns what the target contains at the end.

## Model

| member | source | states |
|---|---|---|
| Dispatch.FastHttpClient.constructor | fast_client.go:54-67 | the client keeps the configuration and the transport it is given |
| Dispatch.Headers | fast_client.go:163-167 | Content-Type is always application/json; X-Meili-API-Key is present exactly when the configured key is non-empty, and holds that key; no other header is set |
| Dispatch.Merged | fast_client.go:132-139 | every descriptor parameter replaces a same-named key of the URL's query as a single value; every other key of the URL's query is kept; no other key appears |
| Dispatch.MergeQuery | fast_client.go:132-139 | the loop over the parameter map computes exactly the merge above |
| Dispatch.IsAccepted | fast_client.go:185-189 | the search loop answers true exactly when the status is in the list |
| Dispatch.Transport.Do | fast_client.go:170 | the transport answers as the server does and logs exactly the one request it was handed |
| Dispatch.Error.constructor | fast_client.go:84-93 | the record starts with the values it is given (those of `InitialRecord`) |
| Dispatch.Error.WithErrCode | fast_client.go:158 | sets the error code and the cause and changes nothing else; the error returned carries the record |
| Dispatch.Error.ErrorBody | fast_client.go:194 | keeps the raw body as response text and the server's message when one can be read |
| Dispatch.FastHttpClient.SendRequest | fast_client.go:118-178 | the record, the reply and the error are those of `SendSpec`; the transport is called at most once, only when the URL parsed and the body marshalled |
| Dispatch.FastHttpClient.HandleStatusCode | fast_client.go:180-200 | the call fails exactly when a list of accepted codes is given and the status is not in it; a rejection records the body and the error code ResponseStatusCode, with no cause; otherwise the record is unchanged |
| Dispatch.FastHttpClient.HandleResponse | fast_client.go:202-213 | with no target, nothing is read, nothing changes and there is no error; with one, the raw body becomes the response text, the target becomes the decoder's result, and a decoding error is reported with the error code ResponseUnmarshalBody |
| Dispatch.FastHttpClient.ExecuteRequest | fast_client.go:83-116 | the error and the final target are those of `Execute`; the transport log grows by exactly the request `Execute` sends |
| Dispatch.Pipeline | fast_client.go:83-213 | the full sequence of external calls starts with ParseUrl and includes Send; it includes Marshal exactly when there is a body and Unmarshal exactly when there is a target |
| Dispatch.StepsFollowPipeline | fast_client.go:83-116 | every call makes a non-empty prefix of the pipeline's external calls, in order, and stops at the first failure; a call that succeeds makes all of them |
| Dispatch.UrlFailureSendsNothing | fast_client.go:126-129 | a URL the parser rejects is reported as a URL error; nothing is marshalled or sent; the target is untouched |
| Dispatch.SentRequestShape | fast_client.go:126-170 | the request sent carries the parsed URL with the parameters merged, the descriptor's method, `Headers(config)`, and the marshalled bytes exactly when there is a body |
| Dispatch.NoQueryParamsKeepsUrl | fast_client.go:132 | with no parameter map, the parsed URL goes out unchanged |
| Dispatch.MarshalFailureSendsNothing | fast_client.go:149-159 | a marshal failure gives the error code MarshalRequest with the marshaller's cause; the request text is the bytes marshalled even so; nothing is sent |
| Dispatch.TransportFailureReported | fast_client.go:170-175 | a transport failure gives the error code RequestExecution with the transport's cause; the status stays 0; nothing is decoded; the target is untouched |
| Dispatch.StatusCodeChecked | fast_client.go:180-200 | the status is recorded once a reply arrives; the reply is rejected exactly when a list is given and the status is not in it, so an empty list rejects everything; a rejected reply is never decoded and the raw body is kept |
| Dispatch.NoTargetIgnoresBody | fast_client.go:202-213 | with no target, an accepted reply succeeds; the body is not decoded and not recorded |
| Dispatch.ResponseDecoded | fast_client.go:202-213 | an accepted reply is decoded into the target; the raw body becomes the response text; the call succeeds exactly when decoding does; otherwise it fails with the error code ResponseUnmarshalBody |
| Dispatch.SuccessCharacterised | fast_client.go:83-116 | a call succeeds exactly when the URL parses, the body (if any) marshals, the transport answers, the status is accepted and the target (if any) decodes |
| Dispatch.ErrorsCarryRecord | fast_client.go:84-93 | every error other than a URL error carries the record and an error code; the record names the endpoint, method, function, API and expected codes; it keeps "empty request" without a body and "empty meilisearch message" unless the status was rejected |
| Dispatch.Released | fast_client.go:141-144 | a released response reads as status 200 with an empty body; a failed exchange stays exactly as it was |
| Dispatch.AsWrittenIgnoresReply | fast_client.go:83-178 | as written, two servers that fail on the same requests, with the same causes, give the same outcome whatever status and body they answer; the request sent is the corrected dispatcher's; the status recorded after a reply is always 200 |
| Dispatch.CallAnswers | fast_client_updates.go:30-34 | a resource method returns `(nil, err)` exactly when the dispatch fails; it returns a value only after an accepted reply that decoded without error, and the value is what the decoder made of the initial target |
| Dispatch.Confirmed | fast_client_indexes.go:127-132 | a method with no target returns true exactly when there is no error; the error is the dispatch's own; true means an accepted reply whose body was not decoded |
| Poller.CtxErr | fast_client.go:234 | the context reports no error exactly while it is neither cancelled nor past its deadline; otherwise it reports Canceled or DeadlineExceeded |
| Poller.WaitForPendingUpdate | fast_client.go:226-246 | the loop returns the status and error of `Wait`, polling the updates resource's Get |
| Poller.DefaultContext | fast_client.go:215-219 | the default context is never cancelled, and its deadline falls after 5000 ms / 50 ms intervals |
| Poller.DefaultWaitForPendingUpdate | fast_client.go:215-220 | the default wait is `Wait` under the default context |
| Poller.WaitFromCharacterised | fast_client.go:233-245 | each poll before the last found the update enqueued, with the context live; the poller then stops in one of three ways: on the context's error (status "", no poll made), on a failed request ("unknown", no error), or on the first status that is not enqueued (that status, no error); it never goes past the deadline |
| Poller.EndedContextReturnsAtOnce | fast_client.go:234-236 | a context that has already ended gives ("", its error) with no poll made |
| Poller.NeverReturnsEnqueued | fast_client.go:238-243 | without an error the status is never "enqueued"; with one, the status is "" and the error is Canceled or DeadlineExceeded |
| Poller.FailedFetchYieldsUnknown | fast_client.go:237-240 | a request that fails after only enqueued answers ends the wait with ("unknown", no error); the request's error is dropped |
| Poller.PollsUntilContextEnds | fast_client.go:233-245 | the poller has no bound of its own: while the update stays enqueued and the context is never cancelled, it polls until the deadline and then reports DeadlineExceeded, after exactly as many polls as the deadline is intervals away |
| Poller.DefaultWaitBounded | fast_client.go:215-220 | the default wait makes at most 100 polls; its only possible error is DeadlineExceeded, after exactly 100 intervals |
| Strconv.FormatIntRoundTrip | fast_client_updates.go:21 | the decimal rendering of an id parses back to the id |
| Strconv.FormatIntInjective | fast_client_updates.go:21 | two ids with the same decimal rendering are equal |
| Strconv.SplitJoin | fast_client_documents.go:94 | splitting the comma-joined list at commas gives back the list, when no item contains a comma |
| Updates.IndexID | fast_client_updates.go:57-59 | returns the uid the resource was built with |
| Updates.Get | fast_client_updates.go:17-28 | GET "/indexes/"+uid+"/updates/"+the decimal id; no body; only 200 accepted; the target is a zero Update |
| Updates.List | fast_client_updates.go:37-48 | GET "/indexes/"+uid+"/updates"; no body; only 200 accepted; the target is an empty list of updates |
| Updates.GetEndpointEncodesId | fast_client_updates.go:21 | Get's endpoint starts with the index's updates path, and what follows parses back to the id |
| Updates.GetEndpointInjective | fast_client_updates.go:21 | two updates of one index never share an endpoint |
| Search.IndexID | fast_client_search.go:77-79 | returns the uid the resource was built with |
| Search.EffectiveLimit | fast_client_search.go:22-24 | a requested limit of 0 means the default 20; any other limit is kept; the result is never 0 |
| Search.BuildSearchQuery | fast_client_search.go:20-58 | the conditional assignments build exactly `SearchQuery`: the query text unless it is a placeholder search; no limit (0) when the effective limit is 20, and the request's limit otherwise; every other field copied; placeholder search never set |
| Search.Search | fast_client_search.go:60-68 | POST "/indexes/"+uid+"/search" with the normalised body; only 200 accepted; the target is an empty search response |
| Search.LimitPreserved | fast_client_search.go:22-37 | a server that reads 0 as 20 sees the limit the caller meant; the limit sent is 0 exactly when the effective limit is 20 |
| Search.NormalisationIdempotent | fast_client_search.go:20-58 | normalising a normalised body changes nothing |
| Documents.IndexID | fast_client_documents.go:198-200 | returns the uid the resource was built with |
| Documents.ListQuery | fast_client_documents.go:81-95 | "limit", "offset" and "attributesToRetrieve" are present exactly when the limit is non-zero, the offset is non-zero and the list is non-empty; no other key is present |
| Documents.ListQueryParams | fast_client_documents.go:81-95 | the conditional inserts build exactly `ListQuery` |
| Documents.ListQueryDecodes | fast_client_documents.go:87-95 | the limit and offset parameters parse back to the request's numbers; the attribute parameter splits back to the requested names when none contains a comma |
| Documents.Get | fast_client_documents.go:19-28 | GET "/indexes/"+uid+"/documents/"+identifier; no body; only 200 accepted; the caller's target |
| Documents.Delete | fast_client_documents.go:37-47 | DELETE on the same path; no body; only 202 accepted; an update-id target |
| Documents.Deletes | fast_client_documents.go:56-66 | POST ".../documents/delete-batch" with the identifiers; only 202 accepted |
| Documents.List | fast_client_documents.go:75-85 | GET ".../documents" with the request as the body and as the query parameters; the parameter map is always present; only 200 accepted; the caller's target |
| Documents.AddOrReplace | fast_client_documents.go:104-114 | POST ".../documents" with the caller's documents; only 202 accepted; an update-id target |
| Documents.AddOrReplaceWithPrimaryKey | fast_client_documents.go:123-133 | the endpoint is ".../documents?primaryKey="+key, with the key verbatim |
| Documents.AddOrUpdate | fast_client_documents.go:142-152 | PUT ".../documents" with the caller's documents; only 202 accepted; an update-id target |
| Documents.AddOrUpdateWithPrimaryKey | fast_client_documents.go:161-171 | the endpoint is ".../documents?primaryKey="+key, with the key verbatim |
| Documents.DeleteAllDocuments | fast_client_documents.go:179-189 | DELETE ".../documents"; no body; only 202 accepted; an update-id target |
| Documents.PrimaryKeyVariantsAppendKey | fast_client_documents.go:123-171 | each primary-key variant is its plain write with "?primaryKey="+key appended to the endpoint, without escaping; everything else is the same |
| Documents.AddVerbsDiffer | fast_client_documents.go:104-152 | replacing (POST) and updating (PUT) documents differ only in the method |
| Documents.SharedEndpoints | fast_client_documents.go:19-189 | one document is read and deleted at the same endpoint, by different methods; deleting all documents uses List's endpoint |
| Indexes.Get | fast_client_indexes.go:19-29 | GET "/indexes/"+uid; no body; only 200 accepted; the target is a zero Index |
| Indexes.List | fast_client_indexes.go:38-51 | GET "/indexes"; no body; only 200 accepted; the target is an empty list of indexes |
| Indexes.Create | fast_client_indexes.go:60-68 | POST "/indexes" with the request; only 201 accepted; the target is the unallocated response pointer |
| Indexes.UpdateName | fast_client_indexes.go:78-88 | PUT "/indexes/"+uid with a Name body; only 200 accepted; the target is a zero Index |
| Indexes.UpdatePrimaryKey | fast_client_indexes.go:97-107 | PUT "/indexes/"+uid with a PrimaryKey body; only 200 accepted; the target is a zero Index |
| Indexes.Delete | fast_client_indexes.go:116-125 | DELETE "/indexes/"+uid; no body; no target; only 204 accepted |
| Indexes.DeleteAsWrittenNeverConfirmed | fast_client_indexes.go:116-132 | as written, deleting an index always ends in an error, whatever the server answers; the corrected dispatcher confirms a delete that the server answers with 204, once the URL parses |
| Indexes.DeleteConfirmedOnlyBy204 | fast_client_indexes.go:116-132 | Delete returns true exactly when there is no error, and exactly when the server answered 204; the body is never decoded |
| Indexes.CreateAnswersOnlyOn201 | fast_client_indexes.go:60-75 | Create returns a result only after a 201; that the result is the unallocated pointer it started with holds by the target's type |
| Indexes.IndexEndpointShared | fast_client_indexes.go:19-125 | Get, UpdateName, UpdatePrimaryKey and Delete share the index's endpoint; the two updates differ in their body |
| IndexSettings.IndexID | fast_client_settings.go:12-18 | returns the uid the resource was built with |
| IndexSettings.GetAll | fast_client_settings.go:24-34 | GET "/indexes/"+uid+"/settings"; no body; only 200 accepted; an empty Settings target; API name "Settings" |
| IndexSettings.UpdateAll | fast_client_settings.go:42-52 | POST on the same endpoint with the settings; only 202 accepted; API name "Documents" |
| IndexSettings.ResetAll | fast_client_settings.go:61-71 | DELETE on the same endpoint; no body; only 202 accepted; API name "Documents" |
| IndexSettings.GetRankingRules | fast_client_settings.go:80-90 | GET ".../settings/ranking-rules"; no body; only 200 accepted; an empty list target |
| IndexSettings.UpdateRankingRules | fast_client_settings.go:98-108 | POST ".../settings/ranking-rules" with the list; only 202 accepted |
| IndexSettings.ResetRankingRules | fast_client_settings.go:117-127 | DELETE ".../settings/ranking-rules"; only 202 accepted |
| IndexSettings.GetDistinctAttribute | fast_client_settings.go:136-146 | GET ".../settings/distinct-attribute"; only 200 accepted; the target starts as the empty Str |
| IndexSettings.UpdateDistinctAttribute | fast_client_settings.go:155-165 | POST ".../settings/distinct-attribute" with the Str; only 202 accepted |
| IndexSettings.ResetDistinctAttribute | fast_client_settings.go:174-184 | DELETE ".../settings/distinct-attribute"; only 202 accepted |
| IndexSettings.GetSearchableAttributes | fast_client_settings.go:193-203 | GET ".../settings/searchable-attributes"; only 200 accepted; an empty list target |
| IndexSettings.UpdateSearchableAttributes | fast_client_settings.go:211-221 | POST ".../settings/searchable-attributes" with the list; only 202 accepted |
| IndexSettings.ResetSearchableAttributes | fast_client_settings.go:230-240 | DELETE ".../settings/searchable-attributes"; only 202 accepted |
| IndexSettings.GetDisplayedAttributes | fast_client_settings.go:249-259 | GET ".../settings/displayed-attributes"; only 200 accepted; an empty list target |
| IndexSettings.UpdateDisplayedAttributes | fast_client_settings.go:267-277 | POST ".../settings/displayed-attributes" with the list; only 202 accepted |
| IndexSettings.ResetDisplayedAttributes | fast_client_settings.go:286-296 | DELETE ".../settings/displayed-attributes"; only 202 accepted |
| IndexSettings.GetStopWords | fast_client_settings.go:305-315 | GET ".../settings/stop-words"; only 200 accepted; an empty list target |
| IndexSettings.UpdateStopWords | fast_client_settings.go:323-333 | POST ".../settings/stop-words" with the list; only 202 accepted |
| IndexSettings.ResetStopWords | fast_client_settings.go:342-352 | DELETE ".../settings/stop-words"; only 202 accepted |
| IndexSettings.GetSynonyms | fast_client_settings.go:361-371 | GET ".../settings/synonyms"; only 200 accepted; an empty map target |
| IndexSettings.UpdateSynonyms | fast_client_settings.go:379-389 | POST ".../settings/synonyms" with the map; only 202 accepted |
| IndexSettings.ResetSynonyms | fast_client_settings.go:398-408 | DELETE ".../settings/synonyms"; only 202 accepted |
| IndexSettings.GetAttributesForFaceting | fast_client_settings.go:417-427 | GET ".../settings/attributes-for-faceting"; only 200 accepted; an empty list target |
| IndexSettings.UpdateAttributesForFaceting | fast_client_settings.go:435-445 | POST ".../settings/attributes-for-faceting" with the list; only 202 accepted; API name "Settings", unlike the other writes |
| IndexSettings.ResetAttributesForFaceting | fast_client_settings.go:454-464 | DELETE ".../settings/attributes-for-faceting"; only 202 accepted; API name "Settings" |
| IndexSettings.OnePartOneEndpoint | fast_client_settings.go:80-127 | the read, update and reset of one part share an endpoint; they differ in method, body and accepted code (GET/200, POST with a body/202, DELETE/202) |
| IndexSettings.PartsHaveDistinctEndpoints | fast_client_settings.go:24-464 | different parts of the settings never share an endpoint |
| IndexSettings.EndpointsBelowSettings | fast_client_settings.go:24-464 | every endpoint starts with "/indexes/"+uid+"/settings", and only the whole settings object has exactly that endpoint |
| Types.NamedStatuses | types.go:64-76 | the four named statuses are "unknown", "enqueued", "processed" and "failed"; they are distinct and non-empty |
| Types.StrUnmarshal | types.go:325-333 | the bytes are stored verbatim: marshalling them gives back the input |
| Types.RawTypeUnmarshal | types.go:201-208 | the bytes are stored verbatim: marshalling them gives back the input |
| Types.StrCodecsInverse | types.go:201-333 | unmarshal after marshal is the identity, for both Str and RawType |
| Types.StrsArrDecodeAppends | types.go:210-229 | a parse error or a body that is not an array leaves the receiver as it was; otherwise one rendering per element is appended, in order, after the old contents |
| Types.StrsArrUnmarshalJSON | types.go:210-229 | the loop leaves the receiver and the error of `StrsArrDecode` |
| Types.IndexesDecodeElems | types.go:255-267 | the old contents are kept as a prefix; at most one entry is added per element; every element is added when nothing fails |
| Types.UpdatesDecodeElems | types.go:297-307 | the same, for the decoder that reuses one record |
| Types.IndexesDecodeCorrect | types.go:255-267 | corrected decoder: the receiver gains the value of every element before the first failure, in order; the call returns that failure's error, or none |
| Types.UpdatesDecodeCorrect | types.go:297-307 | corrected decoder: each entry appended is the previous entry (the reused record first) updated by its element's own bytes, with no error; on success there is one per element; on failure the loop stopped at the first element that fails, before appending it, and returns the error of decoding that element on top of the last entry appended |
| Types.IndexesAsWrittenIgnoresElements | types.go:257-259 | as written, the outcome depends only on how many elements the array has, not on what they contain |
| Types.UpdatesAsWrittenIgnoresElements | types.go:299-301 | as written, the same holds for Updates |
| Types.IndexesAsWrittenRejectsValidArray | types.go:257-259 | with a decoder that accepts only `{}`, the array `[{}]` fails as written and decodes when corrected |
| Types.IndexesUnmarshalJSONAsWritten | types.go:240-270 | the loop as written leaves the result of the list decoder fed with the empty buffer |
| Types.IndexesUnmarshalJSON | types.go:240-270 | the corrected loop leaves the result of the list decoder fed with each element's own bytes |
| Types.UpdatesUnmarshalJSONAsWritten | types.go:285-310 | the loop as written leaves the result of the reusing decoder fed with the empty buffer |
| Types.UpdatesUnmarshalJSON | types.go:285-310 | the corrected loop leaves the result of the reusing decoder fed with each element's own bytes |
| Types.StrsArrMarshal | types.go:231-238 | an array with one string item per element, in order |
| Types.ObjectsMarshal | types.go:272-323 | success exactly when every record marshals, giving one string item per record holding its bytes, in order; otherwise the error of the first record that fails |

## Left out

- Dispatch.Execute: reads the reply as if the response were released after executeRequest has read it. As written, sendRequest releases the response before returning it (see Findings); `Dispatch.ExecuteAsWritten` models that order. What a released response reads as is taken from fasthttp, which is not part of this model: status 200 and an empty body. A pooled response reused by another request at the same time is not modelled.
- The fasthttp transport is left out. So are request and response pooling, `url.Parse`, `url.Values.Encode` and `requestURL.String()`. The URL parser and the query encoder are parameters of `Env`. The server is a function from the request sent to the reply.
- JSON encoding and decoding are left out. This covers fastjson, encoding/json and the generated codecs of `Index`, `Update`, `Query`, `Settings`, `CreateIndexRequest` and `CreateIndexResponse`. They are parameters that may fail. Rendering a fastjson value as text (`val.String()`) is a parameter too. `Types.StrsArrMarshal` and `Types.ObjectsMarshal` compute the array tree built in the fastjson arena. Serialising that tree to bytes (`MarshalTo(nil)`) and the `([]byte, error)` result that carries them are not modelled.
- The `Synonyms` codecs (types.go:335-342) are left out. They call `json.Marshal` and `json.Unmarshal` on their own type, so they recurse into themselves.
- `Error`, `WithErrCode` and `ErrorBody` are defined outside the files modelled. They are modelled as a record. `ErrorBody` is taken to store the raw body as the response text, and to store the server's message when a parameter can extract one.
- Dispatch.FastHttpClient.ExecuteRequest: the response target is not written through a pointer. Its final content is returned instead, so aliasing between the target and other state is not modelled.
- Poller.WaitForPendingUpdate: `context.Context`, `time.Sleep` and wall-clock time are not modelled. Time is counted in intervals slept, and the time a request takes counts as zero. A context is given by the number of intervals after which it is cancelled (if ever) and the number after which its deadline has passed. The interval argument therefore does not appear. A context that never ends, such as `context.Background()` or a cancellable context that is never cancelled, cannot be represented, because every modelled context has a deadline. On such a context the source polls forever while the update stays enqueued. `Poller.PollsUntilContextEnds` shows that the number of polls is bounded only by the context.
- Poller.WaitForPendingUpdate: the update id is passed by value, while the source takes `*AsyncUpdateID`. A nil id therefore cannot be expressed. In the source, a nil id panics when it is dereferenced for the first poll (fast_client.go:237), while the context is live; a context that has already ended returns `("", err)` without touching it. That panic path is not modelled.
- Poller.DefaultWaitForPendingUpdate: "5 seconds polled every 50 ms" becomes a deadline after 100 intervals.
- The `log.Printf` calls are left out. They are side effects only.
- The unused parser pool `prp` (fast_client_indexes.go:9, 40-41) is left out.
- Indexes.Create: decoding into the unallocated response pointer is left to the target's decoder. What that decoder does with a nil receiver is not modelled.
- client.go is not part of this model. Its `Config` is folded into `Dispatch.Config`.
- The Keys, Stats, Health and Version resources are not part of this model. So are the `Indexes()`/`Documents()`/… accessors and the `Client()` getters, which only return the fields they were built with.
- Integer widths are modelled where a value is sent: ids and limits are `int64`. The status code and the decimal rendering need no wrap-around.

## Findings

| source | as written | input that shows it | evidently intended | confidence | as-written member | corrected member |
|---|---|---|---|---|---|---|
| types.go:257-259 | `val.MarshalTo(bf.Bytes())` returns a new slice, and that slice is dropped. The buffer `bf` stays empty, so each `Index` is decoded from zero bytes. | A list body `[{}]` with an Index decoder that accepts `{}` and rejects empty input: the call fails on the first element. | Each element's decoder receives that element's own JSON bytes. | not executed | Types.IndexesAsWrittenRejectsValidArray | Types.IndexesDecodeCorrect |
| types.go:299-301 | The same dropped `MarshalTo` result: the reused `Update` record is decoded from zero bytes for every element. | Any list of updates whose decoder rejects empty input fails on the first element. Whatever the elements contain, the outcome is the same. | Each element's decoder receives that element's own JSON bytes. | not executed | Types.UpdatesAsWrittenIgnoresElements | Types.UpdatesDecodeCorrect |
| fast_client.go:144 | `sendRequest` defers `fasthttp.ReleaseResponse(response)` and then returns `response`. `executeRequest` reads its status and body afterwards (fast_client.go:100, 186, 192, 206), on a response that has already been reset. | `Indexes.Delete` against a server that answers 204: the reset response reads as 200, which is not in `[204]`, so the call fails with ResponseStatusCode. A 404 with an error body reads as 200 with an empty body and goes on to the decoder. | The status and the body are read before the response is released, for example by releasing it in `executeRequest` after `handleResponse`. | not executed | Indexes.DeleteAsWrittenNeverConfirmed | Dispatch.StatusCodeChecked |
