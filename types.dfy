/** The records exchanged with the server and the hand-written JSON codecs of
    the client (types.go). JSON parsing, element rendering and the generated
    per-record codecs are oracles: function parameters that may fail. */
module Types {

  import opened Common
  import opened Strconv

  // ---------------------------------------------------------------------------
  // Update status (types.go:64-76)

  /** `UpdateStatus` is a Go string type: the server may send any text, and the
      client names four values. */
  type UpdateStatus = string

  const UpdateStatusUnknown: UpdateStatus := "unknown"
  const UpdateStatusEnqueued: UpdateStatus := "enqueued"
  const UpdateStatusProcessed: UpdateStatus := "processed"
  const UpdateStatusFailed: UpdateStatus := "failed"

  /** The named statuses, in declaration order. */
  function NamedStatuses(): (r: seq<UpdateStatus>)
    ensures |r| == 4
    ensures forall i, j :: 0 <= i < j < |r| ==> r[i] != r[j]
    ensures forall i :: 0 <= i < |r| ==> r[i] != ""
  {
    [UpdateStatusUnknown, UpdateStatusEnqueued, UpdateStatusProcessed, UpdateStatusFailed]
  }

  // ---------------------------------------------------------------------------
  // Records (types.go:23-199). `time.Time` is an opaque timestamp; a value of
  // interface type is known only by its printed form.

  datatype Any = Any(printed: string)

  datatype Index = Index(name: string, uid: string, createdAt: int, updatedAt: int, primaryKey: string)

  const ZeroIndex: Index := Index("", "", 0, 0, "")

  datatype Update = Update(
    status: UpdateStatus,
    updateID: int64,
    updateType: map<string, Any>,
    error: string,
    enqueuedAt: int,
    processedAt: int)

  const ZeroUpdate: Update := Update("", 0, map[], "", 0, 0)

  datatype AsyncUpdateID = AsyncUpdateID(updateID: int64)

  type StrsArr = seq<string>

  type Synonyms = map<string, seq<string>>

  datatype Settings = Settings(
    rankingRules: seq<string>,
    distinctAttribute: Option<string>,
    searchableAttributes: seq<string>,
    displayedAttributes: seq<string>,
    stopWords: seq<string>,
    synonyms: Synonyms,
    attributesForFaceting: seq<string>)

  const EmptySettings: Settings := Settings([], None, [], [], [], map[], [])

  datatype CreateIndexRequest = CreateIndexRequest(name: string, uid: string, primaryKey: string)

  datatype SearchRequest = SearchRequest(
    query: string,
    offset: int64,
    limit: int64,
    attributesToRetrieve: seq<string>,
    attributesToCrop: seq<string>,
    cropLength: int64,
    attributesToHighlight: seq<string>,
    filters: string,
    matches: bool,
    facetsDistribution: seq<string>,
    facetFilters: Option<Any>,
    placeholderSearch: bool)

  /** The body of a search call; same fields as SearchRequest. */
  datatype Query = Query(
    query: string,
    offset: int64,
    limit: int64,
    attributesToRetrieve: seq<string>,
    attributesToCrop: seq<string>,
    cropLength: int64,
    attributesToHighlight: seq<string>,
    filters: string,
    matches: bool,
    facetsDistribution: seq<string>,
    facetFilters: Option<Any>,
    placeholderSearch: bool)

  const EmptyQuery: Query := Query("", 0, 0, [], [], 0, [], "", false, [], None, false)

  datatype SearchResponse = SearchResponse(hits: seq<Any>, nbHits: int64, offset: int64, limit: int64, processingTimeMs: int64, query: string)

  const EmptySearchResponse: SearchResponse := SearchResponse([], 0, 0, 0, 0, "")

  datatype ListDocumentsRequest = ListDocumentsRequest(offset: int64, limit: int64, attributesToRetrieve: seq<string>)

  /** Every request body a builder attaches; `Documents` is the caller's own
      marshaller, known by the value it wraps. */
  datatype Payload =
    | SettingsBody(settings: Settings)
    | StrsArrBody(strs: StrsArr)
    | StrBody(str: Str)
    | SynonymsBody(synonyms: Synonyms)
    | NameBody(name: string)
    | PrimaryKeyBody(primaryKey: string)
    | QueryBody(q: Query)
    | ListDocumentsBody(list: ListDocumentsRequest)
    | CreateIndexBody(create: CreateIndexRequest)
    | DocumentsBody(documents: Any)

  // ---------------------------------------------------------------------------
  // Codecs shared by the dispatcher and the list decoders

  /** What `UnmarshalJSON` leaves behind: the receiver's new value and the error
      it returned. A Go unmarshaller writes into its receiver, so the new value
      depends on the old one. */
  datatype Decoded<X> = Decoded(value: X, err: Option<Cause>)

  /** What `MarshalJSON` returns: the bytes (possibly partial) and the error. */
  datatype Marshalled = Marshalled(data: bytes, err: Option<Cause>)

  // ---------------------------------------------------------------------------
  // Str and RawType: byte-identity codecs (types.go:201-208, 325-333).
  // A Go string is its bytes, so both types are byte sequences here.

  type Str = bytes

  type RawType = bytes

  function StrMarshal(s: Str): (data: bytes)
  {
    s
  }

  /** `*s = Str(data)`: the raw bytes are kept verbatim, quotes and all. */
  function StrUnmarshal(data: bytes): (s: Str)
    ensures StrMarshal(s) == data
    ensures |s| == |data|
  {
    data
  }

  function RawTypeMarshal(b: RawType): (data: bytes)
  {
    b
  }

  function RawTypeUnmarshal(data: bytes): (b: RawType)
    ensures RawTypeMarshal(b) == data
  {
    data
  }

  lemma StrCodecsInverse(s: Str, b: RawType)
    ensures StrUnmarshal(StrMarshal(s)) == s
    ensures RawTypeUnmarshal(RawTypeMarshal(b)) == b
  {
  }

  // ---------------------------------------------------------------------------
  // List unmarshallers (types.go:210-229, 240-270, 285-310)

  /** The parser's verdict on a body: not JSON, JSON but not an array, or the
      array's elements (`ParseBytes` then `Array`). */
  datatype Parsed<E> = Malformed(cause: Cause) | NotArray(cause: Cause) | Array(elems: seq<E>)

  /** StrsArr.UnmarshalJSON as a function of the receiver's old value: each
      element's rendering (`val.String()`) is appended, in order. */
  function StrsArrDecode<E>(prior: StrsArr, data: bytes, parse: bytes -> Parsed<E>, render: E -> string): (r: (StrsArr, Option<Cause>))
  {
    match parse(data)
    case Malformed(c) => (prior, Some(c))
    case NotArray(c) => (prior, Some(c))
    case Array(es) => (prior + seq(|es|, k requires 0 <= k < |es| => render(es[k])), None)
  }

  lemma StrsArrDecodeAppends<E>(prior: StrsArr, data: bytes, parse: bytes -> Parsed<E>, render: E -> string)
    ensures var (r, err) := StrsArrDecode(prior, data, parse, render);
      && (err.None? <==> parse(data).Array?)
      && (err.Some? ==> r == prior && err == Some(parse(data).cause))
      && (err.None? ==>
            && |r| == |prior| + |parse(data).elems| && r[..|prior|] == prior
            && forall k :: 0 <= k < |parse(data).elems| ==> r[|prior| + k] == render(parse(data).elems[k]))
  {
  }

  /** Indexes.UnmarshalJSON as a function of the receiver's old value and of the
      bytes handed to each element's decoder (`bytesOf`): each element is
      decoded into a fresh zero Index and appended; the first failure stops the
      loop and is returned, elements before it staying appended. */
  function IndexesDecodeElems<E>(prior: seq<Index>, elems: seq<E>, bytesOf: E -> bytes, decode: (Index, bytes) -> Decoded<Index>): (r: (seq<Index>, Option<Cause>))
    ensures |prior| <= |r.0| <= |prior| + |elems| && r.0[..|prior|] == prior
    ensures r.1.None? ==> |r.0| == |prior| + |elems|
    decreases |elems|
  {
    if elems == [] then (prior, None)
    else
      var d := decode(ZeroIndex, bytesOf(elems[0]));
      if d.err.Some? then (prior, d.err)
      else
        var r := IndexesDecodeElems(prior + [d.value], elems[1..], bytesOf, decode);
        assert r.0[..|prior|] == (prior + [d.value])[..|prior|];
        r
  }

  function IndexesDecode<E>(prior: seq<Index>, data: bytes, parse: bytes -> Parsed<E>, bytesOf: E -> bytes, decode: (Index, bytes) -> Decoded<Index>): (r: (seq<Index>, Option<Cause>))
  {
    match parse(data)
    case Malformed(c) => (prior, Some(c))
    case NotArray(c) => (prior, Some(c))
    case Array(es) => IndexesDecodeElems(prior, es, bytesOf, decode)
  }

  /** Updates.UnmarshalJSON as a function: like Indexes, except that one Update
      record is reused, so each element is decoded on top of the previous one. */
  function UpdatesDecodeElems<E>(prior: seq<Update>, upd: Update, elems: seq<E>, bytesOf: E -> bytes, decode: (Update, bytes) -> Decoded<Update>): (r: (seq<Update>, Option<Cause>))
    ensures |prior| <= |r.0| <= |prior| + |elems| && r.0[..|prior|] == prior
    ensures r.1.None? ==> |r.0| == |prior| + |elems|
    decreases |elems|
  {
    if elems == [] then (prior, None)
    else
      var d := decode(upd, bytesOf(elems[0]));
      if d.err.Some? then (prior, d.err)
      else
        var r := UpdatesDecodeElems(prior + [d.value], d.value, elems[1..], bytesOf, decode);
        assert r.0[..|prior|] == (prior + [d.value])[..|prior|];
        r
  }

  function UpdatesDecode<E>(prior: seq<Update>, data: bytes, parse: bytes -> Parsed<E>, bytesOf: E -> bytes, decode: (Update, bytes) -> Decoded<Update>): (r: (seq<Update>, Option<Cause>))
  {
    match parse(data)
    case Malformed(c) => (prior, Some(c))
    case NotArray(c) => (prior, Some(c))
    case Array(es) => UpdatesDecodeElems(prior, ZeroUpdate, es, bytesOf, decode)
  }

  /** The bytes the source hands each element's decoder: `bf.Bytes()` of a
      buffer that nothing ever writes to, since the slice `val.MarshalTo`
      returns is dropped. */
  function EmptyBuffer<E>(e: E): bytes
  {
    []
  }

  /** The element decoder of each list: the Index (or Update) decoded from the
      i-th element's own bytes. */
  function IndexesDecoded<E>(elems: seq<E>, marshalTo: E -> bytes, decode: (Index, bytes) -> Decoded<Index>): seq<Decoded<Index>>
  {
    seq(|elems|, k requires 0 <= k < |elems| => decode(ZeroIndex, marshalTo(elems[k])))
  }

  /** Index of the first decoding that failed, or the length when none did. */
  function FirstFailure<X>(ds: seq<Decoded<X>>): (n: nat)
    ensures n <= |ds|
    ensures forall k :: 0 <= k < n ==> ds[k].err.None?
    ensures n < |ds| ==> ds[n].err.Some?
    decreases |ds|
  {
    if ds == [] then 0 else if ds[0].err.Some? then 0 else 1 + FirstFailure(ds[1..])
  }

  function Values<X>(ds: seq<Decoded<X>>): (vs: seq<X>)
    ensures |vs| == |ds| && forall k :: 0 <= k < |ds| ==> vs[k] == ds[k].value
  {
    seq(|ds|, k requires 0 <= k < |ds| => ds[k].value)
  }

  /** Corrected decoder: the receiver gains the decoded Index of every element
      before the first one that fails to decode, in order, and the call returns
      that element's error (no error when every element decodes). */
  lemma {:induction false} IndexesDecodeCorrect<E>(prior: seq<Index>, elems: seq<E>, marshalTo: E -> bytes, decode: (Index, bytes) -> Decoded<Index>)
    ensures var ds := IndexesDecoded(elems, marshalTo, decode);
      var n := FirstFailure(ds);
      IndexesDecodeElems(prior, elems, marshalTo, decode)
        == (prior + Values(ds[..n]), if n < |ds| then ds[n].err else None)
    decreases |elems|
  {
    var ds := IndexesDecoded(elems, marshalTo, decode);
    if elems == [] {
      assert ds == [] && Values(ds[..0]) == [];
      assert prior + [] == prior;
    } else {
      var d := decode(ZeroIndex, marshalTo(elems[0]));
      assert ds[0] == d;
      if d.err.None? {
        var tl := IndexesDecoded(elems[1..], marshalTo, decode);
        assert ds[1..] == tl;
        assert IndexesDecodeElems(prior, elems, marshalTo, decode)
            == IndexesDecodeElems(prior + [d.value], elems[1..], marshalTo, decode);
        IndexesDecodeCorrect(prior + [d.value], elems[1..], marshalTo, decode);
        var n := FirstFailure(tl);
        assert FirstFailure(ds) == n + 1;
        assert ds[..n + 1] == [d] + tl[..n];
        assert Values(ds[..n + 1]) == [d.value] + Values(tl[..n]);
        assert prior + [d.value] + Values(tl[..n]) == prior + Values(ds[..n + 1]);
        assert n < |tl| ==> ds[n + 1] == tl[n];
      } else {
        assert FirstFailure(ds) == 0;
        assert Values(ds[..0]) == [];
        assert prior + [] == prior;
      }
    }
  }

  /** As written, the decoder never sees an element: the outcome depends only on
      how many elements the array has, not on what they contain. */
  lemma {:induction false} IndexesAsWrittenIgnoresElements<E>(prior: seq<Index>, es1: seq<E>, es2: seq<E>, decode: (Index, bytes) -> Decoded<Index>)
    requires |es1| == |es2|
    ensures IndexesDecodeElems(prior, es1, EmptyBuffer, decode) == IndexesDecodeElems(prior, es2, EmptyBuffer, decode)
    decreases |es1|
  {
    if es1 != [] {
      var d := decode(ZeroIndex, []);
      if d.err.None? {
        IndexesAsWrittenIgnoresElements(prior + [d.value], es1[1..], es2[1..], decode);
      }
    }
  }

  /** The same for Updates: as written every element decodes the empty buffer on
      top of the previous record. */
  lemma {:induction false} UpdatesAsWrittenIgnoresElements<E>(prior: seq<Update>, upd: Update, es1: seq<E>, es2: seq<E>, decode: (Update, bytes) -> Decoded<Update>)
    requires |es1| == |es2|
    ensures UpdatesDecodeElems(prior, upd, es1, EmptyBuffer, decode) == UpdatesDecodeElems(prior, upd, es2, EmptyBuffer, decode)
    decreases |es1|
  {
    if es1 != [] {
      var d := decode(upd, []);
      if d.err.None? {
        UpdatesAsWrittenIgnoresElements(prior + [d.value], d.value, es1[1..], es2[1..], decode);
      }
    }
  }

  /** A concrete witness: a decoder that accepts exactly the bytes `{}` and fails
      on anything else makes the as-written list decoder fail on `[{}]`, while
      the corrected one decodes it. */
  lemma IndexesAsWrittenRejectsValidArray()
    ensures var decode := (x: Index, b: bytes) => if b == [123, 125] then Decoded(x, None) else Decoded(x, Some(Cause("EOF")));
      var marshalTo := (e: bytes) => e;
      && IndexesDecodeElems([], [[123, 125]], EmptyBuffer, decode) == ([], Some(Cause("EOF")))
      && IndexesDecodeElems([], [[123, 125]], marshalTo, decode) == ([ZeroIndex], None)
  {
  }

  /** Corrected Updates decoder: the receiver gains one record per element
      before the first one that fails, each the previous record (the reused
      one at first) updated by that element's own bytes; on success that is
      every element, otherwise the call returns the error of decoding the
      failing element on top of the last record appended. */
  lemma {:induction false} UpdatesDecodeCorrect<E>(prior: seq<Update>, upd: Update, elems: seq<E>, marshalTo: E -> bytes, decode: (Update, bytes) -> Decoded<Update>)
    ensures var (r, err) := UpdatesDecodeElems(prior, upd, elems, marshalTo, decode);
      err.None? ==> forall k :: 0 <= k < |elems| ==>
        decode(if k == 0 then upd else r[|prior| + k - 1], marshalTo(elems[k])) == Decoded(r[|prior| + k], None)
    ensures var (r, err) := UpdatesDecodeElems(prior, upd, elems, marshalTo, decode);
      var n := |r| - |prior|;
      err.Some? ==>
        && n < |elems|
        && decode(if n == 0 then upd else r[|r| - 1], marshalTo(elems[n])).err == err
        && forall k :: 0 <= k < n ==>
             decode(if k == 0 then upd else r[|prior| + k - 1], marshalTo(elems[k])) == Decoded(r[|prior| + k], None)
    decreases |elems|
  {
    if elems != [] {
      var d := decode(upd, marshalTo(elems[0]));
      if d.err.None? {
        UpdatesDecodeCorrect(prior + [d.value], d.value, elems[1..], marshalTo, decode);
        var (r, err) := UpdatesDecodeElems(prior, upd, elems, marshalTo, decode);
        assert (r, err) == UpdatesDecodeElems(prior + [d.value], d.value, elems[1..], marshalTo, decode);
        assert r[|prior|] == d.value by {
          assert r[..|prior| + 1] == prior + [d.value];
        }
        var n := if err.None? then |elems| else |r| - |prior|;
        forall k | 0 <= k < n
          ensures decode(if k == 0 then upd else r[|prior| + k - 1], marshalTo(elems[k])) == Decoded(r[|prior| + k], None)
        {
          if k > 0 {
            assert elems[k] == elems[1..][k - 1];
          }
        }
        if err.Some? {
          assert elems[|r| - |prior|] == elems[1..][|r| - |prior| - 1];
        }
      }
    }
  }

  // ---------------------------------------------------------------------------
  // The unmarshallers themselves: loops that append to the receiver in place.
  // `bf` is the reused bytes.Buffer; `val.MarshalTo(bf.Bytes())` returns a new
  // slice that the source drops, so `bf` stays empty.

  method StrsArrUnmarshalJSON<E>(i: Ref<StrsArr>, data: bytes, parse: bytes -> Parsed<E>, marshalTo: E -> bytes, render: E -> string)
    returns (err: Option<Cause>)
    modifies i
    ensures (i.value, err) == StrsArrDecode(old(i.value), data, parse, render)
  {
    var bf: bytes := [];
    var val := parse(data);
    if val.Malformed? {
      return Some(val.cause);
    }
    if val.NotArray? {
      return Some(val.cause);
    }
    var valArray := val.elems;
    var k := 0;
    while k < |valArray|
      invariant 0 <= k <= |valArray|
      invariant i.value == old(i.value) + seq(k, j requires 0 <= j < k => render(valArray[j]))
    {
      var dropped := bf + marshalTo(valArray[k]);
      i.value := i.value + [render(valArray[k])];
      bf := [];
      k := k + 1;
    }
    return None;
  }

  /** Indexes.UnmarshalJSON as written: every element's decoder is handed the
      empty buffer. */
  method IndexesUnmarshalJSONAsWritten<E>(i: Ref<seq<Index>>, data: bytes, parse: bytes -> Parsed<E>, marshalTo: E -> bytes, decode: (Index, bytes) -> Decoded<Index>)
    returns (err: Option<Cause>)
    modifies i
    ensures (i.value, err) == IndexesDecode(old(i.value), data, parse, EmptyBuffer, decode)
  {
    var bf: bytes := [];
    var vals := parse(data);
    if vals.Malformed? {
      return Some(vals.cause);
    }
    if vals.NotArray? {
      return Some(vals.cause);
    }
    var valArray := vals.elems;
    var k := 0;
    while k < |valArray|
      invariant 0 <= k <= |valArray| && bf == []
      invariant IndexesDecodeElems(old(i.value), valArray, EmptyBuffer, decode)
             == IndexesDecodeElems(i.value, valArray[k..], EmptyBuffer, decode)
    {
      assert valArray[k..][0] == valArray[k] && valArray[k..][1..] == valArray[k + 1..];
      var ind := ZeroIndex;
      var dropped := bf + marshalTo(valArray[k]);
      var d := decode(ind, bf);
      if d.err.Some? {
        return d.err;
      }
      i.value := i.value + [d.value];
      bf := [];
      k := k + 1;
    }
    return None;
  }

  /** Indexes.UnmarshalJSON corrected: each element's decoder is handed the
      element's own bytes. */
  method IndexesUnmarshalJSON<E>(i: Ref<seq<Index>>, data: bytes, parse: bytes -> Parsed<E>, marshalTo: E -> bytes, decode: (Index, bytes) -> Decoded<Index>)
    returns (err: Option<Cause>)
    modifies i
    ensures (i.value, err) == IndexesDecode(old(i.value), data, parse, marshalTo, decode)
  {
    var bf: bytes := [];
    var vals := parse(data);
    if vals.Malformed? {
      return Some(vals.cause);
    }
    if vals.NotArray? {
      return Some(vals.cause);
    }
    var valArray := vals.elems;
    var k := 0;
    while k < |valArray|
      invariant 0 <= k <= |valArray| && bf == []
      invariant IndexesDecodeElems(old(i.value), valArray, marshalTo, decode)
             == IndexesDecodeElems(i.value, valArray[k..], marshalTo, decode)
    {
      assert valArray[k..][0] == valArray[k] && valArray[k..][1..] == valArray[k + 1..];
      var ind := ZeroIndex;
      bf := bf + marshalTo(valArray[k]);
      assert bf == marshalTo(valArray[k]);
      var d := decode(ind, bf);
      if d.err.Some? {
        return d.err;
      }
      i.value := i.value + [d.value];
      bf := [];
      k := k + 1;
    }
    return None;
  }

  /** Updates.UnmarshalJSON as written: one reused record, empty buffer. */
  method UpdatesUnmarshalJSONAsWritten<E>(u: Ref<seq<Update>>, data: bytes, parse: bytes -> Parsed<E>, marshalTo: E -> bytes, decode: (Update, bytes) -> Decoded<Update>)
    returns (err: Option<Cause>)
    modifies u
    ensures (u.value, err) == UpdatesDecode(old(u.value), data, parse, EmptyBuffer, decode)
  {
    var bf: bytes := [];
    var val := parse(data);
    if val.Malformed? {
      return Some(val.cause);
    }
    if val.NotArray? {
      return Some(val.cause);
    }
    var valArray := val.elems;
    var upd := ZeroUpdate;
    var k := 0;
    while k < |valArray|
      invariant 0 <= k <= |valArray| && bf == []
      invariant UpdatesDecodeElems(old(u.value), ZeroUpdate, valArray, EmptyBuffer, decode)
             == UpdatesDecodeElems(u.value, upd, valArray[k..], EmptyBuffer, decode)
    {
      assert valArray[k..][0] == valArray[k] && valArray[k..][1..] == valArray[k + 1..];
      var dropped := bf + marshalTo(valArray[k]);
      var d := decode(upd, bf);
      if d.err.Some? {
        return d.err;
      }
      upd := d.value;
      u.value := u.value + [upd];
      bf := [];
      k := k + 1;
    }
    return None;
  }

  /** Updates.UnmarshalJSON corrected: each element's own bytes are decoded on
      top of the reused record. */
  method UpdatesUnmarshalJSON<E>(u: Ref<seq<Update>>, data: bytes, parse: bytes -> Parsed<E>, marshalTo: E -> bytes, decode: (Update, bytes) -> Decoded<Update>)
    returns (err: Option<Cause>)
    modifies u
    ensures (u.value, err) == UpdatesDecode(old(u.value), data, parse, marshalTo, decode)
  {
    var bf: bytes := [];
    var val := parse(data);
    if val.Malformed? {
      return Some(val.cause);
    }
    if val.NotArray? {
      return Some(val.cause);
    }
    var valArray := val.elems;
    var upd := ZeroUpdate;
    var k := 0;
    while k < |valArray|
      invariant 0 <= k <= |valArray| && bf == []
      invariant UpdatesDecodeElems(old(u.value), ZeroUpdate, valArray, marshalTo, decode)
             == UpdatesDecodeElems(u.value, upd, valArray[k..], marshalTo, decode)
    {
      assert valArray[k..][0] == valArray[k] && valArray[k..][1..] == valArray[k + 1..];
      bf := bf + marshalTo(valArray[k]);
      assert bf == marshalTo(valArray[k]);
      var d := decode(upd, bf);
      if d.err.Some? {
        return d.err;
      }
      upd := d.value;
      u.value := u.value + [upd];
      bf := [];
      k := k + 1;
    }
    return None;
  }

  // ---------------------------------------------------------------------------
  // List marshallers (types.go:231-238, 272-283, 312-323)

  /** The JSON tree a fastjson arena builds; rendering it to bytes is fastjson's
      business and is not modelled. */
  datatype JsonNode = JString(s: string) | JArray(items: seq<JsonNode>)

  /** StrsArr.MarshalJSON: one string item per element, in order. */
  method StrsArrMarshal(strs: StrsArr) returns (arr: JsonNode)
    ensures arr.JArray? && |arr.items| == |strs|
    ensures forall j :: 0 <= j < |strs| ==> arr.items[j] == JString(strs[j])
  {
    var items: seq<JsonNode> := [];
    var j := 0;
    while j < |strs|
      invariant 0 <= j <= |strs| && |items| == j
      invariant forall k :: 0 <= k < j ==> items[k] == JString(strs[k])
    {
      items := items + [JString(strs[j])];
      j := j + 1;
    }
    arr := JArray(items);
  }

  /** Indexes.MarshalJSON and Updates.MarshalJSON (the same loop): each record is
      marshalled by its own codec and stored as a string item holding those
      bytes; the first record that fails to marshal aborts with its error. */
  method ObjectsMarshal<X>(xs: seq<X>, marshal: X -> Marshalled) returns (arr: Option<JsonNode>, err: Option<Cause>)
    ensures arr.Some? <==> err.None?
    ensures err.None? <==> forall j :: 0 <= j < |xs| ==> marshal(xs[j]).err.None?
    ensures err.Some? ==> exists n ::
      && 0 <= n < |xs| && marshal(xs[n]).err == err
      && forall j :: 0 <= j < n ==> marshal(xs[j]).err.None?
    ensures arr.Some? ==>
      && arr.value.JArray? && |arr.value.items| == |xs|
      && forall j :: 0 <= j < |xs| ==> arr.value.items[j] == JString(BytesToString(marshal(xs[j]).data))
  {
    var items: seq<JsonNode> := [];
    var j := 0;
    while j < |xs|
      invariant 0 <= j <= |xs| && |items| == j
      invariant forall k :: 0 <= k < j ==> marshal(xs[k]).err.None?
      invariant forall k :: 0 <= k < j ==> items[k] == JString(BytesToString(marshal(xs[k]).data))
    {
      var m := marshal(xs[j]);
      if m.err.Some? {
        return None, m.err;
      }
      items := items + [JString(BytesToString(m.data))];
      j := j + 1;
    }
    return Some(JArray(items)), None;
  }
}
