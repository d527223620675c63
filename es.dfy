/** The decision logic of the search-engine driver (drivers/es.js): the paths
    it requests, the metadata scope, the three shapes of the search body, the
    retry counter, the scroll cursor kept between calls and the order in which
    the index-creation requests go out and their callbacks fire.

    HTTP is abstracted: every request meets a `Reply` (a body that parsed as
    JSON, one that did not, or a transport error), and each operation is a run
    over the replies its requests meet, giving the requests sent in order and
    how the call ends. */
module EsDriver {
  import opened Js

  /** The options the driver reads. `errorsAllowed` is `None` when unset, in
      which case `retries == errorsAllowed` never holds. */
  datatype EsOptions = EsOptions(
    sourceIndex: Json,
    sourceType: Json,
    sourceSize: Json,
    sourceQuery: Json,
    targetIndex: Json,
    targetType: Json,
    errorsAllowed: Option<int>)

  datatype Verb = HttpGet | HttpPut | HttpPost

  /** One request: its method, its path and the body written with `end`. */
  datatype Request = Request(verb: Verb, path: string, body: string)

  /** What a request met: a reply whose body parsed as JSON, a reply whose body
      did not, or a transport error. */
  datatype Reply = Parsed(value: Json) | Unparsable(raw: string) | TransportError

  predicate Arrived(r: Reply) {
    !r.TransportError?
  }

  // ---------------------------------------------------------------------------
  // Paths

  /** `v + '/'` when `v` is truthy, nothing otherwise. */
  function Segment(v: Json): string {
    if Truthy(v) then ToText(v) + "/" else ""
  }

  /** The mapping read: `/`, then the index and the type when they are set. */
  function MappingPath(o: EsOptions): string {
    "/" + Segment(o.sourceIndex) + Segment(o.sourceType) + "_mapping"
  }

  /** The settings read: `/`, then the index when it is set. */
  function SettingsPath(o: EsOptions): string {
    "/" + Segment(o.sourceIndex) + "_settings"
  }

  /** The type mapping write: it tests the source index and type but writes the
      target index and type. */
  function TypeMappingPath(o: EsOptions): string {
    "/" + (if Truthy(o.sourceIndex) then ToText(o.targetIndex) + "/" else "")
    + (if Truthy(o.sourceType) then ToText(o.targetType) + "/" else "") + "_mapping"
  }

  /** The index creation path, `'/' + targetIndex`, whatever that value is. */
  function IndexPath(o: EsOptions): string {
    "/" + ToText(o.targetIndex)
  }

  /** The mapping read names the index and the type that are set, in that
      order. */
  lemma MappingPathCases(o: EsOptions)
    ensures !Truthy(o.sourceIndex) && !Truthy(o.sourceType) ==> MappingPath(o) == "/_mapping"
    ensures Truthy(o.sourceIndex) && !Truthy(o.sourceType) ==>
      MappingPath(o) == "/" + ToText(o.sourceIndex) + "/_mapping"
    ensures !Truthy(o.sourceIndex) && Truthy(o.sourceType) ==>
      MappingPath(o) == "/" + ToText(o.sourceType) + "/_mapping"
    ensures Truthy(o.sourceIndex) && Truthy(o.sourceType) ==>
      MappingPath(o) == "/" + ToText(o.sourceIndex) + "/" + ToText(o.sourceType) + "/_mapping"
  {
  }

  /** The settings read names the index when it is set; the type plays no
      part. */
  lemma SettingsPathCases(o: EsOptions)
    ensures !Truthy(o.sourceIndex) ==> SettingsPath(o) == "/_settings"
    ensures Truthy(o.sourceIndex) ==> SettingsPath(o) == "/" + ToText(o.sourceIndex) + "/_settings"
  {
  }

  /** The type mapping write names the target index and type, but only where
      the source index and type are set; a falsy target value is written as
      its text all the same. */
  lemma TypeMappingPathCases(o: EsOptions)
    ensures !Truthy(o.sourceIndex) && !Truthy(o.sourceType) ==> TypeMappingPath(o) == "/_mapping"
    ensures Truthy(o.sourceIndex) && Truthy(o.sourceType) ==>
      TypeMappingPath(o) == "/" + ToText(o.targetIndex) + "/" + ToText(o.targetType) + "/_mapping"
    ensures !Truthy(o.sourceIndex) && Truthy(o.sourceType) ==>
      TypeMappingPath(o) == "/" + ToText(o.targetType) + "/_mapping"
    ensures Truthy(o.sourceIndex) && !Truthy(o.sourceType) ==>
      TypeMappingPath(o) == "/" + ToText(o.targetIndex) + "/_mapping"
  {
  }

  // ---------------------------------------------------------------------------
  // getMeta and getSettings

  datatype Scope = AllScope | IndexScope | TypeScope

  /** The scope a read covers: a type when one is set, else an index when one
      is set, else everything. */
  function ScopeOf(o: EsOptions): Scope {
    if Truthy(o.sourceType) then TypeScope
    else if Truthy(o.sourceIndex) then IndexScope
    else AllScope
  }

  function ScopeName(s: Scope): string {
    match s
    case AllScope => "all"
    case IndexScope => "index"
    case TypeScope => "type"
  }

  datatype MetaOutcome =
    | MetaDelivered(metadata: Json)  // the callback received this metadata
    | MetaStalled                    // an error was only logged: the callback never fires
    | MetaCrashed                    // JSON.parse or a property read threw

  datatype MetaRun = MetaRun(sent: seq<Request>, outcome: MetaOutcome)

  /** The metadata before its scope is written: the parsed mapping as it is
      when an index is set, wrapped as `{mappings: …}` otherwise. */
  function Wrapped(o: EsOptions, mapping: Json): Json {
    if Truthy(o.sourceIndex) then mapping else Obj([Field("mappings", mapping)])
  }

  /** The scope writes of `getSettings`: 'all', then 'index' when an index is
      set, then 'type' when a type is set. On a primitive value the writes are
      lost, as a property assignment to a primitive is. */
  function Scoped(o: EsOptions, md: Json): Json
    requires !Nullish(md)
  {
    var md1 := Put(md, "scope", Str("all"));
    var md2 := if Truthy(o.sourceIndex) then Put(md1, "scope", Str("index")) else md1;
    if Truthy(o.sourceType) then Put(md2, "scope", Str("type")) else md2
  }

  /** The last write wins, so an object ends with the name of its scope; a
      primitive is left as it was. */
  lemma ScopedSpec(o: EsOptions, md: Json)
    requires !Nullish(md)
    ensures !Nullish(Scoped(o, md))
    ensures md.Obj? ==> Get(Scoped(o, md), "scope") == Str(ScopeName(ScopeOf(o)))
    ensures !md.Obj? ==> Scoped(o, md) == md
  {
  }

  /** The scope writes change no other property. */
  lemma ScopedKeeps(o: EsOptions, md: Json, key: string)
    requires !Nullish(md) && key != "scope"
    ensures Get(Scoped(o, md), key) == Get(md, key)
  {
    var md1 := Put(md, "scope", Str("all"));
    var md2 := if Truthy(o.sourceIndex) then Put(md1, "scope", Str("index")) else md1;
    PutGetOther(md, "scope", Str("all"), key);
    PutGetOther(md1, "scope", Str("index"), key);
    PutGetOther(md2, "scope", Str("type"), key);
  }

  /** `getMeta` followed by `getSettings`: the mapping read, the scope
      written, and for the 'all' and 'index' scopes the settings read whose
      `settings` are added. */
  function ReadMeta(o: EsOptions, mapping: Reply, settings: Reply): MetaRun {
    var first := Request(HttpGet, MappingPath(o), "");
    match mapping
    case TransportError => MetaRun([first], MetaStalled)
    case Unparsable(_) => MetaRun([first], MetaCrashed)
    case Parsed(j) =>
      var md := Wrapped(o, j);
      if Nullish(md) then MetaRun([first], MetaCrashed)
      else
        var scoped := Scoped(o, md);
        if Truthy(o.sourceType) then MetaRun([first], MetaDelivered(scoped))
        else
          var second := Request(HttpGet, SettingsPath(o), "");
          match settings
          case TransportError => MetaRun([first, second], MetaStalled)
          case Unparsable(_) => MetaRun([first, second], MetaCrashed)
          case Parsed(s) =>
            if Nullish(s) then MetaRun([first, second], MetaCrashed)
            else
              assert !Nullish(scoped) by { ScopedSpec(o, md); }
              MetaRun([first, second], MetaDelivered(Put(scoped, "settings", Get(s, "settings"))))
  }

  /** The requests of a metadata read: the mapping read always, and the
      settings read exactly when the mapping arrived as usable metadata and no
      type is set. */
  lemma ReadMetaRequests(o: EsOptions, mapping: Reply, settings: Reply)
    ensures var r := ReadMeta(o, mapping, settings);
      && 1 <= |r.sent| <= 2
      && r.sent[0] == Request(HttpGet, MappingPath(o), "")
      && (|r.sent| == 2 <==> mapping.Parsed? && !Nullish(Wrapped(o, mapping.value)) && ScopeOf(o) != TypeScope)
      && (|r.sent| == 2 ==> r.sent[1] == Request(HttpGet, SettingsPath(o), ""))
  {
  }

  /** The callback fires exactly when every read arrived and parsed, and the
      values it dereferences are not null or undefined; a transport error
      stalls the read for good. */
  lemma ReadMetaOutcomes(o: EsOptions, mapping: Reply, settings: Reply)
    ensures var r := ReadMeta(o, mapping, settings);
      && (r.outcome.MetaDelivered? <==>
           && mapping.Parsed? && !Nullish(Wrapped(o, mapping.value))
           && (ScopeOf(o) == TypeScope || (settings.Parsed? && !Nullish(settings.value))))
      && (r.outcome == MetaStalled <==>
           mapping.TransportError? || (|r.sent| == 2 && settings.TransportError?))
  {
  }

  /** Delivered metadata carries the name of its scope, provided the writes to
      it were not lost on a primitive value. */
  lemma ReadMetaScope(o: EsOptions, mapping: Reply, settings: Reply)
    requires mapping.Parsed? && Wrapped(o, mapping.value).Obj?
    ensures var r := ReadMeta(o, mapping, settings);
      r.outcome.MetaDelivered? ==> Get(r.outcome.metadata, "scope") == Str(ScopeName(ScopeOf(o)))
  {
    var md := Wrapped(o, mapping.value);
    ScopedSpec(o, md);
    if !Truthy(o.sourceType) && settings.Parsed? && !Nullish(settings.value) {
      PutGetOther(Scoped(o, md), "settings", Get(settings.value, "settings"), "scope");
    }
  }

  /** Without an index the whole reply lands under `mappings`; with one, the
      reply is the metadata and keeps every property other than `scope` and
      `settings`. */
  lemma ReadMetaKeeps(o: EsOptions, mapping: Reply, settings: Reply, key: string)
    requires mapping.Parsed? && key != "scope" && key != "settings"
    ensures var r := ReadMeta(o, mapping, settings);
      r.outcome.MetaDelivered? ==> Get(r.outcome.metadata, key) == Get(Wrapped(o, mapping.value), key)
  {
    var md := Wrapped(o, mapping.value);
    if !Nullish(md) {
      ScopedKeeps(o, md, key);
      if !Truthy(o.sourceType) && settings.Parsed? && !Nullish(settings.value) {
        PutGetOther(Scoped(o, md), "settings", Get(settings.value, "settings"), key);
      }
    }
  }

  /** Without an index the parsed reply is found under `mappings`; for the
      'all' and 'index' scopes the `settings` are those of the settings reply. */
  lemma ReadMetaMappingsAndSettings(o: EsOptions, mapping: Reply, settings: Reply)
    requires mapping.Parsed?
    ensures var r := ReadMeta(o, mapping, settings);
      r.outcome.MetaDelivered? ==>
        && (!Truthy(o.sourceIndex) ==> Get(r.outcome.metadata, "mappings") == mapping.value)
        && (ScopeOf(o) != TypeScope && Wrapped(o, mapping.value).Obj? ==>
              Get(r.outcome.metadata, "settings") == Get(settings.value, "settings"))
  {
    var md := Wrapped(o, mapping.value);
    if !Nullish(md) {
      assert "mappings" != "scope" && "mappings" != "settings" by {
        assert |"mappings"| != |"scope"| && "mappings"[1] != "settings"[1];
      }
      ReadMetaKeeps(o, mapping, settings, "mappings");
    }
  }

  // ---------------------------------------------------------------------------
  // The search body

  /** The meta-fields every search asks for. */
  const MetaFields: Json := Arr([Str("_source"), Str("_timestamp"), Str("_version"), Str("_routing"),
    Str("_percolate"), Str("_parent"), Str("_ttl")])

  /** The `indices` clause: the query applies to the source index only. */
  function IndicesQuery(o: EsOptions): Json {
    Obj([Field("indices", Obj([
      Field("indices", Arr([o.sourceIndex])),
      Field("query", o.sourceQuery),
      Field("no_match_query", Str("none"))]))])
  }

  /** The search body: the user query as it is, wrapped in an `indices` clause
      when an index is set, and the same again with a type filter when a type
      is set (even with no index). */
  function Query(o: EsOptions): Json {
    if Truthy(o.sourceType) then
      Obj([Field("fields", MetaFields), Field("size", o.sourceSize), Field("query", IndicesQuery(o)),
        Field("filter", Obj([Field("type", Obj([Field("value", o.sourceType)]))]))])
    else if Truthy(o.sourceIndex) then
      Obj([Field("fields", MetaFields), Field("size", o.sourceSize), Field("query", IndicesQuery(o))])
    else
      Obj([Field("fields", MetaFields), Field("size", o.sourceSize), Field("query", o.sourceQuery)])
  }

  /** Every body asks for the same seven meta-fields and `sourceSize` hits;
      the user query is wrapped in the `indices` clause exactly when an index
      or a type is set. */
  lemma QueryShape(o: EsOptions)
    ensures Get(Query(o), "fields") == MetaFields
    ensures Get(Query(o), "size") == o.sourceSize
    ensures Get(Query(o), "query") ==
      if Truthy(o.sourceIndex) || Truthy(o.sourceType) then IndicesQuery(o) else o.sourceQuery
  {
    var fields := Query(o).fields;
    assert "size" != "fields" by { assert |"size"| != |"fields"|; }
    assert "query" != "fields" && "query" != "size" by { assert |"query"| != |"fields"| && |"query"| != |"size"|; }
    FieldValueAt(fields, "fields", 0);
    FieldValueAt(fields, "size", 1);
    FieldValueAt(fields, "query", 2);
  }

  /** The type filter is present exactly when a type is set, and holds that
      type. */
  lemma QueryTypeFilter(o: EsOptions)
    ensures Get(Query(o), "filter") != Undefined <==> Truthy(o.sourceType)
    ensures Truthy(o.sourceType) ==>
      Get(Get(Get(Query(o), "filter"), "type"), "value") == o.sourceType
  {
    var fields := Query(o).fields;
    assert "filter" != "fields" && "filter" != "size" && "filter" != "query" by {
      assert "filter"[2] != "fields"[2] && |"filter"| != |"size"| && |"filter"| != |"query"|;
    }
    if Truthy(o.sourceType) {
      FieldValueAt(fields, "filter", 3);
    } else {
      FieldValueAbsent(fields, "filter");
    }
  }

  /** With a type but no index, the `indices` list holds the unset index, which
      JSON.stringify writes as `[null]`: the search is restricted to an index
      named by nothing. */
  lemma TypeWithoutIndex(o: EsOptions)
    requires o.sourceIndex == Undefined && Truthy(o.sourceType)
    ensures Stringify(Get(Get(IndicesQuery(o), "indices"), "indices")) == "[null]"
  {
    assert Get(Get(IndicesQuery(o), "indices"), "indices") == Arr([Undefined]);
    assert StringifyItems([Undefined]) == "null";
  }

  // ---------------------------------------------------------------------------
  // The retry counter shared by getData and storeHits

  datatype Step = Proceed(retries: int) | Abort

  /** The counter check at the start of a call: an absent or zero counter is
      reset to 0 and never checked; a counter equal to errorsAllowed exits the
      process; any other counter goes up by one. */
  function RetryStep(retries: int, errorsAllowed: Option<int>): Step {
    if retries == 0 then Proceed(0)
    else if errorsAllowed == Some(retries) then Abort
    else Proceed(retries + 1)
  }

  /** The number of transport errors after which a call with this counter
      exits, or None when it retries for ever: only a non-zero counter that
      climbs to errorsAllowed without passing through 0 ever gets there. */
  function ErrorsToAbort(retries: int, errorsAllowed: Option<int>): Option<nat> {
    match errorsAllowed
    case None => None
    case Some(e) => if retries != 0 && retries <= e && (retries > 0 || e < 0) then Some(e - retries) else None
  }

  /** One step of the rule agrees with the closed form: it aborts when no error
      is left to take, and otherwise leaves one error fewer. */
  lemma RetryStepCountsDown(retries: int, errorsAllowed: Option<int>)
    ensures RetryStep(retries, errorsAllowed) == Abort <==> ErrorsToAbort(retries, errorsAllowed) == Some(0)
    ensures RetryStep(retries, errorsAllowed).Proceed? ==>
      var next := RetryStep(retries, errorsAllowed).retries;
      ErrorsToAbort(next, errorsAllowed) ==
        match ErrorsToAbort(retries, errorsAllowed)
        case None => None
        case Some(k) => Some(k - 1)
  {
  }

  /** The first call of a read or a write has no counter: it is reset to 0 and
      handed back unchanged by every retry, so it never aborts. */
  lemma ZeroNeverAborts(errorsAllowed: Option<int>)
    ensures RetryStep(0, errorsAllowed) == Proceed(0)
    ensures ErrorsToAbort(0, errorsAllowed) == None
  {
  }

  // ---------------------------------------------------------------------------
  // getData: the scroll cursor

  const SearchPath := "/_search?search_type=scan&scroll=5m"
  const ScrollPath := "/_search/scroll?scroll=5m"

  /** The request a call sends for the current cursor: the first search with
      the body as JSON while the cursor is null, otherwise the scroll request
      whose body is the cursor itself. `end` writes only a truthy chunk, so a
      falsy cursor (`undefined`, `0`, `false`, '') sends no body, and a truthy
      cursor that is not a string makes `end` throw before anything is sent. */
  function DataRequest(o: EsOptions, cursor: Json): Option<Request> {
    if cursor == Null then Some(Request(HttpPost, SearchPath, Stringify(Query(o))))
    else if !Truthy(cursor) then Some(Request(HttpPost, ScrollPath, ""))
    else if cursor.Str? then Some(Request(HttpPost, ScrollPath, cursor.s))
    else None
  }

  datatype DataOutcome =
    | Delivered(hits: Json, total: Json)  // the callback received these
    | DataPending                         // the last request has not been answered
    | DataAborted                         // the process exited
    | DataCrashed                         // a property read or `end` threw

  /** The requests sent, how the call ended and the cursor it left. */
  datatype DataRun = DataRun(sent: seq<Request>, outcome: DataOutcome, cursor: Json)

  /** The value the result handler works on: the parsed body, or the raw text
      when parsing failed (the exception is swallowed). */
  function Data(r: Reply): Json
    requires Arrived(r)
  {
    if r.Parsed? then r.value else Str(r.raw)
  }

  /** The result handler: the cursor is overwritten with `_scroll_id`, then
      the callback gets `hits.hits` (or `[]` when `hits` is falsy) and
      `hits.total`, which throws when `hits` is null or undefined. */
  function Handle(data: Json, cursor: Json): (DataOutcome, Json) {
    if Nullish(data) then (DataCrashed, cursor)
    else
      var next := Get(data, "_scroll_id");
      var hits := Get(data, "hits");
      if Nullish(hits) then (DataCrashed, next)
      else (Delivered(if Truthy(hits) then Get(hits, "hits") else Arr([]), Get(hits, "total")), next)
  }

  /** A `getData` call with its retries, over the replies its requests meet. */
  function ReadRun(o: EsOptions, retries: int, cursor: Json, replies: seq<Reply>): DataRun
    decreases |replies|
  {
    match RetryStep(retries, o.errorsAllowed)
    case Abort => DataRun([], DataAborted, cursor)
    case Proceed(next) =>
      match DataRequest(o, cursor)
      case None => DataRun([], DataCrashed, cursor)
      case Some(req) =>
        if replies == [] then DataRun([req], DataPending, cursor)
        else if replies[0].TransportError? then
          var rest := ReadRun(o, next, cursor, replies[1..]);
          DataRun([req] + rest.sent, rest.outcome, rest.cursor)
        else
          var (outcome, after) := Handle(Data(replies[0]), cursor);
          DataRun([req], outcome, after)
  }

  /** A call never aborts when its counter starts at 0. */
  lemma {:induction false} ReadRunFromZero(o: EsOptions, cursor: Json, replies: seq<Reply>)
    ensures ReadRun(o, 0, cursor, replies).outcome != DataAborted
    decreases |replies|
  {
    if replies != [] {
      ReadRunFromZero(o, cursor, replies[1..]);
    }
  }

  /** Every attempt of a call re-sends the very request of the first attempt,
      and a call whose request cannot be built sends nothing. */
  lemma {:induction false} ReadRunSameRequest(o: EsOptions, retries: int, cursor: Json, replies: seq<Reply>, i: nat)
    requires i < |ReadRun(o, retries, cursor, replies).sent|
    ensures DataRequest(o, cursor).Some? && ReadRun(o, retries, cursor, replies).sent[i] == DataRequest(o, cursor).value
    decreases |replies|
  {
    var step := RetryStep(retries, o.errorsAllowed);
    if i > 0 {
      ReadRunSameRequest(o, step.retries, cursor, replies[1..], i - 1);
    }
  }

  /** The request for each cursor: the first search carries the query, a
      later call scrolls with the cursor verbatim. */
  lemma DataRequestCases(o: EsOptions, cursor: Json)
    ensures cursor == Null ==>
      DataRequest(o, cursor) == Some(Request(HttpPost, SearchPath, Stringify(Query(o))))
    ensures cursor.Str? ==> DataRequest(o, cursor) == Some(Request(HttpPost, ScrollPath, cursor.s))
    ensures cursor != Null && !Truthy(cursor) ==> DataRequest(o, cursor) == Some(Request(HttpPost, ScrollPath, ""))
    ensures DataRequest(o, cursor).None? <==> Truthy(cursor) && !cursor.Str?
  {
  }

  /** Under nothing but transport errors, a call aborts exactly when the
      closed form says so and there were enough errors, after sending one
      request per error; otherwise it is still waiting after one request more
      than there were errors. The cursor is untouched. */
  lemma {:induction false} ReadRunAbortIff(o: EsOptions, retries: int, cursor: Json, replies: seq<Reply>)
    requires DataRequest(o, cursor).Some?
    requires forall i :: 0 <= i < |replies| ==> replies[i].TransportError?
    ensures var r := ReadRun(o, retries, cursor, replies); var n := ErrorsToAbort(retries, o.errorsAllowed);
      && (r.outcome == DataAborted <==> n.Some? && n.value <= |replies|)
      && (r.outcome == DataAborted ==> |r.sent| == n.value)
      && (r.outcome != DataAborted ==> r.outcome == DataPending && |r.sent| == |replies| + 1)
      && r.cursor == cursor
    decreases |replies|
  {
    RetryStepCountsDown(retries, o.errorsAllowed);
    var step := RetryStep(retries, o.errorsAllowed);
    if step.Proceed? && replies != [] {
      ReadRunAbortIff(o, step.retries, cursor, replies[1..]);
    }
  }

  /** The first reply that arrives ends the call: the handler's outcome and
      cursor are those of the run. */
  lemma ReadRunFirstArrival(o: EsOptions, retries: int, cursor: Json, r: Reply, rest: seq<Reply>)
    requires RetryStep(retries, o.errorsAllowed).Proceed? && DataRequest(o, cursor).Some? && Arrived(r)
    ensures var run := ReadRun(o, retries, cursor, [r] + rest);
      && run.sent == [DataRequest(o, cursor).value]
      && (run.outcome, run.cursor) == Handle(Data(r), cursor)
  {
  }

  /** A call over any replies (every attempt sending the same request, as
      `ReadRunSameRequest` states): the call aborts when the counter reaches errorsAllowed before a reply arrives;
      otherwise the first reply that arrives, after k transport errors, ends
      the call on the (k + 1)-th request with the handler's outcome and
      cursor, and with no reply yet the last request is pending. */
  lemma {:induction false} ReadRunSpec(o: EsOptions, retries: int, cursor: Json, replies: seq<Reply>)
    requires DataRequest(o, cursor).Some?
    ensures var r := ReadRun(o, retries, cursor, replies);
      var k := FirstArrival(replies); var n := ErrorsToAbort(retries, o.errorsAllowed);
      var aborts := n.Some? && n.value <= k;
      && (r.outcome == DataAborted <==> aborts)
      && (aborts ==> |r.sent| == n.value && r.cursor == cursor)
      && (!aborts && k == |replies| ==> r.outcome == DataPending && |r.sent| == k + 1 && r.cursor == cursor)
      && (!aborts && k < |replies| ==>
            |r.sent| == k + 1 && (r.outcome, r.cursor) == Handle(Data(replies[k]), cursor))
    decreases |replies|
  {
    RetryStepCountsDown(retries, o.errorsAllowed);
    var step := RetryStep(retries, o.errorsAllowed);
    if step.Proceed? && replies != [] && replies[0].TransportError? {
      var req := DataRequest(o, cursor).value;
      var rest := ReadRun(o, step.retries, cursor, replies[1..]);
      assert ReadRun(o, retries, cursor, replies) == DataRun([req] + rest.sent, rest.outcome, rest.cursor);
      var k := FirstArrival(replies[1..]);
      assert FirstArrival(replies) == k + 1;
      ReadRunSpec(o, step.retries, cursor, replies[1..]);
      if k < |replies[1..]| {
        assert replies[1..][k] == replies[k + 1];
      }
    }
  }

  /** A cursor `end` cannot write: the call sends nothing and crashes, unless
      its counter aborts it first. */
  lemma ReadRunBadCursor(o: EsOptions, retries: int, cursor: Json, replies: seq<Reply>)
    requires DataRequest(o, cursor).None?
    ensures var r := ReadRun(o, retries, cursor, replies);
      && r.sent == [] && r.cursor == cursor
      && r.outcome == if ErrorsToAbort(retries, o.errorsAllowed) == Some(0) then DataAborted else DataCrashed
  {
    RetryStepCountsDown(retries, o.errorsAllowed);
  }

  /** What the callback receives, `hits.hits` and `hits.total`: for an object
      `hits` its two properties; the `[]` fallback only takes effect for a
      `hits` that is falsy but not null or undefined, whose `total` is then
      undefined; a truthy primitive `hits` has neither property. */
  lemma HandleDelivers(data: Json, cursor: Json)
    requires !Nullish(data) && !Nullish(Get(data, "hits"))
    ensures var hits := Get(data, "hits"); var h := Handle(data, cursor);
      && h.1 == Get(data, "_scroll_id")
      && (hits.Obj? ==> h.0 == Delivered(Get(hits, "hits"), Get(hits, "total")))
      && (!Truthy(hits) ==> h.0 == Delivered(Arr([]), Undefined))
      && (Truthy(hits) && !hits.Obj? ==> h.0 == Delivered(Undefined, Undefined))
  {
  }

  /** Every reply that reaches the handler replaces the cursor with its
      `_scroll_id`; a reply without `hits` then crashes the call (the `[]`
      fallback does not help), and a body that did not parse does too. */
  lemma HandleCases(data: Json, cursor: Json, raw: string)
    ensures !Nullish(data) ==> Handle(data, cursor).1 == Get(data, "_scroll_id")
    ensures !Nullish(data) && Nullish(Get(data, "hits")) ==> Handle(data, cursor).0 == DataCrashed
    ensures Handle(Str(raw), cursor) == (DataCrashed, Undefined)
    ensures Handle(data, cursor).0.Delivered? <==> !Nullish(data) && !Nullish(Get(data, "hits"))
  {
  }

  /** A reply with a string cursor makes the next call scroll with it. */
  lemma NextCallScrolls(o: EsOptions, data: Json, cursor: Json, s: string)
    requires !Nullish(data) && Get(data, "_scroll_id") == Str(s)
    ensures DataRequest(o, Handle(data, cursor).1) == Some(Request(HttpPost, ScrollPath, s))
  {
  }

  /** The module-level cursor of the driver. */
  class EsSource {
    var scrollId: Json

    constructor ()
      ensures scrollId == Null
    {
      scrollId := Null;
    }

    /** `getData`: the attempts of one call, then the cursor the handler left. */
    method GetData(o: EsOptions, retries: int, replies: seq<Reply>) returns (sent: seq<Request>, outcome: DataOutcome)
      modifies this`scrollId
      ensures DataRun(sent, outcome, scrollId) == ReadRun(o, retries, old(scrollId), replies)
    {
      var after;
      sent, outcome, after := Attempt(o, retries, scrollId, replies);
      scrollId := after;
    }
  }

  /** The attempts of one `getData` call: the counter check, the request, and
      a retry with the updated counter after each transport error. */
  method Attempt(o: EsOptions, retries: int, cursor: Json, replies: seq<Reply>)
    returns (sent: seq<Request>, outcome: DataOutcome, after: Json)
    ensures DataRun(sent, outcome, after) == ReadRun(o, retries, cursor, replies)
  {
    ghost var whole := ReadRun(o, retries, cursor, replies);
    sent := [];
    var r := retries;
    var i := 0;
    while true
      invariant 0 <= i <= |replies|
      invariant DataJoin(sent, ReadRun(o, r, cursor, replies[i..])) == whole
      decreases |replies| - i
    {
      var step := RetryStep(r, o.errorsAllowed);
      var request := DataRequest(o, cursor);
      if step.Abort? || request.None? {
        outcome, after := if step.Abort? then DataAborted else DataCrashed, cursor;
        assert sent + [] == sent;
        return;
      }
      if i == |replies| {
        sent, outcome, after := sent + [request.value], DataPending, cursor;
        return;
      }
      if Arrived(replies[i]) {
        var handled := Handle(Data(replies[i]), cursor);
        sent, outcome, after := sent + [request.value], handled.0, handled.1;
        return;
      }
      ReadRetry(o, r, cursor, replies, i, sent);
      sent := sent + [request.value];
      r := step.retries;
      i := i + 1;
    }
  }

  /** The requests already sent, followed by a run. */
  function DataJoin(earlier: seq<Request>, run: DataRun): DataRun {
    DataRun(earlier + run.sent, run.outcome, run.cursor)
  }

  /** After a transport error, the attempts from here are the one just made
      followed by those of the retry. */
  lemma ReadRetry(o: EsOptions, r: int, cursor: Json, replies: seq<Reply>, i: nat, earlier: seq<Request>)
    requires i < |replies| && replies[i].TransportError?
    requires RetryStep(r, o.errorsAllowed).Proceed? && DataRequest(o, cursor).Some?
    ensures var next := RetryStep(r, o.errorsAllowed).retries;
      DataJoin(earlier, ReadRun(o, r, cursor, replies[i..]))
        == DataJoin(earlier + [DataRequest(o, cursor).value], ReadRun(o, next, cursor, replies[i + 1..]))
  {
    assert replies[i..][1..] == replies[i + 1..];
    var request := DataRequest(o, cursor).value;
    var rest := ReadRun(o, RetryStep(r, o.errorsAllowed).retries, cursor, replies[i + 1..]);
    assert earlier + ([request] + rest.sent) == (earlier + [request]) + rest.sent;
  }

  // ---------------------------------------------------------------------------
  // storeHits

  datatype StoreOutcome = Stored | StorePending | StoreAborted

  datatype StoreRun = StoreRun(sent: seq<Request>, outcome: StoreOutcome)

  /** The bulk write: the data verbatim to `_bulk` (no leading slash). */
  function BulkRequest(data: string): Request {
    Request(HttpPost, "_bulk", data)
  }

  /** A `storeHits` call with its retries: any reply, whatever its status or
      body, calls back once. */
  function StoreAttempts(o: EsOptions, data: string, retries: int, replies: seq<Reply>): StoreRun
    decreases |replies|
  {
    match RetryStep(retries, o.errorsAllowed)
    case Abort => StoreRun([], StoreAborted)
    case Proceed(next) =>
      if replies == [] then StoreRun([BulkRequest(data)], StorePending)
      else if replies[0].TransportError? then
        var rest := StoreAttempts(o, data, next, replies[1..]);
        StoreRun([BulkRequest(data)] + rest.sent, rest.outcome)
      else StoreRun([BulkRequest(data)], Stored)
  }

  /** The index of the first reply that arrived, or |replies|. */
  function FirstArrival(replies: seq<Reply>): (k: nat)
    ensures k <= |replies|
    ensures forall i :: 0 <= i < k ==> !Arrived(replies[i])
    ensures k < |replies| ==> Arrived(replies[k])
  {
    if replies == [] then 0 else if Arrived(replies[0]) then 0 else 1 + FirstArrival(replies[1..])
  }

  /** Every request of a write is the same bulk request; the callback fires
      once, on the first reply that arrives, unless the counter aborts first;
      with no reply yet the last request is pending. */
  lemma {:induction false} StoreAttemptsSpec(o: EsOptions, data: string, retries: int, replies: seq<Reply>)
    ensures var r := StoreAttempts(o, data, retries, replies);
      var k := FirstArrival(replies); var n := ErrorsToAbort(retries, o.errorsAllowed);
      && (forall i :: 0 <= i < |r.sent| ==> r.sent[i] == BulkRequest(data))
      && (r.outcome == StoreAborted <==> n.Some? && n.value <= k)
      && (r.outcome == Stored <==> k < |replies| && !(n.Some? && n.value <= k))
      && (r.outcome == StoreAborted ==> |r.sent| == n.value)
      && (r.outcome == Stored ==> |r.sent| == k + 1)
    decreases |replies|
  {
    RetryStepCountsDown(retries, o.errorsAllowed);
    var step := RetryStep(retries, o.errorsAllowed);
    if step.Proceed? && replies != [] && replies[0].TransportError? {
      StoreAttemptsSpec(o, data, step.retries, replies[1..]);
    }
  }

  /** `storeHits`: the attempts of one call. */
  method StoreHits(o: EsOptions, data: string, retries: int, replies: seq<Reply>)
    returns (sent: seq<Request>, outcome: StoreOutcome)
    ensures StoreRun(sent, outcome) == StoreAttempts(o, data, retries, replies)
  {
    ghost var whole := StoreAttempts(o, data, retries, replies);
    sent := [];
    var r := retries;
    var i := 0;
    while true
      invariant 0 <= i <= |replies|
      invariant StoreJoin(sent, StoreAttempts(o, data, r, replies[i..])) == whole
      decreases |replies| - i
    {
      var step := RetryStep(r, o.errorsAllowed);
      if step.Abort? {
        outcome := StoreAborted;
        assert sent + [] == sent;
        return;
      }
      var request := BulkRequest(data);
      if i == |replies| || Arrived(replies[i]) {
        sent, outcome := sent + [request], if i == |replies| then StorePending else Stored;
        return;
      }
      StoreRetry(o, data, r, replies, i, sent);
      sent := sent + [request];
      r := step.retries;
      i := i + 1;
    }
  }

  /** The requests already sent, followed by a run. */
  function StoreJoin(earlier: seq<Request>, run: StoreRun): StoreRun {
    StoreRun(earlier + run.sent, run.outcome)
  }

  /** After a transport error, the attempts from here are the one just made
      followed by those of the retry. */
  lemma StoreRetry(o: EsOptions, data: string, r: int, replies: seq<Reply>, i: nat, earlier: seq<Request>)
    requires i < |replies| && replies[i].TransportError? && RetryStep(r, o.errorsAllowed).Proceed?
    ensures var next := RetryStep(r, o.errorsAllowed).retries;
      StoreJoin(earlier, StoreAttempts(o, data, r, replies[i..]))
        == StoreJoin(earlier + [BulkRequest(data)], StoreAttempts(o, data, next, replies[i + 1..]))
  {
    assert replies[i..][1..] == replies[i + 1..];
    var rest := StoreAttempts(o, data, RetryStep(r, o.errorsAllowed).retries, replies[i + 1..]);
    assert earlier + ([BulkRequest(data)] + rest.sent) == (earlier + [BulkRequest(data)]) + rest.sent;
  }

  // ---------------------------------------------------------------------------
  // createTypeMeta and createIndexMeta

  datatype CreateOutcome =
    | Created        // the callback fired
    | CreateStalled  // an error was only logged: the callback never fires
    | CreateCrashed  // a property read threw

  datatype CreateRun = CreateRun(sent: seq<Request>, outcome: CreateOutcome)

  /** The body of the type mapping write: `{metadata: metadata.metadata}`. */
  function TypeMappingBody(md: Json): string
    requires !Nullish(md)
  {
    Stringify(Obj([Field("metadata", Get(md, "metadata"))]))
  }

  /** `createTypeMeta`: the index is created with an empty body, and only
      once that request is answered is the type mapping written; its answer
      fires the callback. */
  function CreateTypeMeta(o: EsOptions, md: Json, indexReply: Reply, mappingReply: Reply): CreateRun {
    var first := Request(HttpPut, IndexPath(o), "");
    if !Arrived(indexReply) then CreateRun([first], CreateStalled)
    else if Nullish(md) then CreateRun([first], CreateCrashed)
    else
      var second := Request(HttpPut, TypeMappingPath(o), TypeMappingBody(md));
      if !Arrived(mappingReply) then CreateRun([first, second], CreateStalled)
      else CreateRun([first, second], Created)
  }

  /** The mapping write goes out only after the index creation is answered,
      and the callback fires only after both are. */
  lemma CreateTypeMetaOrder(o: EsOptions, md: Json, indexReply: Reply, mappingReply: Reply)
    ensures var r := CreateTypeMeta(o, md, indexReply, mappingReply);
      && 1 <= |r.sent| <= 2
      && r.sent[0] == Request(HttpPut, IndexPath(o), "")
      && (|r.sent| == 2 <==> Arrived(indexReply) && !Nullish(md))
      && (|r.sent| == 2 ==> r.sent[1] == Request(HttpPut, TypeMappingPath(o), TypeMappingBody(md)))
      && (r.outcome == Created <==> Arrived(indexReply) && !Nullish(md) && Arrived(mappingReply))
  {
  }

  /** Metadata without a `metadata` property sends an empty object. */
  lemma TypeMappingBodyEmpty(md: Json)
    requires !Nullish(md) && Get(md, "metadata") == Undefined
    ensures TypeMappingBody(md) == "{}"
  {
    StringifySkipsUndefined("metadata", []);
    assert [Field("metadata", Get(md, "metadata"))] + [] == [Field("metadata", Get(md, "metadata"))];
    assert Stringify(Obj([])) == "{}";
  }

  /** Metadata with a `metadata` property sends it as the only member. */
  lemma TypeMappingBodyDefined(md: Json)
    requires !Nullish(md) && Get(md, "metadata") != Undefined
    ensures TypeMappingBody(md) == "{" + Member("metadata", Get(md, "metadata")) + "}"
  {
    StringifyOneField("metadata", Get(md, "metadata"));
  }

  /** The body of the index creation: the same value as settings and mappings. */
  function IndexBody(o: EsOptions, md: Json): string
    requires !Nullish(md)
  {
    var m := Get(md, ToText(o.sourceIndex));
    Stringify(Obj([Field("settings", m), Field("mappings", m)]))
  }

  /** `createIndexMeta`: one write whose answer fires the callback. */
  function CreateIndexMeta(o: EsOptions, md: Json, reply: Reply): CreateRun {
    if Nullish(md) then CreateRun([], CreateCrashed)
    else
      var req := Request(HttpPut, IndexPath(o), IndexBody(o, md));
      CreateRun([req], if Arrived(reply) then Created else CreateStalled)
  }

  /** Both halves of the body are `metadata[sourceIndex]`. */
  lemma IndexBodySettingsEqualMappings(o: EsOptions, md: Json)
    requires !Nullish(md) && Get(md, ToText(o.sourceIndex)) != Undefined
    ensures var m := Get(md, ToText(o.sourceIndex));
      IndexBody(o, md) == "{" + Member("settings", m) + "," + Member("mappings", m) + "}"
  {
    StringifyTwoFields("settings", Get(md, ToText(o.sourceIndex)), "mappings", Get(md, ToText(o.sourceIndex)));
  }

  /** When the metadata has nothing under the source index name (with no
      index set, the name looked up is the text `undefined`), the index is
      created from an empty object. */
  lemma IndexBodyUnknownIndex(o: EsOptions, md: Json)
    requires !Nullish(md) && Get(md, ToText(o.sourceIndex)) == Undefined
    ensures IndexBody(o, md) == "{}"
  {
    var m := Get(md, ToText(o.sourceIndex));
    StringifySkipsUndefined("settings", [Field("mappings", m)]);
    assert [Field("settings", m)] + [Field("mappings", m)] == [Field("settings", m), Field("mappings", m)];
    StringifySkipsUndefined("mappings", []);
    assert [Field("mappings", m)] + [] == [Field("mappings", m)];
    assert Stringify(Obj([])) == "{}";
  }

  /** The write goes out as soon as the metadata can be read; the callback
      fires exactly when it is answered. */
  lemma CreateIndexMetaRuns(o: EsOptions, md: Json, reply: Reply)
    ensures var r := CreateIndexMeta(o, md, reply);
      && (Nullish(md) <==> r.sent == [])
      && (!Nullish(md) ==> r.sent == [Request(HttpPut, IndexPath(o), IndexBody(o, md))])
      && (r.outcome == Created <==> !Nullish(md) && Arrived(reply))
  {
  }

  // ---------------------------------------------------------------------------
  // createAllMeta

  /** The write for one index: `PUT /<index>` with that index's settings and
      mappings, `metadata.settings` and `metadata.mappings` being given. */
  function AllIndexRequest(settings: Json, mappings: Json, index: string): Request
    requires !Nullish(settings) && !Nullish(mappings)
  {
    Request(HttpPut, "/" + index, Stringify(Obj([
      Field("settings", Get(settings, index)),
      Field("mappings", Get(mappings, index))])))
  }

  /** The index names of the metadata, in for-in order. */
  function IndexNames(md: Json): seq<string>
    requires !Nullish(md)
  {
    Keys(Fields(Get(md, "mappings")))
  }

  /** The done-handler's firings over k answers, counted from `done` answers
      already in: each answer increments the count and fires when it reaches n. */
  function Firings(n: nat, done: nat, k: nat): nat
    decreases k
  {
    if k == 0 then 0 else (if done + 1 == n then 1 else 0) + Firings(n, done + 1, k - 1)
  }

  /** The callback of `createAllMeta` fires exactly once when every write has
      been answered and never before; with no index at all it never fires. */
  lemma {:induction false} FiresOnce(n: nat, done: nat, k: nat)
    ensures Firings(n, done, k) == if done < n <= done + k then 1 else 0
    decreases k
  {
    if k > 0 {
      FiresOnce(n, done + 1, k - 1);
    }
  }

  /** The writes for the given indices, in order. */
  function IndexRequests(settings: Json, mappings: Json, indices: seq<string>): seq<Request>
    requires !Nullish(settings) && !Nullish(mappings)
  {
    if indices == [] then []
    else
      var last := indices[|indices| - 1];
      IndexRequests(settings, mappings, indices[..|indices| - 1]) + [AllIndexRequest(settings, mappings, last)]
  }

  /** One write per index, the i-th for the i-th index. */
  lemma {:induction false} IndexRequestsSpec(settings: Json, mappings: Json, indices: seq<string>)
    requires !Nullish(settings) && !Nullish(mappings)
    ensures var r := IndexRequests(settings, mappings, indices);
      |r| == |indices| && forall i :: 0 <= i < |indices| ==> r[i] == AllIndexRequest(settings, mappings, indices[i])
    decreases |indices|
  {
    if indices != [] {
      IndexRequestsSpec(settings, mappings, indices[..|indices| - 1]);
    }
  }

  /** The loop over `metadata.mappings`: each index is counted, then its
      write is sent; reading the settings of an index throws when
      `metadata.settings` is null or undefined, after the count went up. */
  method IssueAll(md: Json) returns (sent: seq<Request>, crashed: bool, count: nat)
    ensures Nullish(md) ==> crashed && sent == [] && count == 0
    ensures !Nullish(md) && IndexNames(md) != [] && Nullish(Get(md, "settings")) ==>
      crashed && sent == [] && count == 1
    ensures !Nullish(md) && IndexNames(md) == [] ==> !crashed && sent == [] && count == 0
    ensures !Nullish(md) && IndexNames(md) != [] && !Nullish(Get(md, "settings")) ==>
      && !crashed && count == |IndexNames(md)|
      && sent == IndexRequests(Get(md, "settings"), Get(md, "mappings"), IndexNames(md))
  {
    sent, count := [], 0;
    if Nullish(md) {
      crashed := true;
      return;
    }
    var mappings := Get(md, "mappings");
    var names := Keys(Fields(mappings));
    assert names == IndexNames(md);
    ghost var given := Get(md, "settings");
    var i := 0;
    while i < |names|
      invariant 0 <= i <= |names| && count == i && (names != [] ==> mappings.Obj?)
      invariant i > 0 ==> !Nullish(given) && sent == IndexRequests(given, mappings, names[..i])
      invariant i == 0 ==> sent == []
    {
      count := count + 1;
      var settings := Get(md, "settings");
      if Nullish(settings) {
        crashed := true;
        return;
      }
      assert names[..i + 1][..i] == names[..i];
      sent := sent + [AllIndexRequest(settings, mappings, names[i])];
      i := i + 1;
    }
    assert names[..|names|] == names;
    crashed := false;
  }

  /** The counters of one `createAllMeta` call. */
  class AllMetaCreation {
    var numIndices: nat
    var indicesDone: nat

    constructor ()
      ensures numIndices == 0 && indicesDone == 0
    {
      numIndices := 0;
      indicesDone := 0;
    }

    /** `createAllMeta` up to its responses: the count of indices goes up
        by what the loop over `metadata.mappings` counted. */
    method Issue(md: Json) returns (sent: seq<Request>, crashed: bool)
      modifies this`numIndices
      ensures Nullish(md) ==> crashed && sent == [] && numIndices == old(numIndices)
      ensures !Nullish(md) && IndexNames(md) != [] && Nullish(Get(md, "settings")) ==>
        crashed && sent == [] && numIndices == old(numIndices) + 1
      ensures !Nullish(md) && IndexNames(md) == [] ==> !crashed && sent == [] && numIndices == old(numIndices)
      ensures !Nullish(md) && IndexNames(md) != [] && !Nullish(Get(md, "settings")) ==>
        && !crashed && numIndices == old(numIndices) + |IndexNames(md)|
        && sent == IndexRequests(Get(md, "settings"), Get(md, "mappings"), IndexNames(md))
    {
      var count;
      sent, crashed, count := IssueAll(md);
      numIndices := numIndices + count;
    }

    /** The response handler `done`: one more answer, and the callback fires
        when the answers reach the number of indices. */
    method Done() returns (fire: bool)
      modifies this`indicesDone
      ensures indicesDone == old(indicesDone) + 1
      ensures fire <==> numIndices == indicesDone
    {
      indicesDone := indicesDone + 1;
      fire := numIndices == indicesDone;
    }

    /** k answers arrive, in whatever order the writes complete: the
        callback fires as often as `Firings` counts, so at most once. */
    method Answers(k: nat) returns (fires: nat)
      modifies this`indicesDone
      ensures indicesDone == old(indicesDone) + k
      ensures fires == Firings(numIndices, old(indicesDone), k)
    {
      fires := 0;
      var j := 0;
      while j < k
        invariant 0 <= j <= k && indicesDone == old(indicesDone) + j
        invariant fires + Firings(numIndices, indicesDone, k - j) == Firings(numIndices, old(indicesDone), k)
      {
        var fire := Done();
        if fire {
          fires := fires + 1;
        }
        j := j + 1;
      }
    }
  }
}
